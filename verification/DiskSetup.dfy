/** initd's disk code over the tools it runs. What it does is always a log that the automaton
    of module Disks accepts. */
module DiskSetup {
  import opened Storage
  import opened Disks
  import opened DiskSealing

  // ---- helper tools: their runs are recorded, as they leave no trace on the platform ----

  datatype ToolRun = ToolRun(tool: Tool, ok: bool)

  /** That flushing a session fails is ignored. */
  predicate RanWell(run: ToolRun, tool: Tool) {
    run.tool == tool && (run.ok || tool.FlushSession?)
  }

  /** In between, exactly these were run, in this order, and well. */
  ghost predicate Ran(before: seq<ToolRun>, after: seq<ToolRun>, tools: seq<Tool>) {
    && |after| == |before| + |tools| && before <= after
    && forall k | 0 <= k < |tools| :: RanWell(after[|before| + k], tools[k])
  }

  lemma RanNothing(a: seq<ToolRun>)
    ensures Ran(a, a, [])
  {
  }

  lemma RanOne(a: seq<ToolRun>, run: ToolRun)
    ensures RanWell(run, run.tool) ==> Ran(a, a + [run], [run.tool])
  {
  }

  lemma RanBoth(a: seq<ToolRun>, b: seq<ToolRun>, c: seq<ToolRun>, first: seq<Tool>, second: seq<Tool>)
    requires Ran(a, b, first) && Ran(b, c, second)
    ensures Ran(a, c, first + second)
  {
    forall k | 0 <= k < |first + second| ensures RanWell(c[|a| + k], (first + second)[k]) {
      if k < |first| {
        assert c[|a| + k] == b[|a| + k];
      } else {
        assert RanWell(c[|b| + (k - |first|)], second[k - |first|]);
      }
    }
  }

  function SessionTools(luks: Luks): seq<Tool> {
    if luks.pcrs.None? then [] else [StartSession, SatisfyPolicy]
  }

  function FlushTools(luks: Luks): seq<Tool> {
    if luks.pcrs.None? then [] else [FlushSession]
  }

  function DigestTools(luks: Luks): seq<Tool> {
    if luks.pcrs.None? then [] else [ReadPcrs, TrialSession, TrialPolicy, FlushTrial]
  }

  /** The key file is made private as soon as the key is in it. */
  function ReadTools(luks: Luks): seq<Tool> {
    SessionTools(luks) + FlushTools(luks) + [PrivateKeyFile]
  }

  function StoreTools(luks: Luks): seq<Tool> {
    DigestTools(luks) + SessionTools(luks) + FlushTools(luks)
  }

  /** For a whole turn, by what `isLuks` said. */
  function OpenTools(luks: Luks, header: bool): seq<Tool> {
    [DmControl] + if header then ReadTools(luks) else [PrivateKeyFile] + StoreTools(luks)
  }

  /** However a disk is opened, its key file is made private; a key bound to PCRs is only handled in
      a session that satisfies the policy, and both sessions are flushed. */
  lemma OpenToolsPrivate(luks: Luks, header: bool)
    ensures var tools := OpenTools(luks, header);
            && tools[0] == DmControl && PrivateKeyFile in tools
            && (forall t | t == StartSession || t == SatisfyPolicy || t == FlushSession :: t in tools <==> luks.pcrs.Some?)
            && (forall t | t == ReadPcrs || t == TrialSession || t == TrialPolicy || t == FlushTrial ::
                  t in tools <==> luks.pcrs.Some? && !header)
  {
  }

  ghost predicate RanTurn(d: Disk, before: seq<ToolRun>, after: seq<ToolRun>) {
    match d.encrypt
    case None => Ran(before, after, [MountPoint, MountFlags])
    case Some(luks) => exists header :: Ran(before, after, OpenTools(luks, header) + [MountPoint, MountFlags])
  }

  ghost predicate RanTurns(cfg: seq<Disk>, before: seq<ToolRun>, after: seq<ToolRun>) {
    if cfg == [] then after == before
    else
      var first, last := cfg[..|cfg| - 1], cfg[|cfg| - 1];
      exists mid :: RanTurns(first, before, mid) && RanTurn(last, mid, after)
  }

  lemma OneMoreTurn(cfg: seq<Disk>, d: Disk, before: seq<ToolRun>, mid: seq<ToolRun>, after: seq<ToolRun>)
    requires RanTurns(cfg, before, mid) && RanTurn(d, mid, after)
    ensures RanTurns(cfg + [d], before, after)
  {
    assert (cfg + [d])[..|cfg|] == cfg;
  }

  predicate FlushedLast(tools: seq<ToolRun>) {
    tools != [] && tools[|tools| - 1].tool.FlushSession?
  }

  /** If a session was started, it has been flushed. */
  ghost predicate SessionEnded(before: seq<ToolRun>, after: seq<ToolRun>) {
    FlushedLast(after) || (|after| == |before| + 1 && after[|before|] == ToolRun(StartSession, false))
  }

  class Disker {
    const cfg: seq<Disk>
    ghost const start: State
    var p: Platform
    ghost var log: seq<Obs>
    ghost var tools: seq<ToolRun>

    constructor (cfg: seq<Disk>, found: Platform)
      ensures this.cfg == cfg && start == PowerOn(cfg, found) && log == [] && tools == [] && At(Enter(cfg, 0))
    {
      this.cfg, start, log, tools := cfg, PowerOn(cfg, found), [], [];
      p := PowerOn(cfg, found).p;
    }

    ghost predicate At(phase: Phase)
      reads this
    {
      Run(cfg, start, log) == Some(State(phase, p)) && PowerCycleFree(log)
    }

    // ---- the tools: each may be refused, and succeeds only if the platform permits ----

    /** Any helper without lasting effect. */
    method Helper(tool: Tool, ghost phase: Phase) returns (ok: bool)
      requires At(phase) && Live(cfg, phase) && (OfEncrypted(phase) ==> cfg[SlotOf(phase)].encrypt.Some?)
      requires NeedsTool(cfg, phase, tool)
      modifies `log, `tools
      ensures tools == old(tools) + [ToolRun(tool, ok)]
      ensures log == if ok then old(log) else old(log) + [HelperFailed(tool)]
      ensures ok ==> Ran(old(tools), tools, [tool])
      ensures !ok ==> At(Give(phase))
    {
      ok := *;
      if !ok {
        RunSnoc(cfg, start, log, HelperFailed(tool));
        log := log + [HelperFailed(tool)];
      }
      RanOne(tools, ToolRun(tool, ok));
      tools := tools + [ToolRun(tool, ok)];
    }

    /** The session is told the selection, and is left with the policy for its present values. */
    method PolicyTool(tool: Tool, selection: string, ghost phase: Phase) returns (ok: bool, policy: Option<Policy>)
      requires At(phase) && Live(cfg, phase) && (OfEncrypted(phase) ==> cfg[SlotOf(phase)].encrypt.Some?)
      requires NeedsTool(cfg, phase, tool)
      modifies `log, `tools
      ensures tools == old(tools) + [ToolRun(tool, ok)]
      ensures log == if ok then old(log) else old(log) + [HelperFailed(tool)]
      ensures ok ==> Ran(old(tools), tools, [tool]) && policy == Some(Policy(selection, Pcr(p.pcrs, selection)))
      ensures !ok ==> At(Give(phase))
    {
      ok := Helper(tool, phase);
      policy := Some(Policy(selection, Pcr(p.pcrs, selection)));
    }

    /** Its failure is ignored. */
    method Flush()
      modifies `tools
      ensures Ran(old(tools), tools, [FlushSession]) && FlushedLast(tools)
    {
      var ok: bool := *;
      RanOne(tools, ToolRun(FlushSession, ok));
      tools := tools + [ToolRun(FlushSession, ok)];
    }

    method CryptsetupIsLuks(device: string) returns (answer: Option<bool>)
      modifies `log
      ensures log == old(log) + [IsLuks(answer)]
      ensures answer == Some(true) ==> HasHeader(p, device)
    {
      var ran: bool, success: bool := *, *;
      answer := if ran then Some(success && HasHeader(p, device)) else None;
      log := log + [IsLuks(answer)];
    }

    method CryptsetupFormat(device: string) returns (outcome: Outcome)
      modifies `log, `p
      ensures log == old(log) + [LuksFormat(outcome)]
      ensures outcome.Refused? ==> p == old(p)
      ensures outcome.Wrecked? ==> device in old(p).media && old(p).keyFile.Some? && p == SetMedium(old(p), device, Raw(None))
      ensures outcome.Performed? ==>
                device in old(p).media && old(p).keyFile.Some? && p == SetMedium(old(p), device, Encrypted(old(p).keyFile.value, None))
    {
      outcome := *;
      if device !in p.media || p.keyFile.None? { outcome := Refused; }
      match outcome {
        case Refused =>
        case Wrecked => p := SetMedium(p, device, Raw(None));
        case Performed => p := SetMedium(p, device, Encrypted(p.keyFile.value, None));
      }
      log := log + [LuksFormat(outcome)];
    }

    method CryptsetupOpen(device: string, name: string) returns (ok: bool)
      modifies `log, `p
      ensures log == old(log) + [LuksOpen(ok)]
      ensures !ok ==> p == old(p)
      ensures ok ==> KeyFits(old(p), device) && p == old(p).(mapped := old(p).mapped[name := device])
    {
      ok := *;
      ok := ok && KeyFits(p, device);
      if ok { p := p.(mapped := p.mapped[name := device]); }
      log := log + [LuksOpen(ok)];
    }

    method TpmGetRandom() returns (ok: bool, ghost key: nat)
      modifies `log, `p
      ensures log == old(log) + [GetRandom(key, ok)]
      ensures p == if ok then old(p).(keyFile := Some(key)) else old(p)
    {
      ok := *;
      var bytes: nat :| 0 <= bytes;
      if ok { p := p.(keyFile := Some(bytes)); }
      key := bytes;
      log := log + [GetRandom(bytes, ok)];
    }

    method NvUndefineTool(index: string) returns (ok: bool)
      modifies `log, `p
      ensures log == old(log) + [NvUndefine(ok)]
      ensures p == if ok then old(p).(nv := old(p).nv - {index}) else old(p)
    {
      ok := *;
      if ok { p := p.(nv := p.nv - {index}); }
      log := log + [NvUndefine(ok)];
    }

    method NvDefineTool(index: string, policy: Option<Policy>) returns (ok: bool)
      modifies `log, `p
      ensures log == old(log) + [NvDefine(ok)]
      ensures !ok ==> p == old(p)
      ensures ok ==> index !in old(p).nv && p == old(p).(nv := old(p).nv[index := NvSlot(policy, None)])
    {
      ok := *;
      ok := ok && index !in p.nv;
      if ok { p := p.(nv := p.nv[index := NvSlot(policy, None)]); }
      log := log + [NvDefine(ok)];
    }

    method NvWriteTool(index: string, session: Option<Policy>) returns (ok: bool)
      modifies `log, `p
      ensures log == old(log) + [NvWrite(ok)]
      ensures !ok ==> p == old(p)
      ensures ok ==> index in old(p).nv && old(p).nv[index].policy == session
                     && p == old(p).(nv := old(p).nv[index := old(p).nv[index].(key := old(p).keyFile)])
    {
      ok := *;
      ok := ok && index in p.nv && p.nv[index].policy == session;
      if ok { p := p.(nv := p.nv[index := p.nv[index].(key := p.keyFile)]); }
      log := log + [NvWrite(ok)];
    }

    method NvReadTool(index: string, session: Option<Policy>) returns (ok: bool)
      modifies `log, `p
      ensures log == old(log) + [NvRead(ok)]
      ensures !ok ==> p == old(p)
      ensures ok ==> index in old(p).nv && old(p).nv[index].policy == session && old(p).nv[index].key.Some?
                     && p == old(p).(keyFile := old(p).nv[index].key)
    {
      ok := *;
      ok := ok && index in p.nv && p.nv[index].policy == session && p.nv[index].key.Some?;
      if ok { p := p.(keyFile := p.nv[index].key); }
      log := log + [NvRead(ok)];
    }

    method RemoveKey() returns (ok: bool)
      modifies `log, `p
      ensures log == old(log) + [RemoveKeyFile(ok)]
      ensures p == if ok then old(p).(keyFile := None) else old(p)
    {
      ok := *;
      if ok { p := p.(keyFile := None); }
      log := log + [RemoveKeyFile(ok)];
    }

    /** The ext magic, or that there is none; a read error is None. */
    method IsFormattedProbe(device: string) returns (answer: Option<bool>)
      modifies `log
      ensures log == old(log) + [IsFormatted(answer)]
      ensures answer.Some? ==> answer.value == HasExtMagic(p, device)
    {
      var readable: bool := *;
      answer := if readable then Some(HasExtMagic(p, device)) else None;
      log := log + [IsFormatted(answer)];
    }

    /** The mkfs command, on the device or, for an encrypted disk, on its mapping. */
    method RunMkfs(d: Disk, kind: FsKind) returns (outcome: Outcome, ghost made: nat)
      modifies `log, `p
      ensures log == old(log) + [Mkfs(made, outcome)]
      ensures outcome.Refused? ==> p == old(p)
      ensures !outcome.Refused? ==>
                && d.device in old(p).media
                && var fs := if outcome.Performed? then Some(FileSystem(kind, made)) else None;
                   if d.encrypt.None? then p == SetMedium(old(p), d.device, Raw(fs))
                   else old(p).media[d.device].Encrypted? && p == SetMedium(old(p), d.device, old(p).media[d.device].(inner := fs))
    {
      outcome := *;
      var uuid: nat :| 0 <= uuid;
      if d.device !in p.media || (d.encrypt.Some? && !p.media[d.device].Encrypted?) { outcome := Refused; }
      if !outcome.Refused? {
        var fs := if outcome.Performed? then Some(FileSystem(kind, uuid)) else None;
        p := SetMedium(p, d.device, if d.encrypt.None? then Raw(fs) else p.media[d.device].(inner := fs));
      }
      made := uuid;
      log := log + [Mkfs(uuid, outcome)];
    }

    method MountFs(d: Disk) returns (ok: bool)
      modifies `log
      ensures log == old(log) + [Mount(ok)]
      ensures ok ==> Mountable(d, p)
    {
      ok := *;
      ok := ok && Mountable(d, p);
      log := log + [Mount(ok)];
    }

    // ---- the code ----

    /** The start of `with_policy_session`; a session that cannot be satisfied is flushed. */
    method StartPolicySession(luks: Luks, ghost phase: Phase) returns (ok: bool, session: Option<Policy>)
      requires At(phase) && Live(cfg, phase) && OfEncrypted(phase) && cfg[SlotOf(phase)].encrypt == Some(luks)
      requires phase.Unsealing? || phase.Writing?
      modifies `log, `tools
      ensures ok ==> log == old(log) && session == PolicyNow(luks, p.pcrs) && Ran(old(tools), tools, SessionTools(luks))
      ensures !ok ==> At(Give(phase)) && SessionEnded(old(tools), tools)
    {
      session := None;
      if luks.pcrs.None? { return true, None; }
      ghost var t0 := tools;
      ok := Helper(StartSession, phase);
      if !ok { return; }
      ghost var t1 := tools;
      ok, session := PolicyTool(SatisfyPolicy, luks.pcrs.value, phase);
      if ok {
        RanBoth(t0, t1, tools, [StartSession], [SatisfyPolicy]);
        assert [StartSession] + [SatisfyPolicy] == SessionTools(luks);
      } else {
        Flush();
      }
    }

    /** Its end, however the call in between went. */
    method EndPolicySession(luks: Luks)
      modifies `tools
      ensures Ran(old(tools), tools, FlushTools(luks))
      ensures luks.pcrs.Some? ==> FlushedLast(tools)
    {
      if luks.pcrs.Some? { Flush(); }
    }

    /** The policy digest of `tpm_nv_store`, from the PCRs of this boot. */
    method PolicyDigest(i: nat, luks: Luks) returns (ok: bool, policy: Option<Policy>)
      requires i < |cfg| && cfg[i].encrypt == Some(luks) && At(Defining(i))
      modifies `log, `tools
      ensures ok ==> log == old(log) && policy == PolicyNow(luks, p.pcrs) && Ran(old(tools), tools, DigestTools(luks))
      ensures !ok ==> At(Cleaning(i, true))
    {
      policy := None;
      if luks.pcrs.None? { return true, None; }
      ghost var t0 := tools;
      ok := Helper(ReadPcrs, Defining(i));
      if !ok { return; }
      ghost var t1 := tools;
      ok := Helper(TrialSession, Defining(i));
      if !ok { return; }
      RanBoth(t0, t1, tools, [ReadPcrs], [TrialSession]);
      ghost var t2 := tools;
      ok, policy := PolicyTool(TrialPolicy, luks.pcrs.value, Defining(i));
      if !ok { return; }
      RanBoth(t0, t2, tools, [ReadPcrs] + [TrialSession], [TrialPolicy]);
      ghost var t3 := tools;
      ok := Helper(FlushTrial, Defining(i));
      if !ok { return; }
      RanBoth(t0, t3, tools, [ReadPcrs] + [TrialSession] + [TrialPolicy], [FlushTrial]);
      assert [ReadPcrs] + [TrialSession] + [TrialPolicy] + [FlushTrial] == DigestTools(luks);
    }

    // One tool run each, as a step of the automaton.

    method DrawKey(i: nat) returns (ok: bool)
      requires i < |cfg| && cfg[i].encrypt.Some? && At(Keying(i))
      modifies `log, `p
      ensures At(if ok then Formatting(i) else Cleaning(i, true))
    {
      ghost var before, key := log, 0;
      ok, key := TpmGetRandom();
      RunSnoc(cfg, start, before, GetRandom(key, ok));
    }

    method WriteHeader(i: nat) returns (ok: bool)
      requires i < |cfg| && cfg[i].encrypt.Some? && At(Formatting(i))
      modifies `log, `p
      ensures At(if ok then Opening(i, true) else Cleaning(i, true))
    {
      ghost var before := log;
      ghost var found := p;
      var outcome := CryptsetupFormat(cfg[i].device);
      FormatStep(i, found, outcome);
      RunSnoc(cfg, start, before, LuksFormat(outcome));
      ok := outcome.Performed?;
    }

    lemma FormatStep(i: nat, found: Platform, outcome: Outcome)
      requires i < |cfg| && cfg[i].encrypt.Some?
      requires outcome.Refused? || (cfg[i].device in found.media && found.keyFile.Some?)
      ensures Next(cfg, State(Formatting(i), found), LuksFormat(outcome)) == Some(
                if outcome.Refused? then State(Cleaning(i, true), found)
                else if outcome.Wrecked? then State(Cleaning(i, true), SetMedium(found, cfg[i].device, Raw(None)))
                else State(Opening(i, true), SetMedium(found, cfg[i].device, Encrypted(found.keyFile.value, None))))
    {
    }

    method OpenMapping(i: nat, luks: Luks, ghost provisioning: bool) returns (ok: bool)
      requires i < |cfg| && cfg[i].encrypt == Some(luks) && At(Opening(i, provisioning))
      modifies `log, `p
      ensures At(if !ok then Cleaning(i, true) else if provisioning then Clearing(i) else Cleaning(i, false))
    {
      ghost var before := log;
      ok := CryptsetupOpen(cfg[i].device, luks.name);
      RunSnoc(cfg, start, before, LuksOpen(ok));
    }

    /** Drops an index of an earlier attempt; that there is none is ignored. */
    method ClearIndex(i: nat, luks: Luks)
      requires i < |cfg| && cfg[i].encrypt == Some(luks) && At(Clearing(i))
      modifies `log, `p
      ensures At(Defining(i))
    {
      ghost var before := log;
      var cleared := NvUndefineTool(luks.tpmNvIndex);
      RunSnoc(cfg, start, before, NvUndefine(cleared));
    }

    method DefineIndex(i: nat, luks: Luks, policy: Option<Policy>) returns (ok: bool)
      requires i < |cfg| && cfg[i].encrypt == Some(luks) && At(Defining(i)) && policy == PolicyNow(luks, p.pcrs)
      modifies `log, `p
      ensures At(if ok then Writing(i) else Cleaning(i, true))
    {
      ghost var before := log;
      ok := NvDefineTool(luks.tpmNvIndex, policy);
      RunSnoc(cfg, start, before, NvDefine(ok));
    }

    method WriteIndex(i: nat, luks: Luks, session: Option<Policy>) returns (ok: bool)
      requires i < |cfg| && cfg[i].encrypt == Some(luks) && At(Writing(i)) && session == PolicyNow(luks, p.pcrs)
      modifies `log, `p
      ensures At(if ok then MakingFs(i) else Cleaning(i, true))
    {
      ghost var before := log;
      ok := NvWriteTool(luks.tpmNvIndex, session);
      RunSnoc(cfg, start, before, NvWrite(ok));
    }

    method ReadIndex(i: nat, luks: Luks, session: Option<Policy>) returns (ok: bool)
      requires i < |cfg| && cfg[i].encrypt == Some(luks) && At(Unsealing(i)) && session == PolicyNow(luks, p.pcrs)
      modifies `log, `p
      ensures At(if ok then Opening(i, false) else Failed)
    {
      ghost var before := log;
      ok := NvReadTool(luks.tpmNvIndex, session);
      RunSnoc(cfg, start, before, NvRead(ok));
    }

    // The functions of the source.

    /** The index is defined under the digest, and written in a session that satisfies it. */
    method TpmNvStore(i: nat, luks: Luks) returns (ok: bool)
      requires i < |cfg| && cfg[i].encrypt == Some(luks) && At(Clearing(i))
      modifies this
      ensures At(if ok then MakingFs(i) else Cleaning(i, true))
      ensures ok ==> Ran(old(tools), tools, StoreTools(luks))
    {
      ClearIndex(i, luks);
      ghost var t0 := tools;
      var digest;
      ok, digest := PolicyDigest(i, luks);
      if !ok { return; }
      ok := DefineIndex(i, luks, digest);
      if !ok { return; }
      ghost var t1 := tools;
      ok := WriteInSession(i, luks);
      if ok { RanBoth(t0, t1, tools, DigestTools(luks), SessionTools(luks) + FlushTools(luks)); }
      assert DigestTools(luks) + (SessionTools(luks) + FlushTools(luks)) == StoreTools(luks);
    }

    method WriteInSession(i: nat, luks: Luks) returns (ok: bool)
      requires i < |cfg| && cfg[i].encrypt == Some(luks) && At(Writing(i))
      modifies this
      ensures At(if ok then MakingFs(i) else Cleaning(i, true))
      ensures ok ==> Ran(old(tools), tools, SessionTools(luks) + FlushTools(luks))
      ensures luks.pcrs.Some? ==> SessionEnded(old(tools), tools)
    {
      ghost var t0 := tools;
      var session;
      ok, session := StartPolicySession(luks, Writing(i));
      if !ok { return; }
      ok := WriteIndex(i, luks, session);
      ghost var t1 := tools;
      EndPolicySession(luks);
      RanBoth(t0, t1, tools, SessionTools(luks), FlushTools(luks));
    }

    method ReadInSession(i: nat, luks: Luks) returns (ok: bool)
      requires i < |cfg| && cfg[i].encrypt == Some(luks) && At(Unsealing(i))
      modifies this
      ensures At(if ok then Opening(i, false) else Failed)
      ensures ok ==> Ran(old(tools), tools, SessionTools(luks) + FlushTools(luks))
      ensures luks.pcrs.Some? ==> SessionEnded(old(tools), tools)
    {
      ghost var t0 := tools;
      var session;
      ok, session := StartPolicySession(luks, Unsealing(i));
      if !ok { return; }
      ok := ReadIndex(i, luks, session);
      ghost var t1 := tools;
      EndPolicySession(luks);
      RanBoth(t0, t1, tools, SessionTools(luks), FlushTools(luks));
    }

    method TpmNvRead(i: nat, luks: Luks) returns (ok: bool)
      requires i < |cfg| && cfg[i].encrypt == Some(luks) && At(Unsealing(i))
      modifies this
      ensures At(if ok then Opening(i, false) else Failed)
      ensures ok ==> Ran(old(tools), tools, ReadTools(luks))
    {
      ghost var t0 := tools;
      ok := ReadInSession(i, luks);
      if !ok { return; }
      ghost var t1 := tools;
      ok := Helper(PrivateKeyFile, Opening(i, false));
      if ok { RanBoth(t0, t1, tools, SessionTools(luks) + FlushTools(luks), [PrivateKeyFile]); }
    }

    /** `format_disk`, `format_target`: it fails only if there is no command, or the command, run
        once, did not go through. */
    method FormatTarget(i: nat) returns (ok: bool)
      requires i < |cfg| && At(MakingFs(i))
      modifies `log, `p
      ensures ok ==> At(if cfg[i].encrypt.Some? then Cleaning(i, false) else Mounting(i))
      ensures !ok ==> At(GiveMkfs(cfg, i))
      ensures old(log) <= log && |log| == |old(log)| + 1
      ensures if cfg[i].mkfs.None? then log[|log| - 1] == NoMkfs && !ok
              else log[|log| - 1].Mkfs? && ok == log[|log| - 1].outcome.Performed?
    {
      if cfg[i].mkfs.None? {
        NoMkfsCommand(i);
        ok := false;
      } else {
        ok := RunFormat(i, cfg[i].mkfs.value);
      }
    }

    ghost method NoMkfsCommand(i: nat)
      requires i < |cfg| && At(MakingFs(i)) && cfg[i].mkfs.None?
      modifies `log
      ensures At(GiveMkfs(cfg, i)) && log == old(log) + [NoMkfs]
    {
      NoMkfsStep(i);
      RunSnoc(cfg, start, log, NoMkfs);
      log := log + [NoMkfs];
    }

    lemma NoMkfsStep(i: nat)
      requires i < |cfg| && cfg[i].mkfs.None?
      ensures Next(cfg, State(MakingFs(i), p), NoMkfs) == Some(State(GiveMkfs(cfg, i), p))
    {
    }

    method RunFormat(i: nat, kind: FsKind) returns (ok: bool)
      requires i < |cfg| && At(MakingFs(i)) && cfg[i].mkfs == Some(kind)
      modifies `log, `p
      ensures At(if !ok then GiveMkfs(cfg, i) else if cfg[i].encrypt.Some? then Cleaning(i, false) else Mounting(i))
      ensures |log| == |old(log)| + 1 && old(log) <= log
      ensures log[|log| - 1].Mkfs? && ok == log[|log| - 1].outcome.Performed?
    {
      ghost var before, found := log, p;
      var outcome;
      ghost var made;
      outcome, made := RunMkfs(cfg[i], kind);
      MkfsStep(i, found, kind, made, outcome);
      RunSnoc(cfg, start, before, Mkfs(made, outcome));
      ok := outcome.Performed?;
    }

    lemma MkfsStep(i: nat, found: Platform, kind: FsKind, made: nat, outcome: Outcome)
      requires i < |cfg| && cfg[i].mkfs == Some(kind)
      requires outcome.Refused? || (cfg[i].device in found.media && (cfg[i].encrypt.Some? ==> found.media[cfg[i].device].Encrypted?))
      ensures var device, fs := cfg[i].device, if outcome.Performed? then Some(FileSystem(kind, made)) else None;
              Next(cfg, State(MakingFs(i), found), Mkfs(made, outcome)) == Some(
                if outcome.Refused? then State(GiveMkfs(cfg, i), found)
                else if cfg[i].encrypt.None? then State(if fs.Some? then Mounting(i) else Failed, SetMedium(found, device, Raw(fs)))
                else State(Cleaning(i, fs.None?), SetMedium(found, device, found.media[device].(inner := fs))))
    {
    }

    /** The key, private, and a header and a mapping with it. */
    method NewVolume(i: nat, luks: Luks) returns (ok: bool)
      requires i < |cfg| && cfg[i].encrypt == Some(luks) && At(Keying(i))
      modifies this
      ensures At(if ok then Clearing(i) else Cleaning(i, true))
      ensures ok ==> Ran(old(tools), tools, [PrivateKeyFile])
    {
      ok := DrawKey(i);
      if !ok { return; }
      ok := Helper(PrivateKeyFile, Formatting(i));
      if !ok { return; }
      ok := WriteHeader(i);
      if !ok { return; }
      ok := OpenMapping(i, luks, true);
    }

    /** The first-boot closure of `open_encrypted`. */
    method Provision(i: nat, luks: Luks) returns (ok: bool)
      requires i < |cfg| && cfg[i].encrypt == Some(luks) && At(Keying(i))
      modifies this
      ensures At(Cleaning(i, !ok))
      ensures ok ==> Ran(old(tools), tools, [PrivateKeyFile] + StoreTools(luks))
    {
      ghost var t0 := tools;
      ok := NewVolume(i, luks);
      if !ok { return; }
      ghost var t1 := tools;
      ok := TpmNvStore(i, luks);
      if !ok { return; }
      RanBoth(t0, t1, tools, [PrivateKeyFile], StoreTools(luks));
      ok := FormatTarget(i);
    }

    method Unlock(i: nat, luks: Luks) returns (ok: bool)
      requires i < |cfg| && cfg[i].encrypt == Some(luks) && At(Unsealing(i))
      modifies this
      ensures At(if ok then Mounting(i) else Failed)
      ensures ok ==> Ran(old(tools), tools, ReadTools(luks))
    {
      ok := TpmNvRead(i, luks);
      if !ok { return; }
      ok := OpenMapping(i, luks, false);
      CleanUp(i, !ok);
    }

    /** Removes the key file; that it may stay is ignored. */
    method CleanUp(i: nat, failed: bool)
      requires i < |cfg| && cfg[i].encrypt.Some? && At(Cleaning(i, failed))
      modifies `log, `p
      ensures At(if failed then Failed else Mounting(i))
    {
      ghost var before := log;
      ghost var found := p;
      var removed := RemoveKey();
      CleanStep(i, found, failed, removed);
      RunSnoc(cfg, start, before, RemoveKeyFile(removed));
    }

    lemma CleanStep(i: nat, found: Platform, failed: bool, removed: bool)
      requires i < |cfg| && cfg[i].encrypt.Some?
      ensures Next(cfg, State(Cleaning(i, failed), found), RemoveKeyFile(removed))
           == Some(State(if failed then Failed else Mounting(i), if removed then found.(keyFile := None) else found))
    {
    }

    method LookForHeader(i: nat) returns (isLuks: Option<bool>)
      requires i < |cfg| && cfg[i].encrypt.Some? && At(Deciding(i))
      modifies `log
      ensures At(if isLuks.None? then Failed else AfterIsLuks(cfg[i], i, isLuks.value))
    {
      ghost var before := log;
      isLuks := CryptsetupIsLuks(cfg[i].device);
      RunSnoc(cfg, start, before, IsLuks(isLuks));
    }

    /** By the header alone: unlock, provision, or give up. */
    method UnlockOrProvision(i: nat, luks: Luks, header: bool) returns (ok: bool)
      requires i < |cfg| && cfg[i].encrypt == Some(luks) && At(AfterIsLuks(cfg[i], i, header))
      modifies this
      ensures At(if ok then Mounting(i) else Failed)
      ensures ok ==> Ran(old(tools), tools, if header then ReadTools(luks) else [PrivateKeyFile] + StoreTools(luks))
    {
      if header {
        ok := Unlock(i, luks);
      } else if cfg[i].formatIfEmpty {
        ok := Provision(i, luks);
        CleanUp(i, !ok);
      } else {
        ok := false;
      }
    }

    /** `open_encrypted` */
    method OpenEncrypted(i: nat, luks: Luks) returns (ok: bool)
      requires i < |cfg| && cfg[i].encrypt == Some(luks) && At(Deciding(i)) && start == PowerOn(cfg, start.p)
      modifies this
      ensures At(if ok then Mounting(i) else Failed)
      ensures ok ==> exists header :: Ran(old(tools), tools, OpenTools(luks, header))
      ensures ok <==> !ToGiveUp(cfg, start, log)
    {
      ghost var t0 := tools;
      ok := Helper(DmControl, Deciding(i));
      if ok {
        ghost var t1 := tools;
        var isLuks := LookForHeader(i);
        ok := false;
        if isLuks.Some? {
          ok := UnlockOrProvision(i, luks, isLuks.value);
          if ok {
            RanBoth(t0, t1, tools, [DmControl], if isLuks.value then ReadTools(luks) else [PrivateKeyFile] + StoreTools(luks));
            assert Ran(t0, tools, OpenTools(luks, isLuks.value));
          }
        }
      }
      WhyGivenUp(if ok then Mounting(i) else Failed);
    }

    lemma WhyGivenUp(phase: Phase)
      requires At(phase) && start == PowerOn(cfg, start.p)
      ensures GivenUp(phase) <==> ToGiveUp(cfg, start, log)
    {
      GivenUpExactly(cfg, start, log);
    }

    method PreparePlain(i: nat) returns (ok: bool)
      requires i < |cfg| && cfg[i].encrypt.None? && At(Enter(cfg, i))
      modifies `log, `p
      ensures At(if ok then Mounting(i) else Failed)
    {
      ok := true;
      if cfg[i].formatIfEmpty {
        ghost var before := log;
        var formatted := IsFormattedProbe(cfg[i].device);
        RunSnoc(cfg, start, before, IsFormatted(formatted));
        if formatted.None? { return false; }
        if !formatted.value {
          ok := FormatTarget(i);
        }
      }
    }

    method MountDisk(i: nat) returns (ok: bool)
      requires i < |cfg| && At(Mounting(i))
      modifies `log, `tools
      ensures At(if ok then Enter(cfg, i + 1) else Failed)
      ensures ok ==> Ran(old(tools), tools, [MountPoint, MountFlags])
    {
      ghost var t0 := tools;
      ok := Helper(MountPoint, Mounting(i));
      if !ok { return; }
      ghost var t1 := tools;
      ok := Helper(MountFlags, Mounting(i));
      if !ok { return; }
      RanBoth(t0, t1, tools, [MountPoint], [MountFlags]);
      assert [MountPoint] + [MountFlags] == [MountPoint, MountFlags];
      ghost var before := log;
      ok := MountFs(cfg[i]);
      MountStep(i, ok);
      RunSnoc(cfg, start, before, Mount(ok));
    }

    lemma MountStep(i: nat, ok: bool)
      requires i < |cfg| && (ok ==> Mountable(cfg[i], p))
      ensures Next(cfg, State(Mounting(i), p), Mount(ok)) == Some(State(if ok then Enter(cfg, i + 1) else Failed, p))
    {
    }

    /** The turn of one disk. */
    method SetUpDisk(i: nat) returns (ok: bool)
      requires i < |cfg| && At(Enter(cfg, i)) && start == PowerOn(cfg, start.p)
      modifies this
      ensures At(if ok then Enter(cfg, i + 1) else Failed)
      ensures ok ==> RanTurn(cfg[i], old(tools), tools)
    {
      ghost var t0 := tools;
      if cfg[i].encrypt.Some? {
        var luks := cfg[i].encrypt.value;
        ok := OpenEncrypted(i, luks);
        if !ok { return; }
        ghost var t1 := tools;
        ghost var header :| Ran(t0, t1, OpenTools(luks, header));
        ok := MountDisk(i);
        if ok { RanBoth(t0, t1, tools, OpenTools(luks, header), [MountPoint, MountFlags]); }
      } else {
        ok := PreparePlain(i);
        if ok { ok := MountDisk(i); }
      }
    }

    /** `apply_disks`: every disk in turn, and an end at the first failure. It returns Ok exactly
        when nothing gave it a reason not to; with usable disks that takes a refusal. When it
        returns Ok every encrypted disk is open, under its own key, which is sealed to the
        PCRs of this boot. */
    method ApplyDisks() returns (ok: bool)
      requires At(Enter(cfg, 0)) && start == PowerOn(cfg, start.p)
      modifies this
      ensures At(if ok then AllMounted else Failed)
      ensures ok && Distinct(cfg) ==> AllSealed(cfg, p, p.pcrs) && forall i | 0 <= i < |cfg| :: Mapped(cfg[i], p)
      ensures ok <==> !ToGiveUp(cfg, start, log)
      ensures AllUsable(cfg, start.p) && Truthful(cfg, start, log) ==> (ok <==> !AnyFault(log))
      ensures ok ==> RanTurns(cfg, old(tools), tools)
    {
      ok := SetUpDisks();
      WhyGivenUp(if ok then AllMounted else Failed);
      UsableNeedsRefusal(if ok then AllMounted else Failed);
      if ok { MountedMeansSealed(); }
    }

    method SetUpDisks() returns (ok: bool)
      requires At(Enter(cfg, 0)) && start == PowerOn(cfg, start.p)
      modifies this
      ensures At(if ok then AllMounted else Failed)
      ensures ok ==> RanTurns(cfg, old(tools), tools)
    {
      ok := true;
      for i := 0 to |cfg|
        invariant At(Enter(cfg, i)) && ok
        invariant RanTurns(cfg[..i], old(tools), tools)
      {
        ghost var before := tools;
        ok := SetUpDisk(i);
        if !ok { return; }
        OneMoreTurn(cfg[..i], cfg[i], old(tools), before, tools);
        assert cfg[..i] + [cfg[i]] == cfg[..i + 1];
      }
      assert cfg[..|cfg|] == cfg;
    }

    lemma UsableNeedsRefusal(phase: Phase)
      requires At(phase) && start == PowerOn(cfg, start.p)
      ensures AllUsable(cfg, start.p) && Truthful(cfg, start, log) ==> (GivenUp(phase) <==> AnyFault(log))
    {
      if AllUsable(cfg, start.p) && Truthful(cfg, start, log) {
        PowerOnIsReady(cfg, start);
        UsableGivesUpExactly(cfg, start, log);
      }
    }

    lemma MountedMeansSealed()
      requires start == PowerOn(cfg, start.p) && At(AllMounted)
      ensures Distinct(cfg) ==> AllSealed(cfg, p, p.pcrs) && forall i | 0 <= i < |cfg| :: Mapped(cfg[i], p)
    {
      if Distinct(cfg) {
        DoneMeansSealed(cfg, start.p, log, State(AllMounted, p));
      }
    }
  }

  ghost predicate AllUsable(cfg: seq<Disk>, p: Platform) {
    Distinct(cfg) && forall i | 0 <= i < |cfg| :: Usable(cfg[i], p)
  }
}
