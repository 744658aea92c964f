/** Encrypted and plain disks over any number of boots: which tool calls `apply_disks` makes
    on which observations, and what they do to LUKS headers, TPM indices and file systems.

    A log is accepted when the code, from power-on, can produce it. Power may fail anywhere. */
module Disks {
  import opened Storage

  datatype FsKind = Ext | OtherFs

  /** A file system, told apart by the `mkfs` that made it. */
  datatype FileSystem = FileSystem(kind: FsKind, made: nat)

  datatype Luks = Luks(name: string, tpmNvIndex: string, pcrs: Option<string>)

  /** `mkfs` is None when no command is configured, and else what the command makes. */
  datatype Disk = Disk(device: string, formatIfEmpty: bool, mkfs: Option<FsKind>, encrypt: Option<Luks>)

  /** What a block device carries. */
  datatype Medium = Raw(fs: Option<FileSystem>) | Encrypted(key: nat, inner: Option<FileSystem>)

  /** A PCR policy is a selection with the values it was computed from. */
  datatype Policy = Policy(selection: string, values: nat)

  datatype NvSlot = NvSlot(policy: Option<Policy>, key: Option<nat>)

  /** `media` and `nv` outlive a power loss; PCRs are measured anew; mappings and the key file
      on tmpfs are gone. */
  datatype Platform = Platform(
    media: map<string, Medium>,
    nv: map<string, NvSlot>,
    pcrs: map<string, nat>,
    mapped: map<string, string>,
    keyFile: Option<nat>)

  /** What is run besides the calls above: nothing stays of it but that it may fail. */
  datatype Tool =
    | DmControl                                            // /dev/mapper/control
    | PrivateKeyFile                                       // chmod 600
    | ReadPcrs | TrialSession | TrialPolicy | FlushTrial   // the policy digest of a new index
    | StartSession | SatisfyPolicy | FlushSession          // a session under that policy
    | MountPoint | MountFlags

  datatype Outcome = Performed | Refused | Wrecked   // a refused format may have spoilt the medium

  datatype Obs =
    | IsLuks(answer: Option<bool>)
    | NvRead(ok: bool)
    | LuksOpen(ok: bool)
    | GetRandom(key: nat, ok: bool)
    | LuksFormat(outcome: Outcome)
    | NvUndefine(ok: bool)
    | NvDefine(ok: bool)
    | NvWrite(ok: bool)
    | IsFormatted(answer: Option<bool>)
    | Mkfs(made: nat, outcome: Outcome)
    | RemoveKeyFile(ok: bool)
    | Mount(ok: bool)
    | HelperFailed(tool: Tool)
    | NoMkfs                             // a format is called for, and no command is configured
    | PowerCycle(pcrs: map<string, nat>)

  datatype Phase =
    | Deciding(i: nat)                   // isLuks
    | Unsealing(i: nat)
    | Opening(i: nat, provisioning: bool)
    | Keying(i: nat)
    | Formatting(i: nat)
    | Clearing(i: nat)                   // tpm_nv_store: drop an old index
    | Defining(i: nat)
    | Writing(i: nat)
    | MakingFs(i: nat)
    | Cleaning(i: nat, failed: bool)     // remove the key file
    | Checking(i: nat)                   // plain disk: is_formatted
    | Mounting(i: nat)
    | AllMounted
    | Failed

  datatype State = State(phase: Phase, p: Platform)

  function Enter(cfg: seq<Disk>, i: nat): Phase {
    if i >= |cfg| then AllMounted
    else if cfg[i].encrypt.Some? then Deciding(i)
    else if cfg[i].formatIfEmpty then Checking(i)
    else Mounting(i)
  }

  function Pcr(pcrs: map<string, nat>, selection: string): nat {
    if selection in pcrs then pcrs[selection] else 0
  }

  /** The policy a disk's key is bound to under these PCRs; None: owner authorization. */
  function PolicyNow(luks: Luks, pcrs: map<string, nat>): Option<Policy> {
    match luks.pcrs
    case None => None
    case Some(selection) => Some(Policy(selection, Pcr(pcrs, selection)))
  }

  /** The TPM releases the key of an index only to the policy it was defined with. */
  predicate Released(luks: Luks, p: Platform) {
    && luks.tpmNvIndex in p.nv
    && p.nv[luks.tpmNvIndex].policy == PolicyNow(luks, p.pcrs)
    && p.nv[luks.tpmNvIndex].key.Some?
  }

  predicate HasHeader(p: Platform, device: string) {
    device in p.media && p.media[device].Encrypted?
  }

  /** ext2/3/4 magic on the device itself. */
  predicate HasExtMagic(p: Platform, device: string) {
    device in p.media && p.media[device].Raw? && p.media[device].fs.Some? && p.media[device].fs.value.kind.Ext?
  }

  predicate KeyFits(p: Platform, device: string) {
    HasHeader(p, device) && p.keyFile == Some(p.media[device].key)
  }

  /** There is a file system to mount: on the device, or behind the mapping. */
  predicate Mountable(d: Disk, p: Platform) {
    match d.encrypt
    case None => d.device in p.media && p.media[d.device].Raw? && p.media[d.device].fs.Some?
    case Some(luks) =>
      && luks.name in p.mapped && p.mapped[luks.name] == d.device
      && HasHeader(p, d.device) && p.media[d.device].inner.Some?
  }

  function SetMedium(p: Platform, device: string, m: Medium): Platform {
    p.(media := p.media[device := m])
  }

  /** Where the code runs which of them, and stops if it fails. */
  predicate NeedsTool(cfg: seq<Disk>, phase: Phase, tool: Tool)
    requires Live(cfg, phase)
  {
    var bound := cfg[SlotOf(phase)].encrypt.Some? && cfg[SlotOf(phase)].encrypt.value.pcrs.Some?;
    match phase
    case Deciding(_) => tool.DmControl?
    case Formatting(_) => tool.PrivateKeyFile?
    case Opening(_, provisioning) => !provisioning && tool.PrivateKeyFile?
    case Unsealing(_) => bound && (tool.StartSession? || tool.SatisfyPolicy?)
    case Defining(_) => bound && (tool.ReadPcrs? || tool.TrialSession? || tool.TrialPolicy? || tool.FlushTrial?)
    case Writing(_) => bound && (tool.StartSession? || tool.SatisfyPolicy?)
    case Mounting(_) => tool.MountPoint? || tool.MountFlags?
    case _ => false
  }

  /** What a failed step of the first-boot closure, or of anything else, leads to. */
  function Give(phase: Phase): Phase {
    match phase
    case Formatting(i) => Cleaning(i, true)
    case Defining(i) => Cleaning(i, true)
    case Writing(i) => Cleaning(i, true)
    case _ => Failed
  }

  function GiveMkfs(cfg: seq<Disk>, i: nat): Phase {
    if i < |cfg| && cfg[i].encrypt.Some? then Cleaning(i, true) else Failed
  }

  function SlotOf(phase: Phase): nat {
    match phase
    case AllMounted => 0
    case Failed => 0
    case _ => phase.i
  }

  predicate Live(cfg: seq<Disk>, phase: Phase) {
    !phase.AllMounted? && !phase.Failed? && SlotOf(phase) < |cfg|
  }

  predicate OfEncrypted(phase: Phase) {
    !phase.MakingFs? && !phase.Checking? && !phase.Mounting?
  }

  /** The state after `e`, or None if the code or the platform does not do `e` there. */
  function Next(cfg: seq<Disk>, s: State, e: Obs): Option<State> {
    if e.PowerCycle? then
      Some(State(Enter(cfg, 0), Platform(s.p.media, s.p.nv, e.pcrs, map[], None)))
    else if !Live(cfg, s.phase) then None
    else if cfg[SlotOf(s.phase)].encrypt.None? && OfEncrypted(s.phase) then None
    else if e.HelperFailed? then
      if NeedsTool(cfg, s.phase, e.tool) then Some(s.(phase := Give(s.phase))) else None
    else if OfEncrypted(s.phase) then NextEncrypted(cfg, s, e, cfg[SlotOf(s.phase)], cfg[SlotOf(s.phase)].encrypt.value)
    else NextFs(cfg, s, e, cfg[SlotOf(s.phase)])
  }

  /** Any exit status of `isLuks` but success counts as "no header"; and `isLuks` may also fail
      on a device that has one. */
  function AfterIsLuks(disk: Disk, i: nat, success: bool): Phase {
    if success then Unsealing(i) else if disk.formatIfEmpty then Keying(i) else Failed
  }

  /** `open_encrypted` and `tpm_nv_store`. */
  function NextEncrypted(cfg: seq<Disk>, s: State, e: Obs, disk: Disk, luks: Luks): Option<State> {
    var p := s.p;
    match s.phase
    case Deciding(i) =>
      if !e.IsLuks? then None
      else if e.answer.None? then Some(s.(phase := Failed))
      else if e.answer.value && !HasHeader(p, disk.device) then None
      else Some(s.(phase := AfterIsLuks(disk, i, e.answer.value)))
    case Unsealing(i) =>
      if !e.NvRead? || (e.ok && !Released(luks, p)) then None
      else if !e.ok then Some(s.(phase := Failed))
      else Some(State(Opening(i, false), p.(keyFile := p.nv[luks.tpmNvIndex].key)))
    case Opening(i, provisioning) =>
      if !e.LuksOpen? || (e.ok && !KeyFits(p, disk.device)) then None
      else if !e.ok then Some(s.(phase := Cleaning(i, true)))
      else Some(State(if provisioning then Clearing(i) else Cleaning(i, false), p.(mapped := p.mapped[luks.name := disk.device])))
    case Keying(i) =>
      if !e.GetRandom? then None
      else if !e.ok then Some(s.(phase := Cleaning(i, true)))
      else Some(State(Formatting(i), p.(keyFile := Some(e.key))))
    case Formatting(i) =>
      if !e.LuksFormat? then None
      else if e.outcome.Refused? then Some(s.(phase := Cleaning(i, true)))
      else if disk.device !in p.media || p.keyFile.None? then None
      else if e.outcome.Wrecked? then Some(State(Cleaning(i, true), SetMedium(p, disk.device, Raw(None))))
      else Some(State(Opening(i, true), SetMedium(p, disk.device, Encrypted(p.keyFile.value, None))))
    case Clearing(i) =>
      if !e.NvUndefine? then None
      else Some(State(Defining(i), if e.ok then p.(nv := p.nv - {luks.tpmNvIndex}) else p))
    case Defining(i) =>
      if !e.NvDefine? || (e.ok && luks.tpmNvIndex in p.nv) then None
      else if !e.ok then Some(s.(phase := Cleaning(i, true)))
      else Some(State(Writing(i), p.(nv := p.nv[luks.tpmNvIndex := NvSlot(PolicyNow(luks, p.pcrs), None)])))
    case Writing(i) =>
      if !e.NvWrite? || (e.ok && (luks.tpmNvIndex !in p.nv || p.nv[luks.tpmNvIndex].policy != PolicyNow(luks, p.pcrs))) then None
      else if !e.ok then Some(s.(phase := Cleaning(i, true)))
      else Some(State(MakingFs(i), p.(nv := p.nv[luks.tpmNvIndex := p.nv[luks.tpmNvIndex].(key := p.keyFile)])))
    case Cleaning(i, failed) =>
      if !e.RemoveKeyFile? then None
      else Some(State(if failed then Failed else Mounting(i), if e.ok then p.(keyFile := None) else p))
    case _ => None
  }

  /** `is_formatted`, `format_disk`, `format_target` and the mount. */
  function NextFs(cfg: seq<Disk>, s: State, e: Obs, disk: Disk): Option<State> {
    var p := s.p;
    match s.phase
    case Checking(i) =>
      if !e.IsFormatted? then None
      else if e.answer.None? then Some(s.(phase := Failed))
      else if e.answer.value != HasExtMagic(p, disk.device) then None
      else Some(s.(phase := if e.answer.value then Mounting(i) else MakingFs(i)))
    case MakingFs(i) =>
      if e.NoMkfs? then if disk.mkfs.None? then Some(s.(phase := GiveMkfs(cfg, i))) else None
      else if !e.Mkfs? then None
      else if e.outcome.Refused? then Some(s.(phase := GiveMkfs(cfg, i)))
      else if disk.device !in p.media || disk.mkfs.None? then None
      else
        var made := if e.outcome.Performed? then Some(FileSystem(disk.mkfs.value, e.made)) else None;
        if disk.encrypt.None? then
          Some(State(if made.Some? then Mounting(i) else Failed, SetMedium(p, disk.device, Raw(made))))
        else if p.media[disk.device].Encrypted? then
          Some(State(Cleaning(i, made.None?), SetMedium(p, disk.device, p.media[disk.device].(inner := made))))
        else None
    case Mounting(i) =>
      if !e.Mount? || (e.ok && !Mountable(disk, p)) then None
      else Some(s.(phase := if e.ok then Enter(cfg, i + 1) else Failed))
    case _ => None
  }

  function Run(cfg: seq<Disk>, s: State, log: seq<Obs>): Option<State> {
    if log == [] then Some(s)
    else
      var before := Run(cfg, s, log[..|log| - 1]);
      if before.None? then None else Next(cfg, before.value, log[|log| - 1])
  }

  /** Power-on with these media, indices and PCRs. */
  function PowerOn(cfg: seq<Disk>, p: Platform): State {
    State(Enter(cfg, 0), p.(mapped := map[], keyFile := None))
  }

  lemma RunSnoc(cfg: seq<Disk>, s: State, log: seq<Obs>, e: Obs)
    requires Run(cfg, s, log).Some?
    ensures Run(cfg, s, log + [e]) == Next(cfg, Run(cfg, s, log).value, e)
  {
    assert (log + [e])[..|log|] == log;
  }

  lemma {:induction false} RunConcat(cfg: seq<Disk>, s: State, a: seq<Obs>, b: seq<Obs>)
    requires Run(cfg, s, a).Some?
    ensures Run(cfg, s, a + b) == Run(cfg, Run(cfg, s, a).value, b)
    decreases |b|
  {
    if b == [] {
      assert a + b == a;
    } else {
      var c := b[..|b| - 1];
      assert (a + b)[..|a + b| - 1] == a + c;
      RunConcat(cfg, s, a, c);
    }
  }

  /** What the configuration must keep apart. */
  ghost predicate Distinct(cfg: seq<Disk>) {
    forall i, j | 0 <= i < |cfg| && 0 <= j < |cfg| && i != j ::
      && cfg[i].device != cfg[j].device
      && (cfg[i].encrypt.Some? && cfg[j].encrypt.Some? ==>
            cfg[i].encrypt.value.name != cfg[j].encrypt.value.name
            && cfg[i].encrypt.value.tpmNvIndex != cfg[j].encrypt.value.tpmNvIndex)
  }

  /** `isLuks` failed on a device that has a header. */
  predicate Misled(cfg: seq<Disk>, s: State, e: Obs) {
    && s.phase.Deciding? && s.phase.i < |cfg|
    && e == IsLuks(Some(false)) && HasHeader(s.p, cfg[s.phase.i].device)
  }

  /** It never did in this log. */
  predicate Truthful(cfg: seq<Disk>, s: State, log: seq<Obs>) {
    log == [] ||
    var before := log[..|log| - 1];
    Truthful(cfg, s, before) && (Run(cfg, s, before).Some? ==> !Misled(cfg, Run(cfg, s, before).value, log[|log| - 1]))
  }

  lemma {:induction false} TruthfulConcat(cfg: seq<Disk>, s: State, a: seq<Obs>, b: seq<Obs>)
    requires Run(cfg, s, a).Some?
    ensures Truthful(cfg, s, a + b) <==> Truthful(cfg, s, a) && Truthful(cfg, Run(cfg, s, a).value, b)
    decreases |b|
  {
    if b == [] {
      assert a + b == a;
    } else {
      var c := b[..|b| - 1];
      assert (a + b)[..|a + b| - 1] == a + c;
      TruthfulConcat(cfg, s, a, c);
      RunConcat(cfg, s, a, c);
    }
  }

  lemma {:induction false} PrefixRuns(cfg: seq<Disk>, s: State, log: seq<Obs>, u: nat)
    requires Run(cfg, s, log).Some? && u <= |log|
    ensures Run(cfg, s, log[..u]).Some?
    ensures u < |log| ==> Run(cfg, s, log[..u + 1]) == Next(cfg, Run(cfg, s, log[..u]).value, log[u])
  {
    if u == |log| {
      assert log[..u] == log;
    } else {
      var before := log[..|log| - 1];
      if u < |before| {
        PrefixRuns(cfg, s, before, u);
        assert before[..u] == log[..u] && before[..u + 1] == log[..u + 1];
      } else {
        assert before == log[..u] && log[..u + 1] == log;
      }
    }
  }

  lemma OneStep(cfg: seq<Disk>, s: State, e: Obs)
    requires Next(cfg, s, e).Some?
    ensures Run(cfg, s, [e]) == Next(cfg, s, e)
    ensures Truthful(cfg, s, [e]) <==> !Misled(cfg, s, e)
  {
    assert [e][..|[e]| - 1] == [];
    assert Run(cfg, s, []) == Some(s) && Truthful(cfg, s, []);
  }

  lemma RunCons(cfg: seq<Disk>, s: State, e: Obs, rest: seq<Obs>)
    requires Next(cfg, s, e).Some?
    ensures Run(cfg, s, [e] + rest) == Run(cfg, Next(cfg, s, e).value, rest)
    ensures Truthful(cfg, s, [e] + rest) <==> !Misled(cfg, s, e) && Truthful(cfg, Next(cfg, s, e).value, rest)
  {
    OneStep(cfg, s, e);
    RunConcat(cfg, s, [e], rest);
    TruthfulConcat(cfg, s, [e], rest);
  }

  // ---- giving up ----

  predicate GivenUp(phase: Phase) {
    phase.Failed? || (phase.Cleaning? && phase.failed)
  }

  /** The observation reports a refusal that the code does not ignore. */
  predicate IsFault(e: Obs) {
    match e
    case IsLuks(answer) => answer.None?
    case IsFormatted(answer) => answer.None?
    case NvRead(ok) => !ok
    case LuksOpen(ok) => !ok
    case GetRandom(_, ok) => !ok
    case LuksFormat(outcome) => !outcome.Performed?
    case NvDefine(ok) => !ok
    case NvWrite(ok) => !ok
    case Mount(ok) => !ok
    case Mkfs(_, outcome) => !outcome.Performed?
    case HelperFailed(_) => true
    case _ => false
  }

  /** Why a boot is given up: a refusal, or the configuration does not provide for what was found. */
  predicate GivesUp(cfg: seq<Disk>, s: State, e: Obs) {
    || IsFault(e) || e.NoMkfs?
    || (e == IsLuks(Some(false)) && s.phase.Deciding? && s.phase.i < |cfg| && !cfg[s.phase.i].formatIfEmpty)
  }

  predicate GivesUpAt(cfg: seq<Disk>, s: State, log: seq<Obs>, u: nat) {
    u < |log| && Run(cfg, s, log[..u]).Some? && GivesUp(cfg, Run(cfg, s, log[..u]).value, log[u])
  }

  /** Somewhere in the log there was such a reason. */
  ghost predicate ToGiveUp(cfg: seq<Disk>, s: State, log: seq<Obs>) {
    exists u: nat :: GivesUpAt(cfg, s, log, u)
  }

  lemma GivesUpStep(cfg: seq<Disk>, s: State, e: Obs)
    requires Next(cfg, s, e).Some? && !e.PowerCycle?
    ensures GivenUp(Next(cfg, s, e).value.phase) <==> GivenUp(s.phase) || GivesUp(cfg, s, e)
  {
  }

  lemma ToGiveUpSnoc(cfg: seq<Disk>, s: State, log: seq<Obs>, e: Obs)
    requires Run(cfg, s, log).Some?
    ensures ToGiveUp(cfg, s, log + [e]) <==> ToGiveUp(cfg, s, log) || GivesUp(cfg, Run(cfg, s, log).value, e)
  {
    var all, n := log + [e], |log|;
    assert all[..n] == log;
    assert GivesUpAt(cfg, s, all, n) <==> GivesUp(cfg, Run(cfg, s, log).value, e);
    forall u: nat | u < n ensures GivesUpAt(cfg, s, all, u) <==> GivesUpAt(cfg, s, log, u) {
      assert all[..u] == log[..u] && all[u] == log[u];
    }
  }

  /** Within a boot it is given up exactly when there was such a reason; so when all disks are
      mounted there was none. */
  lemma {:induction false} GivenUpExactly(cfg: seq<Disk>, s: State, log: seq<Obs>)
    requires Run(cfg, s, log).Some? && !GivenUp(s.phase) && PowerCycleFree(log)
    ensures GivenUp(Run(cfg, s, log).value.phase) <==> ToGiveUp(cfg, s, log)
    decreases |log|
  {
    if log != [] {
      var before, e := log[..|log| - 1], log[|log| - 1];
      assert e in log && before + [e] == log && forall x | x in before :: x in log;
      GivenUpExactly(cfg, s, before);
      ToGiveUpSnoc(cfg, s, before, e);
      GivesUpStep(cfg, Run(cfg, s, before).value, e);
    }
  }

  ghost predicate PowerCycleFree(log: seq<Obs>) {
    forall e | e in log :: !e.PowerCycle?
  }

  // ---- what each phase knows ----

  predicate Provisioning(cfg: seq<Disk>, phase: Phase) {
    phase.Clearing? || phase.Defining? || phase.Writing?
    || (phase.Opening? && phase.provisioning)
    || (phase.MakingFs? && phase.i < |cfg| && cfg[phase.i].encrypt.Some?)
  }

  ghost predicate PhaseInv(cfg: seq<Disk>, s: State) {
    var p := s.p;
    Live(cfg, s.phase) ==>
      var disk := cfg[SlotOf(s.phase)];
      && (OfEncrypted(s.phase) ==> disk.encrypt.Some?)
      && (s.phase.Checking? ==> disk.encrypt.None? && disk.formatIfEmpty)
      && (s.phase.Keying? || s.phase.Formatting? || s.phase.MakingFs? || Provisioning(cfg, s.phase) ==> disk.formatIfEmpty)
      && (s.phase.Formatting? ==> p.keyFile.Some?)
      && (Provisioning(cfg, s.phase) ==> KeyFits(p, disk.device) && p.media[disk.device].inner.None?)
      && (s.phase.MakingFs? && disk.encrypt.None? ==> !HasExtMagic(p, disk.device))
  }

  lemma PhaseInvOpening(cfg: seq<Disk>, s: State, e: Obs)
    requires PhaseInv(cfg, s) && Next(cfg, s, e).Some?
    requires !e.PowerCycle? && OfEncrypted(s.phase)
    ensures PhaseInv(cfg, Next(cfg, s, e).value)
  {
  }

  lemma PhaseInvStep(cfg: seq<Disk>, s: State, e: Obs)
    requires PhaseInv(cfg, s) && Next(cfg, s, e).Some?
    ensures PhaseInv(cfg, Next(cfg, s, e).value)
  {
    if !e.PowerCycle? && OfEncrypted(s.phase) {
      PhaseInvOpening(cfg, s, e);
    }
  }

  lemma {:induction false} PhaseInvHolds(cfg: seq<Disk>, s: State, log: seq<Obs>)
    requires PhaseInv(cfg, s) && Run(cfg, s, log).Some?
    ensures PhaseInv(cfg, Run(cfg, s, log).value)
    decreases |log|
  {
    if log != [] {
      PhaseInvHolds(cfg, s, log[..|log| - 1]);
      PhaseInvStep(cfg, Run(cfg, s, log[..|log| - 1]).value, log[|log| - 1]);
    }
  }

  /** A disk is keyed or formatted only while it has no header. */
  ghost predicate LookedFirst(cfg: seq<Disk>, s: State) {
    (s.phase.Keying? || s.phase.Formatting?) && s.phase.i < |cfg| ==> !HasHeader(s.p, cfg[s.phase.i].device)
  }

  lemma LooksFirstStep(cfg: seq<Disk>, s: State, e: Obs)
    requires LookedFirst(cfg, s) && Next(cfg, s, e).Some? && !Misled(cfg, s, e)
    ensures LookedFirst(cfg, Next(cfg, s, e).value)
  {
  }

  lemma {:induction false} TruthfulLooksFirst(cfg: seq<Disk>, s: State, log: seq<Obs>)
    requires LookedFirst(cfg, s) && Run(cfg, s, log).Some? && Truthful(cfg, s, log)
    ensures LookedFirst(cfg, Run(cfg, s, log).value)
    decreases |log|
  {
    if log != [] {
      TruthfulLooksFirst(cfg, s, log[..|log| - 1]);
      LooksFirstStep(cfg, Run(cfg, s, log[..|log| - 1]).value, log[|log| - 1]);
    }
  }

  /** A step for one disk leaves the media, index and mapping of every other disk alone. */
  lemma OthersUnmoved(cfg: seq<Disk>, s: State, e: Obs, j: nat)
    requires Distinct(cfg) && Next(cfg, s, e).Some? && !e.PowerCycle?
    requires j < |cfg| && j != SlotOf(s.phase)
    ensures var p, q, d := s.p, Next(cfg, s, e).value.p, cfg[j];
            && (d.device in p.media <==> d.device in q.media)
            && (d.device in p.media ==> q.media[d.device] == p.media[d.device])
            && (d.encrypt.Some? ==>
                  var index, name := d.encrypt.value.tpmNvIndex, d.encrypt.value.name;
                  && (index in p.nv <==> index in q.nv) && (index in p.nv ==> q.nv[index] == p.nv[index])
                  && (name in p.mapped <==> name in q.mapped) && (name in p.mapped ==> q.mapped[name] == p.mapped[name]))
            && q.pcrs == p.pcrs
  {
    assert Live(cfg, s.phase);
    assert cfg[SlotOf(s.phase)].device != cfg[j].device;
  }
}
