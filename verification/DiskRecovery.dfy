/** From which disks and TPM indices a boot can still be completed, and where provisioning must
    not be cut off. */
module DiskRecovery {
  import opened Storage
  import opened Disks
  import opened DiskFormats
  import opened DiskSealing

  /** Nothing on the disk yet, and all that is needed to provision it. */
  predicate Provisionable(d: Disk, p: Platform) {
    d.formatIfEmpty && d.mkfs.Some? && d.device in p.media && !HasHeader(p, d.device)
  }

  predicate OwnSelection(luks: Luks, policy: Option<Policy>) {
    luks.pcrs == (if policy.Some? then Some(policy.value.selection) else None)
  }

  /** Read off the disk and its TPM index alone: an encrypted disk has no header and can be
      provisioned, or its key is in its index under its own selection and there is a file
      system behind it; a plain disk has its file system or can get one. */
  predicate Recoverable(d: Disk, p: Platform) {
    match d.encrypt
    case Some(luks) =>
      if HasHeader(p, d.device) then
        && p.media[d.device].inner.Some?
        && luks.tpmNvIndex in p.nv && p.nv[luks.tpmNvIndex].key == Some(p.media[d.device].key)
        && OwnSelection(luks, p.nv[luks.tpmNvIndex].policy)
      else Provisionable(d, p)
    case None =>
      && d.device in p.media
      && if d.formatIfEmpty then HasExtMagic(p, d.device) || d.mkfs.Some?
         else p.media[d.device].Raw? && p.media[d.device].fs.Some?
  }

  /** The disk's key is bound to PCR values. */
  predicate IsBound(d: Disk, p: Platform) {
    d.encrypt.Some? && d.encrypt.value.pcrs.Some? && HasHeader(p, d.device)
  }

  function BoundTo(d: Disk, p: Platform): nat
    requires IsBound(d, p) && Recoverable(d, p)
  {
    p.nv[d.encrypt.value.tpmNvIndex].policy.value.values
  }

  ghost predicate AllRecoverable(cfg: seq<Disk>, p: Platform) {
    forall i | 0 <= i < |cfg| :: Recoverable(cfg[i], p)
  }

  /** Keys bound to the same selection are bound to the same values, so that one boot can have
      them all released. */
  ghost predicate Compatible(cfg: seq<Disk>, p: Platform)
    requires AllRecoverable(cfg, p)
  {
    forall i, j | 0 <= i < |cfg| && 0 <= j < |cfg| && IsBound(cfg[i], p) && IsBound(cfg[j], p)
                  && cfg[i].encrypt.value.pcrs == cfg[j].encrypt.value.pcrs ::
      BoundTo(cfg[i], p) == BoundTo(cfg[j], p)
  }

  /** Some sequence of boots, with whatever PCRs, gets all disks mounted, with `isLuks` truthful. */
  ghost predicate CanComplete(cfg: seq<Disk>, p: Platform) {
    exists log, s :: Completes(cfg, p, log, s)
  }

  ghost predicate Completes(cfg: seq<Disk>, p: Platform, log: seq<Obs>, s: State) {
    Run(cfg, PowerOn(cfg, p), log) == Some(s) && Truthful(cfg, PowerOn(cfg, p), log) && s.phase.AllMounted?
  }

  // ---- a volume with a header is left alone ----

  /** Disk `i` has a header, and is not being provisioned. */
  ghost predicate AtRest(cfg: seq<Disk>, s: State, i: nat) {
    && i < |cfg| && cfg[i].encrypt.Some? && HasHeader(s.p, cfg[i].device)
    && (Live(cfg, s.phase) && SlotOf(s.phase) == i ==>
          !s.phase.Keying? && !s.phase.Formatting? && !Provisioning(cfg, s.phase))
  }

  /** The same medium, and the same index. */
  predicate SameVolume(d: Disk, p: Platform, q: Platform)
    requires d.encrypt.Some?
  {
    var index := d.encrypt.value.tpmNvIndex;
    && SameMedium(p, q, d.device)
    && (index in p.nv <==> index in q.nv) && (index in p.nv ==> q.nv[index] == p.nv[index])
  }

  lemma AtRestStep(cfg: seq<Disk>, s: State, e: Obs, i: nat)
    requires Distinct(cfg) && PhaseInv(cfg, s) && AtRest(cfg, s, i)
    requires Next(cfg, s, e).Some? && !Misled(cfg, s, e)
    ensures AtRest(cfg, Next(cfg, s, e).value, i) && SameVolume(cfg[i], s.p, Next(cfg, s, e).value.p)
  {
    if !e.PowerCycle? && SlotOf(s.phase) != i {
      OthersUnmoved(cfg, s, e, i);
    } else if !e.PowerCycle? {
      OwnTurnAtRest(cfg, s, e, i);
    }
  }

  lemma OwnTurnAtRest(cfg: seq<Disk>, s: State, e: Obs, i: nat)
    requires PhaseInv(cfg, s) && AtRest(cfg, s, i) && !e.PowerCycle? && SlotOf(s.phase) == i
    requires Next(cfg, s, e).Some? && !Misled(cfg, s, e)
    ensures AtRest(cfg, Next(cfg, s, e).value, i) && SameVolume(cfg[i], s.p, Next(cfg, s, e).value.p)
  {
  }

  lemma {:induction false} StaysAtRest(cfg: seq<Disk>, s: State, log: seq<Obs>, i: nat)
    requires Distinct(cfg) && PhaseInv(cfg, s) && AtRest(cfg, s, i)
    requires Run(cfg, s, log).Some? && Truthful(cfg, s, log)
    ensures AtRest(cfg, Run(cfg, s, log).value, i) && SameVolume(cfg[i], s.p, Run(cfg, s, log).value.p)
    decreases |log|
  {
    if log != [] {
      var before := log[..|log| - 1];
      StaysAtRest(cfg, s, before, i);
      PhaseInvHolds(cfg, s, before);
      AtRestStep(cfg, Run(cfg, s, before).value, log[|log| - 1], i);
    }
  }

  // ---- what no run brings about ----

  lemma NoNewDevice(cfg: seq<Disk>, s: State, e: Obs, device: string)
    requires Next(cfg, s, e).Some?
    ensures device in Next(cfg, s, e).value.p.media <==> device in s.p.media
  {
  }

  lemma {:induction false} NoNewDevices(cfg: seq<Disk>, s: State, log: seq<Obs>, device: string)
    requires Run(cfg, s, log).Some?
    ensures device in Run(cfg, s, log).value.p.media <==> device in s.p.media
    decreases |log|
  {
    if log != [] {
      NoNewDevices(cfg, s, log[..|log| - 1], device);
      NoNewDevice(cfg, Run(cfg, s, log[..|log| - 1]).value, log[|log| - 1], device);
    }
  }

  lemma NoMkfsStep(cfg: seq<Disk>, s: State, e: Obs, i: nat)
    requires Distinct(cfg) && Next(cfg, s, e).Some?
    requires i < |cfg| && cfg[i].encrypt.Some? && cfg[i].mkfs.None?
    requires HasHeader(s.p, cfg[i].device) ==> s.p.media[cfg[i].device].inner.None?
    ensures var q := Next(cfg, s, e).value.p; HasHeader(q, cfg[i].device) ==> q.media[cfg[i].device].inner.None?
  {
    if !e.PowerCycle? && SlotOf(s.phase) != i {
      OthersUnmoved(cfg, s, e, i);
    }
  }

  lemma {:induction false} NoMkfsNoFileSystem(cfg: seq<Disk>, s: State, log: seq<Obs>, i: nat)
    requires Distinct(cfg) && Run(cfg, s, log).Some?
    requires i < |cfg| && cfg[i].encrypt.Some? && cfg[i].mkfs.None?
    requires HasHeader(s.p, cfg[i].device) ==> s.p.media[cfg[i].device].inner.None?
    ensures var q := Run(cfg, s, log).value.p; HasHeader(q, cfg[i].device) ==> q.media[cfg[i].device].inner.None?
    decreases |log|
  {
    if log != [] {
      NoMkfsNoFileSystem(cfg, s, log[..|log| - 1], i);
      NoMkfsStep(cfg, Run(cfg, s, log[..|log| - 1]).value, log[|log| - 1], i);
    }
  }

  // ---- what a completed boot tells about the start ----

  lemma SealedWasProvisionable(cfg: seq<Disk>, s: State, log: seq<Obs>, i: nat, pcrs: map<string, nat>)
    requires Distinct(cfg) && PhaseInv(cfg, s) && Run(cfg, s, log).Some?
    requires i < |cfg| && cfg[i].encrypt.Some? && !HasHeader(s.p, cfg[i].device)
    requires Sealed(cfg[i], Run(cfg, s, log).value.p, pcrs)
    ensures Provisionable(cfg[i], s.p)
  {
    NoNewDevices(cfg, s, log, cfg[i].device);
    if cfg[i].mkfs.None? { NoMkfsNoFileSystem(cfg, s, log, i); }
    if !cfg[i].formatIfEmpty { NeverWrittenUnasked(cfg, s, log, i); }
  }

  lemma PlainWasRecoverable(cfg: seq<Disk>, s: State, log: seq<Obs>, i: nat, pcrs: map<string, nat>)
    requires Distinct(cfg) && PhaseInv(cfg, s) && Run(cfg, s, log).Some?
    requires i < |cfg| && cfg[i].encrypt.None? && Sealed(cfg[i], Run(cfg, s, log).value.p, pcrs)
    ensures Recoverable(cfg[i], s.p)
  {
    NoNewDevices(cfg, s, log, cfg[i].device);
    if Unwritable(cfg[i]) { NeverWrittenUnasked(cfg, s, log, i); }
  }

  /** A disk that some boot got past was recoverable at the start, and bound to that boot's PCRs
      if it had a header. */
  lemma PassedWasRecoverable(cfg: seq<Disk>, p: Platform, log: seq<Obs>, s: State, i: nat)
    requires Distinct(cfg) && Run(cfg, PowerOn(cfg, p), log) == Some(s) && Truthful(cfg, PowerOn(cfg, p), log)
    requires i < |cfg| && i < Through(cfg, s.phase)
    ensures Recoverable(cfg[i], p)
    ensures IsBound(cfg[i], p) ==> BoundTo(cfg[i], p) == Pcr(s.p.pcrs, cfg[i].encrypt.value.pcrs.value)
  {
    var s0 := PowerOn(cfg, p);
    BootInvHolds(cfg, s0, log);
    assert Sealed(cfg[i], s.p, s.p.pcrs);
    if cfg[i].encrypt.None? {
      PlainWasRecoverable(cfg, s0, log, i, s.p.pcrs);
    } else if HasHeader(p, cfg[i].device) {
      StaysAtRest(cfg, s0, log, i);
    } else {
      SealedWasProvisionable(cfg, s0, log, i, s.p.pcrs);
    }
  }

  /** So a disk that is not recoverable at some power-on stops that boot and every later one. */
  lemma LostVolumeIsFinal(cfg: seq<Disk>, p: Platform, i: nat, log: seq<Obs>)
    requires Distinct(cfg) && i < |cfg| && !Recoverable(cfg[i], p)
    requires Run(cfg, PowerOn(cfg, p), log).Some? && Truthful(cfg, PowerOn(cfg, p), log)
    ensures Through(cfg, Run(cfg, PowerOn(cfg, p), log).value.phase) <= i
  {
    var s := Run(cfg, PowerOn(cfg, p), log).value;
    if Through(cfg, s.phase) > i {
      PassedWasRecoverable(cfg, p, log, s, i);
    }
  }

  // ---- and the other way ----

  lemma {:induction false} FittingPcrs(cfg: seq<Disk>, p: Platform, n: nat) returns (pcrs: map<string, nat>)
    requires n <= |cfg| && AllRecoverable(cfg, p) && Compatible(cfg, p)
    ensures forall i | 0 <= i < n && IsBound(cfg[i], p) :: Pcr(pcrs, cfg[i].encrypt.value.pcrs.value) == BoundTo(cfg[i], p)
  {
    if n == 0 {
      pcrs := map[];
    } else {
      pcrs := FittingPcrs(cfg, p, n - 1);
      if IsBound(cfg[n - 1], p) {
        pcrs := pcrs[cfg[n - 1].encrypt.value.pcrs.value := BoundTo(cfg[n - 1], p)];
      }
    }
  }

  lemma RecoverableIsUsable(d: Disk, p: Platform, q: Platform)
    requires Recoverable(d, p) && q.media == p.media && q.nv == p.nv
    requires IsBound(d, p) ==> Pcr(q.pcrs, d.encrypt.value.pcrs.value) == BoundTo(d, p)
    ensures Usable(d, q)
  {
  }

  lemma RecoverableCompletes(cfg: seq<Disk>, p: Platform)
    requires Distinct(cfg) && AllRecoverable(cfg, p) && Compatible(cfg, p)
    ensures CanComplete(cfg, p)
  {
    var pcrs := FittingPcrs(cfg, p, |cfg|);
    var s0, e := PowerOn(cfg, p), PowerCycle(pcrs);
    var m := Next(cfg, s0, e).value;
    forall i | 0 <= i < |cfg| ensures Usable(cfg[i], m.p) {
      RecoverableIsUsable(cfg[i], p, m.p);
    }
    PowerOnIsReady(cfg, m);
    var boot, s := BootCompletes(cfg, m);
    RunCons(cfg, s0, e, boot);
    assert Completes(cfg, p, [e] + boot, s);
  }

  /** From given disks and indices some boot can be completed, now or ever, exactly when each
      disk is recoverable and the keys bound to one selection are bound to the same values. */
  lemma CompletesExactly(cfg: seq<Disk>, p: Platform)
    requires Distinct(cfg)
    ensures CanComplete(cfg, p) <==> AllRecoverable(cfg, p) && Compatible(cfg, p)
  {
    if CanComplete(cfg, p) {
      var log, s :| Completes(cfg, p, log, s);
      forall i | 0 <= i < |cfg|
        ensures Recoverable(cfg[i], p)
        ensures IsBound(cfg[i], p) ==> BoundTo(cfg[i], p) == Pcr(s.p.pcrs, cfg[i].encrypt.value.pcrs.value)
      {
        PassedWasRecoverable(cfg, p, log, s, i);
      }
    }
    if AllRecoverable(cfg, p) && Compatible(cfg, p) {
      RecoverableCompletes(cfg, p);
    }
  }

  // ---- where a first boot must not be cut off ----

  /** The file system behind the mapping of disk `i` was made in this log. */
  ghost predicate FsMade(cfg: seq<Disk>, s: State, log: seq<Obs>, i: nat) {
    exists u | 0 <= u < |log| :: IsMkfs(log[u]) && PhaseAt(cfg, s, log[..u]) == MakingFs(i)
  }

  predicate IsMkfs(e: Obs) {
    e.Mkfs? && e.outcome.Performed?
  }

  lemma FsMadeSnoc(cfg: seq<Disk>, s: State, log: seq<Obs>, e: Obs, i: nat)
    ensures FsMade(cfg, s, log + [e], i) <==>
            FsMade(cfg, s, log, i) || (IsMkfs(e) && PhaseAt(cfg, s, log) == MakingFs(i))
  {
    var all := log + [e];
    assert all[|log|] == e && all[..|log|] == log;
    if u :| 0 <= u < |log| && IsMkfs(log[u]) && PhaseAt(cfg, s, log[..u]) == MakingFs(i) {
      assert all[u] == log[u] && all[..u] == log[..u];
    }
    if u :| 0 <= u < |all| && IsMkfs(all[u]) && PhaseAt(cfg, s, all[..u]) == MakingFs(i) {
      assert u < |log| ==> all[u] == log[u] && all[..u] == log[..u];
    }
  }

  /** How far the provisioning of disk `i` got, and what that makes of it. */
  ghost predicate Progress(cfg: seq<Disk>, s: State, i: nat, written: bool, made: bool)
    requires i < |cfg| && cfg[i].encrypt.Some?
  {
    var d, p := cfg[i], s.p;
    var turn := Live(cfg, s.phase) && SlotOf(s.phase) == i;
    && d.formatIfEmpty && d.mkfs.Some? && d.device in p.media
    && (written <==> HasHeader(p, d.device))
    && (made ==> written && AtRest(cfg, s, i) && Recoverable(d, p))
    && (written && !made ==> p.media[d.device].inner.None?)
    && (turn && (s.phase.Keying? || s.phase.Formatting?) ==> !written)
    && (turn && Provisioning(cfg, s.phase) ==> written && !made)
  }

  lemma ProgressStep(cfg: seq<Disk>, s: State, e: Obs, i: nat, written: bool, made: bool)
    requires Distinct(cfg) && PhaseInv(cfg, s) && BootInv(cfg, s)
    requires Next(cfg, s, e).Some? && !Misled(cfg, s, e)
    requires i < |cfg| && cfg[i].encrypt.Some? && Progress(cfg, s, i, written, made)
    ensures Progress(cfg, Next(cfg, s, e).value, i,
              written || (e == LuksFormat(Performed) && s.phase == Formatting(i)),
              made || (IsMkfs(e) && s.phase == MakingFs(i)))
  {
    if made {
      AtRestStep(cfg, s, e, i);
    } else if !e.PowerCycle? && SlotOf(s.phase) == i {
      TurnProgress(cfg, s, e, i, written);
    } else {
      OtherProgress(cfg, s, e, i, written);
    }
  }

  lemma OtherProgress(cfg: seq<Disk>, s: State, e: Obs, i: nat, written: bool)
    requires Distinct(cfg) && Next(cfg, s, e).Some? && (e.PowerCycle? || SlotOf(s.phase) != i)
    requires i < |cfg| && cfg[i].encrypt.Some? && Progress(cfg, s, i, written, false)
    ensures Progress(cfg, Next(cfg, s, e).value, i, written, false)
  {
    if !e.PowerCycle? { OthersUnmoved(cfg, s, e, i); }
  }

  lemma TurnProgress(cfg: seq<Disk>, s: State, e: Obs, i: nat, written: bool)
    requires PhaseInv(cfg, s) && BootInv(cfg, s) && !e.PowerCycle? && SlotOf(s.phase) == i
    requires Next(cfg, s, e).Some? && !Misled(cfg, s, e)
    requires i < |cfg| && cfg[i].encrypt.Some? && Progress(cfg, s, i, written, false)
    ensures Progress(cfg, Next(cfg, s, e).value, i,
              written || (e == LuksFormat(Performed) && s.phase == Formatting(i)),
              IsMkfs(e) && s.phase == MakingFs(i))
  {
    assert TurnInv(s.phase, cfg[i], s.p);
  }

  lemma {:induction false} ProgressHolds(cfg: seq<Disk>, s0: State, log: seq<Obs>, i: nat)
    requires Distinct(cfg) && s0.phase == Enter(cfg, 0)
    requires i < |cfg| && cfg[i].encrypt.Some? && Provisionable(cfg[i], s0.p)
    requires Run(cfg, s0, log).Some? && Truthful(cfg, s0, log)
    ensures Progress(cfg, Run(cfg, s0, log).value, i, HeaderWritten(cfg, s0, log, i), FsMade(cfg, s0, log, i))
    decreases |log|
  {
    if log != [] {
      var before, e := log[..|log| - 1], log[|log| - 1];
      assert before + [e] == log;
      ProgressHolds(cfg, s0, before, i);
      PhaseInvHolds(cfg, s0, before);
      BootInvHolds(cfg, s0, before);
      HeaderWrittenSnoc(cfg, s0, before, e, i);
      FsMadeSnoc(cfg, s0, before, e, i);
      ProgressStep(cfg, Run(cfg, s0, before).value, e, i, HeaderWritten(cfg, s0, before, i), FsMade(cfg, s0, before, i));
    }
  }

  /** At any point of any boots from there, a power loss leaves a disk that was provisionable
      recoverable exactly if its header has not been written yet, or its file system has been
      made. The TPM write in between settles nothing. */
  lemma CutExactly(cfg: seq<Disk>, p: Platform, log: seq<Obs>, s: State, i: nat)
    requires Distinct(cfg) && i < |cfg| && cfg[i].encrypt.Some? && Provisionable(cfg[i], p)
    requires Run(cfg, PowerOn(cfg, p), log) == Some(s) && Truthful(cfg, PowerOn(cfg, p), log)
    ensures Recoverable(cfg[i], s.p) <==>
            (HeaderWritten(cfg, PowerOn(cfg, p), log, i) ==> FsMade(cfg, PowerOn(cfg, p), log, i))
  {
    ProgressHolds(cfg, PowerOn(cfg, p), log, i);
  }

  /** The phases of a first boot's turn, call by call. */
  function ProvisioningPhase(i: nat, n: nat): Phase {
    if n == 0 then Deciding(i) else if n == 1 then Keying(i) else if n == 2 then Formatting(i)
    else if n == 3 then Opening(i, true) else if n == 4 then Clearing(i) else if n == 5 then Defining(i)
    else if n == 6 then Writing(i) else MakingFs(i)
  }

  lemma ProvisioningStep(cfg: seq<Disk>, s: State, i: nat, n: nat)
    requires BootReady(cfg, s) && i < |cfg| && cfg[i].encrypt.Some? && n < 7 && s.phase == ProvisioningPhase(i, n)
    requires n == 0 ==> Fresh(cfg[i], s.p)
    ensures Next(cfg, s, Success(cfg, s)).Some? && !Misled(cfg, s, Success(cfg, s))
    ensures !IsFault(Success(cfg, s)) && !Success(cfg, s).PowerCycle?
    ensures BootReady(cfg, Next(cfg, s, Success(cfg, s)).value)
    ensures Next(cfg, s, Success(cfg, s)).value.phase == ProvisioningPhase(i, n + 1)
  {
    NextCallCanSucceed(cfg, s);
    StaysReady(cfg, s);
    SuccessGoesOn(cfg, s, i, n);
  }

  lemma SuccessGoesOn(cfg: seq<Disk>, s: State, i: nat, n: nat)
    requires i < |cfg| && cfg[i].encrypt.Some? && n < 7 && s.phase == ProvisioningPhase(i, n)
    requires n == 0 ==> Fresh(cfg[i], s.p)
    requires Next(cfg, s, Success(cfg, s)).Some?
    ensures Next(cfg, s, Success(cfg, s)).value.phase == ProvisioningPhase(i, n + 1) && !Misled(cfg, s, Success(cfg, s))
  {
  }

  /** Each of those points can be reached, from `luksFormat` up to just before `mkfs`: a boot that
      comes to a fresh disk can be cut off after 3 to 7 calls without any refusal, and then
      the disk is lost. */
  lemma {:induction false} EachCutLosesVolume(cfg: seq<Disk>, s: State, i: nat, n: nat) returns (log: seq<Obs>, s': State)
    requires BootReady(cfg, s) && i < |cfg| && s.phase == Deciding(i) && Fresh(cfg[i], s.p) && n <= 7
    ensures |log| == n && Run(cfg, s, log) == Some(s') && Truthful(cfg, s, log) && NoRefusal(log)
    ensures BootReady(cfg, s') && s'.phase == ProvisioningPhase(i, n)
    ensures n >= 3 ==> !Recoverable(cfg[i], s'.p)
  {
    if n == 0 {
      log, s' := [], s;
    } else {
      var before, m := EachCutLosesVolume(cfg, s, i, n - 1);
      ProvisioningStep(cfg, m, i, n - 1);
      var e := Success(cfg, m);
      log, s' := before + [e], Next(cfg, m, e).value;
      RunSnoc(cfg, s, before, e);
      TruthfulConcat(cfg, s, before, [e]);
      OneStep(cfg, m, e);
      if n >= 3 { HalfProvisionedIsLost(cfg, s', i, n); }
    }
  }

  lemma HalfProvisionedIsLost(cfg: seq<Disk>, s: State, i: nat, n: nat)
    requires BootReady(cfg, s) && i < |cfg| && cfg[i].encrypt.Some? && 3 <= n <= 7 && s.phase == ProvisioningPhase(i, n)
    ensures !Recoverable(cfg[i], s.p)
  {
  }
}
