/** Keys sealed in the TPM: what a boot that returned Ok leaves, that it stays, and that later
    boots can open every disk with it. */
module DiskSealing {
  import opened Storage
  import opened Disks
  import opened DiskFormats

  /** The TPM holds the key of this disk's header, bound to these PCRs. */
  ghost predicate KeySealed(d: Disk, p: Platform, pcrs: map<string, nat>) {
    d.encrypt.Some? ==>
      && HasHeader(p, d.device)
      && d.encrypt.value.tpmNvIndex in p.nv
      && p.nv[d.encrypt.value.tpmNvIndex] == NvSlot(PolicyNow(d.encrypt.value, pcrs), Some(p.media[d.device].key))
  }

  /** And there is something for a later boot to mount. */
  ghost predicate Sealed(d: Disk, p: Platform, pcrs: map<string, nat>) {
    && KeySealed(d, p, pcrs)
    && d.device in p.media
    && if d.encrypt.Some? then p.media[d.device].Encrypted? && p.media[d.device].inner.Some?
       else if d.formatIfEmpty then HasExtMagic(p, d.device) || d.mkfs.Some?
       else p.media[d.device].Raw? && p.media[d.device].fs.Some?
  }

  predicate Mapped(d: Disk, p: Platform) {
    d.encrypt.Some? ==> d.encrypt.value.name in p.mapped && p.mapped[d.encrypt.value.name] == d.device
  }

  /** How many disks this boot is done with. */
  function Through(cfg: seq<Disk>, phase: Phase): nat {
    if phase.AllMounted? then |cfg| else SlotOf(phase)
  }

  /** What is known about the disk whose turn it is. */
  ghost predicate TurnInv(phase: Phase, d: Disk, p: Platform) {
    match phase
    case Opening(_, false) =>
      d.encrypt.Some? ==> Released(d.encrypt.value, p) && p.keyFile == p.nv[d.encrypt.value.tpmNvIndex].key
    case Writing(_) =>
      && Mapped(d, p)
      && (d.encrypt.Some? ==>
            d.encrypt.value.tpmNvIndex in p.nv && p.nv[d.encrypt.value.tpmNvIndex].policy == PolicyNow(d.encrypt.value, p.pcrs))
    case Clearing(_) => Mapped(d, p)
    case Defining(_) => Mapped(d, p)
    case MakingFs(_) => KeySealed(d, p, p.pcrs) && Mapped(d, p)
    case Cleaning(_, false) => KeySealed(d, p, p.pcrs) && Mapped(d, p)
    case Mounting(_) =>
      && KeySealed(d, p, p.pcrs) && Mapped(d, p)
      && (d.encrypt.None? && d.formatIfEmpty ==>
            d.device in p.media && p.media[d.device].Raw? && p.media[d.device].fs.Some? && (HasExtMagic(p, d.device) || d.mkfs.Some?))
    case _ => true
  }

  ghost predicate BootInv(cfg: seq<Disk>, s: State) {
    && (forall j | 0 <= j < Through(cfg, s.phase) && j < |cfg| :: Sealed(cfg[j], s.p, s.p.pcrs) && Mapped(cfg[j], s.p))
    && (Live(cfg, s.phase) ==> TurnInv(s.phase, cfg[SlotOf(s.phase)], s.p))
  }

  lemma OtherStaysSealed(cfg: seq<Disk>, s: State, e: Obs, j: nat)
    requires Distinct(cfg) && Next(cfg, s, e).Some? && !e.PowerCycle?
    requires j < |cfg| && j != SlotOf(s.phase)
    requires Sealed(cfg[j], s.p, s.p.pcrs) && Mapped(cfg[j], s.p)
    ensures Sealed(cfg[j], Next(cfg, s, e).value.p, s.p.pcrs) && Mapped(cfg[j], Next(cfg, s, e).value.p)
    ensures Next(cfg, s, e).value.p.pcrs == s.p.pcrs
  {
    OthersUnmoved(cfg, s, e, j);
  }

  lemma TurnEnds(cfg: seq<Disk>, s: State, e: Obs)
    requires BootInv(cfg, s) && Next(cfg, s, e).Some? && s.phase.Mounting? && e == Mount(true)
    ensures Next(cfg, s, e).value == State(Enter(cfg, s.phase.i + 1), s.p)
    ensures Sealed(cfg[s.phase.i], s.p, s.p.pcrs) && Mapped(cfg[s.phase.i], s.p)
  {
  }

  lemma TurnInvStep(cfg: seq<Disk>, s: State, e: Obs)
    requires PhaseInv(cfg, s) && BootInv(cfg, s) && Next(cfg, s, e).Some? && !e.PowerCycle?
    requires !(s.phase.Mounting? && e == Mount(true))
    ensures var s' := Next(cfg, s, e).value;
            && (Live(cfg, s'.phase) ==> SlotOf(s'.phase) == SlotOf(s.phase) && TurnInv(s'.phase, cfg[SlotOf(s'.phase)], s'.p))
            && !s'.phase.AllMounted?
  {
    var d := cfg[SlotOf(s.phase)];
    assert Live(cfg, s.phase) && TurnInv(s.phase, d, s.p);
  }

  lemma BootInvWithinTurn(cfg: seq<Disk>, s: State, e: Obs)
    requires Distinct(cfg) && PhaseInv(cfg, s) && BootInv(cfg, s) && Next(cfg, s, e).Some?
    requires !e.PowerCycle? && !(s.phase.Mounting? && e == Mount(true))
    ensures BootInv(cfg, Next(cfg, s, e).value)
  {
    var s' := Next(cfg, s, e).value;
    TurnInvStep(cfg, s, e);
    assert Live(cfg, s.phase) && Through(cfg, s.phase) == SlotOf(s.phase);
    forall j | 0 <= j < Through(cfg, s'.phase) && j < |cfg| ensures Sealed(cfg[j], s'.p, s'.p.pcrs) && Mapped(cfg[j], s'.p) {
      OtherStaysSealed(cfg, s, e, j);
    }
  }

  lemma BootInvStep(cfg: seq<Disk>, s: State, e: Obs)
    requires Distinct(cfg) && PhaseInv(cfg, s) && BootInv(cfg, s) && Next(cfg, s, e).Some?
    ensures BootInv(cfg, Next(cfg, s, e).value)
  {
    if e.PowerCycle? {
    } else if s.phase.Mounting? && e == Mount(true) {
      TurnEnds(cfg, s, e);
    } else {
      BootInvWithinTurn(cfg, s, e);
    }
  }

  lemma {:induction false} BootInvHolds(cfg: seq<Disk>, s: State, log: seq<Obs>)
    requires Distinct(cfg) && PhaseInv(cfg, s) && BootInv(cfg, s) && Run(cfg, s, log).Some?
    ensures BootInv(cfg, Run(cfg, s, log).value)
    decreases |log|
  {
    if log != [] {
      BootInvHolds(cfg, s, log[..|log| - 1]);
      PhaseInvHolds(cfg, s, log[..|log| - 1]);
      BootInvStep(cfg, Run(cfg, s, log[..|log| - 1]).value, log[|log| - 1]);
    }
  }

  ghost predicate AllSealed(cfg: seq<Disk>, p: Platform, pcrs: map<string, nat>) {
    forall i | 0 <= i < |cfg| :: Sealed(cfg[i], p, pcrs)
  }

  /** When `apply_disks` has returned Ok, in whatever boot, every encrypted disk is open and
      its own key is in its own TPM index, bound to the PCRs of that boot. */
  lemma DoneMeansSealed(cfg: seq<Disk>, p: Platform, log: seq<Obs>, s: State)
    requires Distinct(cfg) && Run(cfg, PowerOn(cfg, p), log) == Some(s) && s.phase.AllMounted?
    ensures AllSealed(cfg, s.p, s.p.pcrs) && forall i | 0 <= i < |cfg| :: Mapped(cfg[i], s.p)
  {
    assert Enter(cfg, 0).Mounting? ==> cfg[0].encrypt.None?;
    BootInvHolds(cfg, PowerOn(cfg, p), log);
  }

  // ---- and stays sealed ----

  /** A state after some boot that returned Ok: nothing is being provisioned again. */
  ghost predicate Settled(cfg: seq<Disk>, s: State, pcrs: map<string, nat>) {
    && AllSealed(cfg, s.p, pcrs)
    && !Provisioning(cfg, s.phase) && !s.phase.Keying? && !s.phase.Formatting?
  }

  lemma SettledStep(cfg: seq<Disk>, s: State, e: Obs, pcrs: map<string, nat>)
    requires Distinct(cfg) && PhaseInv(cfg, s) && Settled(cfg, s, pcrs) && Next(cfg, s, e).Some? && !Misled(cfg, s, e)
    ensures Settled(cfg, Next(cfg, s, e).value, pcrs)
  {
    var s' := Next(cfg, s, e).value;
    forall i | 0 <= i < |cfg| ensures Sealed(cfg[i], s'.p, pcrs) {
      assert Sealed(cfg[i], s.p, pcrs);
      if !e.PowerCycle? && i != SlotOf(s.phase) {
        OthersUnmoved(cfg, s, e, i);
      }
    }
  }

  /** Nothing in any later boot, finished or cut off, with whatever PCRs, unseals it, as long as
      `isLuks` tells the truth. */
  lemma {:induction false} StaysSealed(cfg: seq<Disk>, s: State, log: seq<Obs>, pcrs: map<string, nat>)
    requires Distinct(cfg) && PhaseInv(cfg, s) && Settled(cfg, s, pcrs) && Run(cfg, s, log).Some? && Truthful(cfg, s, log)
    ensures Settled(cfg, Run(cfg, s, log).value, pcrs)
    decreases |log|
  {
    if log != [] {
      StaysSealed(cfg, s, log[..|log| - 1], pcrs);
      PhaseInvHolds(cfg, s, log[..|log| - 1]);
      SettledStep(cfg, Run(cfg, s, log[..|log| - 1]).value, log[|log| - 1], pcrs);
    }
  }

  // ---- later boots unlock ----

  /** The PCRs that the disks' keys are bound to have the same values. */
  ghost predicate SamePcrs(cfg: seq<Disk>, a: map<string, nat>, b: map<string, nat>) {
    forall i | 0 <= i < |cfg| && cfg[i].encrypt.Some? && cfg[i].encrypt.value.pcrs.Some? ::
      Pcr(a, cfg[i].encrypt.value.pcrs.value) == Pcr(b, cfg[i].encrypt.value.pcrs.value)
  }

  lemma SealedUnderSame(cfg: seq<Disk>, i: nat, p: Platform, a: map<string, nat>, b: map<string, nat>)
    requires i < |cfg| && SamePcrs(cfg, a, b) && Sealed(cfg[i], p, b)
    ensures Sealed(cfg[i], p, a)
  {
  }

  /** A disk that the first boot can provision, whatever its TPM index held before. */
  predicate Fresh(d: Disk, p: Platform) {
    d.encrypt.Some? && d.formatIfEmpty && d.mkfs.Some? && d.device in p.media && !HasHeader(p, d.device)
  }

  ghost predicate Usable(d: Disk, p: Platform) {
    Sealed(d, p, p.pcrs) || Fresh(d, p)
  }

  /** What the rest of a disk's turn needs. */
  ghost predicate TurnReady(phase: Phase, d: Disk, p: Platform) {
    match phase
    case Deciding(_) => Usable(d, p)
    case Keying(_) => Fresh(d, p)
    case Formatting(_) => Fresh(d, p)
    case Opening(_, true) => d.mkfs.Some?
    case Clearing(_) => d.mkfs.Some?
    case Defining(_) => d.mkfs.Some?
    case Writing(_) => d.mkfs.Some?
    case MakingFs(_) => d.mkfs.Some? && d.device in p.media
    case _ => Sealed(d, p, p.pcrs)
  }

  /** Some way into a boot that nothing has gone wrong in, but that an old index may be in the way. */
  ghost predicate OnTrack(cfg: seq<Disk>, s: State) {
    && Distinct(cfg) && PhaseInv(cfg, s) && BootInv(cfg, s)
    && !s.phase.Failed? && !(s.phase.Cleaning? && s.phase.failed)
    && (s.phase.AllMounted? || Live(cfg, s.phase))
    && (Live(cfg, s.phase) ==> TurnReady(s.phase, cfg[SlotOf(s.phase)], s.p))
    && forall j | Through(cfg, s.phase) < j < |cfg| :: Usable(cfg[j], s.p)
  }

  /** And no old index is in the way. */
  ghost predicate BootReady(cfg: seq<Disk>, s: State) {
    && OnTrack(cfg, s)
    && (s.phase.Defining? && s.phase.i < |cfg| && cfg[s.phase.i].encrypt.Some? ==>
          cfg[s.phase.i].encrypt.value.tpmNvIndex !in s.p.nv)
  }

  function Rank(phase: Phase): nat {
    match phase
    case Keying(_) => 10
    case Formatting(_) => 9
    case Unsealing(_) => 9
    case Opening(_, _) => 8
    case Clearing(_) => 7
    case Defining(_) => 6
    case Writing(_) => 5
    case MakingFs(_) => 4
    case Cleaning(_, _) => 3
    case Mounting(_) => 2
    case _ => 11
  }

  function ToGo(cfg: seq<Disk>, phase: Phase): nat {
    if Live(cfg, phase) then (|cfg| - SlotOf(phase)) * 12 + Rank(phase) else 0
  }

  function Success(cfg: seq<Disk>, s: State): Obs
    requires Live(cfg, s.phase)
  {
    var device := cfg[SlotOf(s.phase)].device;
    match s.phase
    case Deciding(_) => IsLuks(Some(HasHeader(s.p, device)))
    case Unsealing(_) => NvRead(true)
    case Opening(_, _) => LuksOpen(true)
    case Keying(_) => GetRandom(0, true)
    case Formatting(_) => LuksFormat(Performed)
    case Clearing(_) => NvUndefine(true)
    case Defining(_) => NvDefine(true)
    case Writing(_) => NvWrite(true)
    case Cleaning(_, _) => RemoveKeyFile(true)
    case Checking(_) => IsFormatted(Some(HasExtMagic(s.p, device)))
    case MakingFs(_) => Mkfs(0, Performed)
    case _ => Mount(true)
  }

  /** At every point of such a boot the platform lets the next call succeed: the TPM releases
      the key, the key fits the header, an old index is out of the way, there is a file system
      to mount. */
  lemma NextCallCanSucceed(cfg: seq<Disk>, s: State)
    requires BootReady(cfg, s) && Live(cfg, s.phase)
    ensures !IsFault(Success(cfg, s)) && Next(cfg, s, Success(cfg, s)).Some?
    ensures var s' := Next(cfg, s, Success(cfg, s)).value;
            !GivenUp(s'.phase) && ToGo(cfg, s'.phase) < ToGo(cfg, s.phase) && s'.p.pcrs == s.p.pcrs
  {
    var d := cfg[SlotOf(s.phase)];
    assert TurnReady(s.phase, d, s.p);
  }

  /** The step is neither a refusal nor a misled answer. */
  predicate GoesOn(cfg: seq<Disk>, s: State, e: Obs) {
    !e.PowerCycle? && !IsFault(e) && !Misled(cfg, s, e)
  }

  lemma TurnStaysReady(cfg: seq<Disk>, s: State, e: Obs)
    requires OnTrack(cfg, s) && Live(cfg, s.phase)
    requires Next(cfg, s, e).Some? && GoesOn(cfg, s, e) && !s.phase.Mounting?
    ensures var s' := Next(cfg, s, e).value;
            && Live(cfg, s'.phase) && SlotOf(s'.phase) == SlotOf(s.phase) && !GivenUp(s'.phase)
            && TurnReady(s'.phase, cfg[SlotOf(s.phase)], s'.p)
  {
    assert TurnReady(s.phase, cfg[SlotOf(s.phase)], s.p) && TurnInv(s.phase, cfg[SlotOf(s.phase)], s.p);
  }

  /** A boot stays on track through every answer that is no refusal. */
  lemma StaysOnTrack(cfg: seq<Disk>, s: State, e: Obs)
    requires OnTrack(cfg, s) && Next(cfg, s, e).Some? && GoesOn(cfg, s, e)
    ensures OnTrack(cfg, Next(cfg, s, e).value)
  {
    assert Live(cfg, s.phase);
    var s' := Next(cfg, s, e).value;
    PhaseInvStep(cfg, s, e);
    BootInvStep(cfg, s, e);
    if s.phase.Mounting? {
      TurnEnds(cfg, s, e);
      NextTurnIsReady(cfg, s.phase.i + 1, s'.p);
    } else {
      TurnStaysReady(cfg, s, e);
      forall j | SlotOf(s.phase) < j < |cfg| ensures Usable(cfg[j], s'.p) {
        OtherStaysUsable(cfg, s, e, j);
      }
    }
  }

  lemma SuccessGoesWell(cfg: seq<Disk>, s: State)
    requires Live(cfg, s.phase) && Next(cfg, s, Success(cfg, s)).Some?
    ensures GoesOn(cfg, s, Success(cfg, s))
    ensures var s' := Next(cfg, s, Success(cfg, s)).value;
            s'.phase.Defining? && s'.phase.i < |cfg| && cfg[s'.phase.i].encrypt.Some? ==>
              cfg[s'.phase.i].encrypt.value.tpmNvIndex !in s'.p.nv
  {
  }

  lemma StaysReady(cfg: seq<Disk>, s: State)
    requires BootReady(cfg, s) && Live(cfg, s.phase) && Next(cfg, s, Success(cfg, s)).Some?
    ensures BootReady(cfg, Next(cfg, s, Success(cfg, s)).value)
  {
    SuccessGoesWell(cfg, s);
    StaysOnTrack(cfg, s, Success(cfg, s));
  }

  lemma NextTurnIsReady(cfg: seq<Disk>, i: nat, p: Platform)
    requires i < |cfg| ==> Usable(cfg[i], p)
    ensures Enter(cfg, i).AllMounted? || (Live(cfg, Enter(cfg, i)) && SlotOf(Enter(cfg, i)) == i)
    ensures Live(cfg, Enter(cfg, i)) ==> TurnReady(Enter(cfg, i), cfg[i], p)
  {
  }

  lemma OtherStaysUsable(cfg: seq<Disk>, s: State, e: Obs, j: nat)
    requires Distinct(cfg) && Next(cfg, s, e).Some? && !e.PowerCycle?
    requires j < |cfg| && j != SlotOf(s.phase) && Usable(cfg[j], s.p)
    ensures Usable(cfg[j], Next(cfg, s, e).value.p)
  {
    OthersUnmoved(cfg, s, e, j);
  }

  /** And only a reported refusal, or `isLuks` failing over a header, makes it give up: no
      decision of its own does. */
  lemma OnlyRefusalsGiveUp(cfg: seq<Disk>, s: State, e: Obs)
    requires OnTrack(cfg, s) && Next(cfg, s, e).Some?
    requires GivenUp(Next(cfg, s, e).value.phase)
    ensures IsFault(e) || Misled(cfg, s, e)
  {
    if !e.PowerCycle? {
      assert Live(cfg, s.phase) && TurnReady(s.phase, cfg[SlotOf(s.phase)], s.p);
    }
  }

  predicate FaultAt(log: seq<Obs>, u: nat) {
    u < |log| && IsFault(log[u])
  }

  ghost predicate AnyFault(log: seq<Obs>) {
    exists u: nat :: FaultAt(log, u)
  }

  lemma {:induction false} OnTrackHolds(cfg: seq<Disk>, s: State, log: seq<Obs>)
    requires OnTrack(cfg, s) && Run(cfg, s, log).Some? && PowerCycleFree(log) && Truthful(cfg, s, log)
    ensures OnTrack(cfg, Run(cfg, s, log).value) || AnyFault(log)
    decreases |log|
  {
    if log != [] {
      var n := |log| - 1;
      var before := log[..n];
      assert log[n] in log && forall e | e in before :: e in log;
      OnTrackHolds(cfg, s, before);
      if u: nat :| FaultAt(before, u) {
        assert FaultAt(log, u);
      } else if IsFault(log[n]) {
        assert FaultAt(log, n);
      } else {
        StaysOnTrack(cfg, Run(cfg, s, before).value, log[n]);
      }
    }
  }

  /** With usable disks, and `isLuks` truthful, a boot is given up exactly when some call was
      refused; which key is drawn, and whether an old index goes away, is all the same. */
  lemma UsableGivesUpExactly(cfg: seq<Disk>, s: State, log: seq<Obs>)
    requires OnTrack(cfg, s) && Run(cfg, s, log).Some? && PowerCycleFree(log) && Truthful(cfg, s, log)
    ensures GivenUp(Run(cfg, s, log).value.phase) <==> AnyFault(log)
  {
    GivenUpExactly(cfg, s, log);
    OnTrackHolds(cfg, s, log);
    if u: nat :| FaultAt(log, u) {
      PrefixRuns(cfg, s, log, u);
      assert GivesUpAt(cfg, s, log, u);
    }
  }

  ghost predicate NoRefusal(log: seq<Obs>) {
    forall e | e in log :: !IsFault(e) && !e.PowerCycle?
  }

  /** So the boot can be carried through, without any refusal, to all disks open and mounted. */
  lemma BootCompletes(cfg: seq<Disk>, s: State) returns (log: seq<Obs>, s': State)
    requires BootReady(cfg, s)
    ensures Run(cfg, s, log) == Some(s') && s'.phase.AllMounted? && s'.p.pcrs == s.p.pcrs
    ensures NoRefusal(log) && Truthful(cfg, s, log)
    ensures forall i | 0 <= i < |cfg| :: Sealed(cfg[i], s'.p, s.p.pcrs) && Mapped(cfg[i], s'.p)
    decreases ToGo(cfg, s.phase)
  {
    if s.phase.AllMounted? {
      log, s' := [], s;
    } else {
      var e := Success(cfg, s);
      NextCallCanSucceed(cfg, s);
      StaysReady(cfg, s);
      var rest;
      rest, s' := BootCompletes(cfg, Next(cfg, s, e).value);
      RunCons(cfg, s, e, rest);
      log := [e] + rest;
    }
  }

  lemma PowerOnIsReady(cfg: seq<Disk>, s: State)
    requires Distinct(cfg) && s.phase == Enter(cfg, 0)
    requires forall i | 0 <= i < |cfg| :: Usable(cfg[i], s.p)
    ensures BootReady(cfg, s)
  {
    NextTurnIsReady(cfg, 0, s.p);
  }

  /** For any list of distinct disks, each one sealed to the present PCRs or fit for first
      provisioning, and whatever the indices of the latter held: the boot can be completed,
      and leaves every key sealed in its own index. */
  lemma FirstBootCompletes(cfg: seq<Disk>, p: Platform) returns (log: seq<Obs>, s': State)
    requires Distinct(cfg) && forall i | 0 <= i < |cfg| :: Usable(cfg[i], p)
    ensures Run(cfg, PowerOn(cfg, p), log) == Some(s') && s'.phase.AllMounted?
    ensures NoRefusal(log) && Truthful(cfg, PowerOn(cfg, p), log)
    ensures AllSealed(cfg, s'.p, p.pcrs)
  {
    var s := PowerOn(cfg, p);
    assert forall i | 0 <= i < |cfg| :: Usable(cfg[i], p) ==> Usable(cfg[i], s.p);
    PowerOnIsReady(cfg, s);
    log, s' := BootCompletes(cfg, s);
  }

  /** Seal and unseal, for any list of disks: once a boot returned Ok, then whatever later
      boots do or however they are cut off, the next boot under the same selected PCR values
      can open every disk, and each with the key it had: one disk's provisioning and boots
      disturb no other's. */
  lemma SealUnsealRoundTrip(cfg: seq<Disk>, p: Platform, log: seq<Obs>, s: State, later: seq<Obs>, s1: State, pcrs: map<string, nat>)
    returns (boot: seq<Obs>, s': State)
    requires Distinct(cfg) && Run(cfg, PowerOn(cfg, p), log) == Some(s) && s.phase.AllMounted?
    requires Run(cfg, s, later) == Some(s1) && Truthful(cfg, s, later) && SamePcrs(cfg, pcrs, s.p.pcrs)
    ensures Run(cfg, s1, [PowerCycle(pcrs)] + boot) == Some(s') && s'.phase.AllMounted?
    ensures NoRefusal(boot) && Truthful(cfg, s1, [PowerCycle(pcrs)] + boot)
    ensures forall i | 0 <= i < |cfg| && cfg[i].encrypt.Some? ::
              && Mapped(cfg[i], s'.p)
              && HasHeader(s.p, cfg[i].device) && HasHeader(s'.p, cfg[i].device)
              && s'.p.media[cfg[i].device] == s.p.media[cfg[i].device]
  {
    var s0, e := PowerOn(cfg, p), PowerCycle(pcrs);
    PhaseInvHolds(cfg, s0, log);
    DoneMeansSealed(cfg, p, log, s);
    StaysSealed(cfg, s, later, s.p.pcrs);
    var m := Next(cfg, s1, e).value;
    forall i | 0 <= i < |cfg| ensures Usable(cfg[i], m.p) {
      assert Sealed(cfg[i], s1.p, s.p.pcrs);
      SealedUnderSame(cfg, i, m.p, pcrs, s.p.pcrs);
    }
    PowerOnIsReady(cfg, m);
    boot, s' := BootCompletes(cfg, m);
    RunCons(cfg, s1, e, boot);
    RunConcat(cfg, s, later, [e] + boot);
    TruthfulConcat(cfg, s, later, [e] + boot);
    NeverFormatsHeaders(cfg, s, later + ([e] + boot));
    forall i | 0 <= i < |cfg| && cfg[i].encrypt.Some?
      ensures Mapped(cfg[i], s'.p) && HasHeader(s.p, cfg[i].device) && HasHeader(s'.p, cfg[i].device)
           && s'.p.media[cfg[i].device] == s.p.media[cfg[i].device]
    {
      assert Sealed(cfg[i], s.p, s.p.pcrs);
      DataSurvives(cfg, s, later + ([e] + boot), i);
    }
  }

  lemma NeverFormatsHeaders(cfg: seq<Disk>, s: State, log: seq<Obs>)
    requires LookedFirst(cfg, s) && Run(cfg, s, log).Some? && Truthful(cfg, s, log)
    ensures forall i | 0 <= i < |cfg| && cfg[i].encrypt.Some? :: !Overwritten(cfg, s, log, i)
  {
    forall i | 0 <= i < |cfg| && cfg[i].encrypt.Some? ensures !Overwritten(cfg, s, log, i) {
      NeverFormatsHeader(cfg, s, log, i);
    }
  }
}
