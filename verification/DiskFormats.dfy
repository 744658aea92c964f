/** What initd formats, and what it leaves alone, over any number of boots. */
module DiskFormats {
  import opened Storage
  import opened Disks

  // ---- LUKS headers ----

  /** This step formats disk `i` over a header: `luksFormat`, or, for a plain disk, `mkfs`. */
  predicate Overwrites(cfg: seq<Disk>, s: State, e: Obs, i: nat) {
    && i < |cfg| && HasHeader(s.p, cfg[i].device)
    && ((s.phase == Formatting(i) && e.LuksFormat? && !e.outcome.Refused?)
        || (s.phase == MakingFs(i) && cfg[i].encrypt.None? && e.Mkfs? && !e.outcome.Refused?))
  }

  predicate OverwrittenAt(cfg: seq<Disk>, s: State, log: seq<Obs>, i: nat, u: nat) {
    u < |log| && Run(cfg, s, log[..u]).Some? && Overwrites(cfg, Run(cfg, s, log[..u]).value, log[u], i)
  }

  ghost predicate Overwritten(cfg: seq<Disk>, s: State, log: seq<Obs>, i: nat) {
    exists u: nat :: OverwrittenAt(cfg, s, log, i, u)
  }

  /** `isLuks` failed on disk `i` over its header, and the key and the format that followed
      went through. */
  predicate MisledTurnAt(cfg: seq<Disk>, s: State, log: seq<Obs>, i: nat, v: nat) {
    && v + 2 < |log| && Run(cfg, s, log[..v]).Some?
    && var at := Run(cfg, s, log[..v]).value;
    && at.phase == Deciding(i) && Misled(cfg, at, log[v])
    && log[v + 1].GetRandom? && log[v + 1].ok
    && log[v + 2].LuksFormat? && !log[v + 2].outcome.Refused?
  }

  /** Plain disk `i` has its turn over a header, which is no ext magic, and its `mkfs` went through. */
  predicate PlainTurnAt(cfg: seq<Disk>, s: State, log: seq<Obs>, i: nat, v: nat) {
    && i < |cfg| && cfg[i].encrypt.None?
    && v + 1 < |log| && Run(cfg, s, log[..v]).Some?
    && var at := Run(cfg, s, log[..v]).value;
    && at.phase == Checking(i) && HasHeader(at.p, cfg[i].device)
    && log[v] == IsFormatted(Some(false))
    && log[v + 1].Mkfs? && !log[v + 1].outcome.Refused?
  }

  lemma BeforePlainMkfs(cfg: seq<Disk>, s: State, e: Obs, i: nat)
    requires i < |cfg| && cfg[i].encrypt.None?
    requires Next(cfg, s, e).Some? && Next(cfg, s, e).value.phase == MakingFs(i)
    ensures s.phase == Checking(i) && e == IsFormatted(Some(false)) && Next(cfg, s, e).value.p == s.p
  {
  }

  lemma AfterChecking(cfg: seq<Disk>, s: State, e: Obs, i: nat)
    requires Next(cfg, s, e).Some? && s.phase == Checking(i) && e == IsFormatted(Some(false))
    ensures Next(cfg, s, e).value == State(MakingFs(i), s.p)
  {
  }

  lemma BeforeFormatting(cfg: seq<Disk>, s: State, e: Obs, i: nat)
    requires Next(cfg, s, e).Some? && Next(cfg, s, e).value.phase == Formatting(i)
    ensures s.phase == Keying(i) && e.GetRandom? && e.ok
    ensures Next(cfg, s, e).value.p.media == s.p.media
  {
  }

  lemma BeforeKeying(cfg: seq<Disk>, s: State, e: Obs, i: nat)
    requires Next(cfg, s, e).Some? && Next(cfg, s, e).value.phase == Keying(i)
    ensures s.phase == Deciding(i) && e == IsLuks(Some(false)) && i < |cfg|
    ensures Next(cfg, s, e).value.p.media == s.p.media
  {
  }

  lemma AfterDeciding(cfg: seq<Disk>, s: State, e: Obs, i: nat)
    requires Next(cfg, s, e).Some? && s.phase == Deciding(i) && e == IsLuks(Some(false))
    ensures Next(cfg, s, e).value.phase == Keying(i) || Next(cfg, s, e).value.phase == Failed
    ensures Next(cfg, s, e).value.p.media == s.p.media
  {
  }

  lemma AfterKeying(cfg: seq<Disk>, s: State, e: Obs)
    requires Next(cfg, s, e).Some? && e.GetRandom? && e.ok
    ensures s.phase.Keying? && Next(cfg, s, e).value.phase == Formatting(s.phase.i)
    ensures Next(cfg, s, e).value.p.media == s.p.media
  {
  }

  /** A format comes right after the key was drawn, and that right after `isLuks` failed. */
  lemma FormattingAt(cfg: seq<Disk>, s: State, log: seq<Obs>, i: nat, u: nat)
    requires s.phase == Enter(cfg, 0) && Run(cfg, s, log).Some? && u <= |log|
    requires Run(cfg, s, log[..u]).Some? && Run(cfg, s, log[..u]).value.phase == Formatting(i)
    ensures u >= 2 && log[u - 1].GetRandom? && log[u - 1].ok && log[u - 2] == IsLuks(Some(false))
    ensures Run(cfg, s, log[..u - 2]).Some? && Run(cfg, s, log[..u - 2]).value.phase == Deciding(i)
    ensures Run(cfg, s, log[..u - 2]).value.p.media == Run(cfg, s, log[..u]).value.p.media
  {
    assert u > 0;
    PrefixRuns(cfg, s, log, u - 1);
    BeforeFormatting(cfg, Run(cfg, s, log[..u - 1]).value, log[u - 1], i);
    assert u > 1;
    PrefixRuns(cfg, s, log, u - 2);
    BeforeKeying(cfg, Run(cfg, s, log[..u - 2]).value, log[u - 2], i);
  }

  /** After the misled turn's three calls the format is over the header. */
  lemma MisledTurnOverwrites(cfg: seq<Disk>, s: State, log: seq<Obs>, i: nat, v: nat)
    requires Run(cfg, s, log).Some? && MisledTurnAt(cfg, s, log, i, v)
    ensures OverwrittenAt(cfg, s, log, i, v + 2)
  {
    PrefixRuns(cfg, s, log, v);
    PrefixRuns(cfg, s, log, v + 1);
    PrefixRuns(cfg, s, log, v + 2);
    AfterDeciding(cfg, Run(cfg, s, log[..v]).value, log[v], i);
    AfterKeying(cfg, Run(cfg, s, log[..v + 1]).value, log[v + 1]);
  }

  lemma PlainMkfsAt(cfg: seq<Disk>, s: State, log: seq<Obs>, i: nat, u: nat)
    requires s.phase == Enter(cfg, 0) && Run(cfg, s, log).Some? && OverwrittenAt(cfg, s, log, i, u)
    requires Run(cfg, s, log[..u]).value.phase == MakingFs(i) && cfg[i].encrypt.None?
    ensures u >= 1 && PlainTurnAt(cfg, s, log, i, u - 1)
  {
    assert u > 0;
    PrefixRuns(cfg, s, log, u - 1);
    BeforePlainMkfs(cfg, Run(cfg, s, log[..u - 1]).value, log[u - 1], i);
  }

  lemma PlainTurnOverwrites(cfg: seq<Disk>, s: State, log: seq<Obs>, i: nat, v: nat)
    requires Run(cfg, s, log).Some? && PlainTurnAt(cfg, s, log, i, v)
    ensures OverwrittenAt(cfg, s, log, i, v + 1)
  {
    PrefixRuns(cfg, s, log, v);
    PrefixRuns(cfg, s, log, v + 1);
    AfterChecking(cfg, Run(cfg, s, log[..v]).value, log[v], i);
  }

  /** Over any boots and power losses, a header is formatted over exactly when `isLuks` failed on
      it and the two calls after that went through, or when the disk is a plain one with
      `formatIfEmpty`, which looks for ext alone, and its `mkfs` went through. */
  lemma HeaderOverwrittenExactly(cfg: seq<Disk>, s: State, log: seq<Obs>, i: nat)
    requires s.phase == Enter(cfg, 0) && Run(cfg, s, log).Some? && i < |cfg|
    ensures Overwritten(cfg, s, log, i) <==>
            (exists v: nat :: MisledTurnAt(cfg, s, log, i, v)) || (exists v: nat :: PlainTurnAt(cfg, s, log, i, v))
  {
    if Overwritten(cfg, s, log, i) {
      var u: nat :| OverwrittenAt(cfg, s, log, i, u);
      if Run(cfg, s, log[..u]).value.phase == Formatting(i) {
        FormattingAt(cfg, s, log, i, u);
        assert MisledTurnAt(cfg, s, log, i, u - 2);
      } else {
        PlainMkfsAt(cfg, s, log, i, u);
      }
    }
    if v: nat :| MisledTurnAt(cfg, s, log, i, v) {
      MisledTurnOverwrites(cfg, s, log, i, v);
    }
    if v: nat :| PlainTurnAt(cfg, s, log, i, v) {
      PlainTurnOverwrites(cfg, s, log, i, v);
    }
  }

  lemma EncryptedOverwriteIsFormat(cfg: seq<Disk>, s: State, e: Obs, i: nat)
    requires i < |cfg| && cfg[i].encrypt.Some? && Overwrites(cfg, s, e, i)
    ensures !LookedFirst(cfg, s)
  {
  }

  /** So an encrypted disk with a header is never formatted, as long as `isLuks` tells the truth. */
  lemma NeverFormatsHeader(cfg: seq<Disk>, s: State, log: seq<Obs>, i: nat)
    requires LookedFirst(cfg, s) && Run(cfg, s, log).Some? && Truthful(cfg, s, log)
    ensures i < |cfg| && cfg[i].encrypt.Some? ==> !Overwritten(cfg, s, log, i)
  {
    if i < |cfg| && cfg[i].encrypt.Some? && Overwritten(cfg, s, log, i) {
      var u: nat :| OverwrittenAt(cfg, s, log, i, u);
      assert log[..u] + log[u..] == log;
      TruthfulConcat(cfg, s, log[..u], log[u..]);
      TruthfulLooksFirst(cfg, s, log[..u]);
      EncryptedOverwriteIsFormat(cfg, Run(cfg, s, log[..u]).value, log[u], i);
      assert false;
    }
  }

  /** A plain disk over a header: from any point of any run at which it has its turn, one `mkfs`
      takes the header, and no tool was asked for one. */
  lemma PlainMkfsOverwrites(cfg: seq<Disk>, s0: State, log: seq<Obs>, s: State, i: nat, made: nat) returns (more: seq<Obs>, s': State)
    requires Run(cfg, s0, log) == Some(s) && s.phase == Checking(i)
    requires i < |cfg| && cfg[i].encrypt.None? && cfg[i].mkfs.Some? && HasHeader(s.p, cfg[i].device)
    ensures Run(cfg, s0, log + more) == Some(s') && Overwritten(cfg, s0, log + more, i)
    ensures !HasHeader(s'.p, cfg[i].device)
  {
    var a, b := IsFormatted(Some(false)), Mkfs(made, Performed);
    more := [a, b];
    RunSnoc(cfg, s0, log, a);
    AfterChecking(cfg, s, a, i);
    RunSnoc(cfg, s0, log + [a], b);
    assert log + [a] + [b] == log + more;
    assert (log + more)[..|log| + 1] == log + [a];
    s' := Run(cfg, s0, log + more).value;
    assert OverwrittenAt(cfg, s0, log + more, i, |log| + 1);
  }

  /** And from any point of any run at which a disk with a header, and `formatIfEmpty`, has its
      turn, the run can go on to lose the header and the data behind it. */
  lemma FailingIsLuksOverwrites(cfg: seq<Disk>, s0: State, log: seq<Obs>, s: State, i: nat, key: nat) returns (more: seq<Obs>, s': State)
    requires Run(cfg, s0, log) == Some(s) && s.phase == Deciding(i)
    requires i < |cfg| && cfg[i].encrypt.Some? && cfg[i].formatIfEmpty && HasHeader(s.p, cfg[i].device)
    ensures Run(cfg, s0, log + more) == Some(s') && Overwritten(cfg, s0, log + more, i)
    ensures cfg[i].device in s'.p.media && s'.p.media[cfg[i].device] == Encrypted(key, None)
  {
    var a, b, c := IsLuks(Some(false)), GetRandom(key, true), LuksFormat(Performed);
    more := [a, b, c];
    var q := s.p.(keyFile := Some(key));
    MisledSteps(cfg, s, i, key);
    RunSnoc(cfg, s0, log, a);
    RunSnoc(cfg, s0, log + [a], b);
    RunSnoc(cfg, s0, log + [a] + [b], c);
    assert log + [a] + [b] + [c] == log + more;
    assert (log + more)[..|log| + 2] == log + [a] + [b] && (log + more)[|log| + 2] == c;
    s' := State(Opening(i, true), SetMedium(q, cfg[i].device, Encrypted(key, None)));
    assert Overwrites(cfg, State(Formatting(i), q), c, i);
    assert OverwrittenAt(cfg, s0, log + more, i, |log| + 2);
  }

  lemma MisledSteps(cfg: seq<Disk>, s: State, i: nat, key: nat)
    requires s.phase == Deciding(i) && i < |cfg|
    requires cfg[i].encrypt.Some? && cfg[i].formatIfEmpty && HasHeader(s.p, cfg[i].device)
    ensures Next(cfg, s, IsLuks(Some(false))) == Some(State(Keying(i), s.p))
    ensures var q := s.p.(keyFile := Some(key));
            && Next(cfg, State(Keying(i), s.p), GetRandom(key, true)) == Some(State(Formatting(i), q))
            && Next(cfg, State(Formatting(i), q), LuksFormat(Performed))
               == Some(State(Opening(i, true), SetMedium(q, cfg[i].device, Encrypted(key, None))))
  {
  }

  lemma HeaderStep(cfg: seq<Disk>, s: State, e: Obs, i: nat)
    requires Distinct(cfg) && PhaseInv(cfg, s) && Next(cfg, s, e).Some? && !Overwrites(cfg, s, e, i)
    requires i < |cfg| && HasHeader(s.p, cfg[i].device)
    ensures HasHeader(Next(cfg, s, e).value.p, cfg[i].device)
    ensures Next(cfg, s, e).value.p.media[cfg[i].device].key == s.p.media[cfg[i].device].key
  {
  }

  lemma NotOverwrittenBefore(cfg: seq<Disk>, s: State, log: seq<Obs>, i: nat)
    requires log != [] && Run(cfg, s, log).Some? && !Overwritten(cfg, s, log, i)
    ensures !Overwritten(cfg, s, log[..|log| - 1], i)
    ensures !Overwrites(cfg, Run(cfg, s, log[..|log| - 1]).value, log[|log| - 1], i)
  {
    var before := log[..|log| - 1];
    assert !OverwrittenAt(cfg, s, log, i, |log| - 1);
    forall u: nat ensures !OverwrittenAt(cfg, s, before, i, u) {
      if u < |before| {
        assert before[..u] == log[..u] && before[u] == log[u];
        assert !OverwrittenAt(cfg, s, log, i, u);
      }
    }
  }

  /** A header that is not formatted over stays, with its key, in whatever state the volume
      behind it is, and whether its disk is configured as encrypted or not. */
  lemma {:induction false} HeaderSurvives(cfg: seq<Disk>, s: State, log: seq<Obs>, i: nat)
    requires Distinct(cfg) && PhaseInv(cfg, s) && Run(cfg, s, log).Some? && !Overwritten(cfg, s, log, i)
    requires i < |cfg| && HasHeader(s.p, cfg[i].device)
    ensures var q := Run(cfg, s, log).value.p;
            HasHeader(q, cfg[i].device) && q.media[cfg[i].device].key == s.p.media[cfg[i].device].key
    decreases |log|
  {
    if log != [] {
      var before := log[..|log| - 1];
      NotOverwrittenBefore(cfg, s, log, i);
      HeaderSurvives(cfg, s, before, i);
      PhaseInvHolds(cfg, s, before);
      HeaderStep(cfg, Run(cfg, s, before).value, log[|log| - 1], i);
    }
  }

  // ---- data ----

  /** The file system of disk `i` is one the code will not make again: inside a LUKS volume,
      or on a plain disk that carries the ext magic or is not to be formatted. */
  ghost predicate Kept(cfg: seq<Disk>, p: Platform, i: nat)
    requires i < |cfg|
  {
    var d := cfg[i];
    d.device in p.media &&
    if d.encrypt.Some? then p.media[d.device].Encrypted? && p.media[d.device].inner.Some?
    else p.media[d.device].Raw? && p.media[d.device].fs.Some? && (p.media[d.device].fs.value.kind.Ext? || !d.formatIfEmpty)
  }

  lemma KeptStep(cfg: seq<Disk>, s: State, e: Obs, i: nat)
    requires Distinct(cfg) && PhaseInv(cfg, s) && Next(cfg, s, e).Some? && !Overwrites(cfg, s, e, i)
    requires i < |cfg| && Kept(cfg, s.p, i)
    ensures Kept(cfg, Next(cfg, s, e).value.p, i)
    ensures Next(cfg, s, e).value.p.media[cfg[i].device] == s.p.media[cfg[i].device]
  {
  }

  /** So data survives: whatever happens in however many boots and crashes, such a disk keeps
      its header, its key and its file system, unless the header is formatted over. */
  lemma {:induction false} DataSurvives(cfg: seq<Disk>, s: State, log: seq<Obs>, i: nat)
    requires Distinct(cfg) && PhaseInv(cfg, s) && Run(cfg, s, log).Some? && !Overwritten(cfg, s, log, i)
    requires i < |cfg| && Kept(cfg, s.p, i)
    ensures var q := Run(cfg, s, log).value.p;
            Kept(cfg, q, i) && q.media[cfg[i].device] == s.p.media[cfg[i].device]
    decreases |log|
  {
    if log != [] {
      var before := log[..|log| - 1];
      NotOverwrittenBefore(cfg, s, log, i);
      DataSurvives(cfg, s, before, i);
      PhaseInvHolds(cfg, s, before);
      KeptStep(cfg, Run(cfg, s, before).value, log[|log| - 1], i);
    }
  }

  /** The code has no way to write disk `i`: it is not to be formatted, or is a plain disk
      without an mkfs command. */
  predicate Unwritable(d: Disk) {
    !d.formatIfEmpty || (d.encrypt.None? && d.mkfs.None?)
  }

  /** What `device` carries in `q` is what it carries in `p`. */
  predicate SameMedium(p: Platform, q: Platform, device: string) {
    && (device in p.media <==> device in q.media)
    && (device in p.media ==> q.media[device] == p.media[device])
  }

  lemma UnwritableStep(cfg: seq<Disk>, s: State, e: Obs, i: nat)
    requires Distinct(cfg) && PhaseInv(cfg, s) && Next(cfg, s, e).Some?
    requires i < |cfg| && Unwritable(cfg[i])
    ensures SameMedium(s.p, Next(cfg, s, e).value.p, cfg[i].device)
  {
  }

  /** Whatever `isLuks` says: such a disk, encrypted or plain, with a header or without, is never
      written. */
  lemma {:induction false} NeverWrittenUnasked(cfg: seq<Disk>, s: State, log: seq<Obs>, i: nat)
    requires Distinct(cfg) && PhaseInv(cfg, s) && Run(cfg, s, log).Some?
    requires i < |cfg| && Unwritable(cfg[i])
    ensures SameMedium(s.p, Run(cfg, s, log).value.p, cfg[i].device)
    decreases |log|
  {
    if log != [] {
      NeverWrittenUnasked(cfg, s, log[..|log| - 1], i);
      PhaseInvHolds(cfg, s, log[..|log| - 1]);
      UnwritableStep(cfg, Run(cfg, s, log[..|log| - 1]).value, log[|log| - 1], i);
    }
  }

  // ---- what happened in a log ----

  function PhaseAt(cfg: seq<Disk>, s: State, log: seq<Obs>): Phase {
    var at := Run(cfg, s, log);
    if at.Some? then at.value.phase else Failed
  }

  /** The header of disk `i` was written in this log. */
  ghost predicate HeaderWritten(cfg: seq<Disk>, s: State, log: seq<Obs>, i: nat) {
    exists u | 0 <= u < |log| :: log[u] == LuksFormat(Performed) && PhaseAt(cfg, s, log[..u]) == Formatting(i)
  }

  lemma HeaderWrittenSnoc(cfg: seq<Disk>, s: State, log: seq<Obs>, e: Obs, i: nat)
    ensures HeaderWritten(cfg, s, log + [e], i) <==>
            HeaderWritten(cfg, s, log, i) || (e == LuksFormat(Performed) && PhaseAt(cfg, s, log) == Formatting(i))
  {
    var all := log + [e];
    assert all[|log|] == e && all[..|log|] == log;
    if u :| 0 <= u < |log| && log[u] == LuksFormat(Performed) && PhaseAt(cfg, s, log[..u]) == Formatting(i) {
      assert all[u] == log[u] && all[..u] == log[..u];
    }
    if u :| 0 <= u < |all| && all[u] == LuksFormat(Performed) && PhaseAt(cfg, s, all[..u]) == Formatting(i) {
      assert u < |log| ==> all[u] == log[u] && all[..u] == log[..u];
    }
  }

  /** A file system is made behind a mapping only in the boot that wrote the header of that
      same disk. */
  lemma {:induction false} MkfsFollowsFormat(cfg: seq<Disk>, s: State, log: seq<Obs>, s': State)
    requires PhaseInv(cfg, s) && s.phase == Enter(cfg, 0) && Run(cfg, s, log) == Some(s')
    requires PowerCycleFree(log) && Provisioning(cfg, s'.phase)
    ensures HeaderWritten(cfg, s, log, SlotOf(s'.phase))
    decreases |log|
  {
    if log != [] {
      var before, e := log[..|log| - 1], log[|log| - 1];
      assert e in log && before + [e] == log && forall x | x in before :: x in log;
      var m := Run(cfg, s, before).value;
      PhaseInvHolds(cfg, s, before);
      ProvisioningBegins(cfg, m, e);
      if Provisioning(cfg, m.phase) {
        MkfsFollowsFormat(cfg, s, before, m);
      }
      HeaderWrittenSnoc(cfg, s, before, e, SlotOf(s'.phase));
    }
  }

  lemma ProvisioningBegins(cfg: seq<Disk>, s: State, e: Obs)
    requires PhaseInv(cfg, s) && Next(cfg, s, e).Some? && !e.PowerCycle?
    requires Provisioning(cfg, Next(cfg, s, e).value.phase)
    ensures var i := SlotOf(Next(cfg, s, e).value.phase);
            || (Provisioning(cfg, s.phase) && SlotOf(s.phase) == i)
            || (e == LuksFormat(Performed) && s.phase == Formatting(i))
  {
  }

  ghost predicate MadeFs(log: seq<Obs>) {
    exists made :: Mkfs(made, Performed) in log
  }

  /** During and after the turn of plain disk `i`, within one boot. */
  ghost predicate PlainTurn(cfg: seq<Disk>, s: State, tail: seq<Obs>, s': State, i: nat)
    requires i < |cfg|
  {
    var format := cfg[i].formatIfEmpty && !HasExtMagic(s.p, cfg[i].device);
    Live(cfg, s'.phase) ==>
      && SlotOf(s'.phase) >= i
      && (SlotOf(s'.phase) == i ==>
            match s'.phase
            case Checking(_) => s'.p == s.p && cfg[i].formatIfEmpty && !MadeFs(tail)
            case MakingFs(_) => s'.p == s.p && format && !MadeFs(tail)
            case Mounting(_) => MadeFs(tail) <==> format
            case _ => false)
  }

  lemma MadeFsSnoc(log: seq<Obs>, e: Obs)
    ensures MadeFs(log + [e]) <==> MadeFs(log) || (e.Mkfs? && e.outcome.Performed?)
  {
    if made :| Mkfs(made, Performed) in log { assert Mkfs(made, Performed) in log + [e]; }
    if e.Mkfs? && e.outcome.Performed? { assert Mkfs(e.made, Performed) in log + [e]; }
  }

  lemma PlainTurnStep(cfg: seq<Disk>, s: State, tail: seq<Obs>, m: State, e: Obs, i: nat)
    requires i < |cfg| && cfg[i].encrypt.None? && PlainTurn(cfg, s, tail, m, i)
    requires !e.PowerCycle? && Next(cfg, m, e).Some?
    ensures PlainTurn(cfg, s, tail + [e], Next(cfg, m, e).value, i)
  {
    MadeFsSnoc(tail, e);
  }

  /** A plain disk, from the moment its turn comes in a boot to the moment it is to be
      mounted, is formatted exactly when it is to be formatted and does not carry the ext
      magic. A file system of another kind is therefore made anew at every boot. */
  lemma {:induction false} PlainIsFormattedExactly(cfg: seq<Disk>, s: State, tail: seq<Obs>, s': State, i: nat)
    requires i < |cfg| && cfg[i].encrypt.None? && s.phase == Enter(cfg, i)
    requires PowerCycleFree(tail) && Run(cfg, s, tail) == Some(s')
    ensures PlainTurn(cfg, s, tail, s', i)
    ensures s'.phase == Mounting(i) ==> (MadeFs(tail) <==> cfg[i].formatIfEmpty && !HasExtMagic(s.p, cfg[i].device))
    decreases |tail|
  {
    if tail != [] {
      var before, e := tail[..|tail| - 1], tail[|tail| - 1];
      assert before + [e] == tail && e in tail && forall x | x in before :: x in tail;
      var m := Run(cfg, s, before).value;
      PlainIsFormattedExactly(cfg, s, before, m, i);
      PlainTurnStep(cfg, s, before, m, e, i);
    }
  }

  // ---- encrypted disks ----

  /** During and after the turn of encrypted disk `i`, within one boot. */
  ghost predicate EncryptedTurn(cfg: seq<Disk>, s: State, tail: seq<Obs>, s': State, i: nat)
    requires i < |cfg|
  {
    var formatted := LuksFormat(Performed) in tail;
    var empty := tail != [] && tail[0] == IsLuks(Some(false));
    var looked := tail != [] && (empty || HasHeader(s.p, cfg[i].device));
    Live(cfg, s'.phase) ==>
      && SlotOf(s'.phase) >= i
      && (SlotOf(s'.phase) == i ==>
            match s'.phase
            case Deciding(_) => tail == [] && s' == s
            case Unsealing(_) => looked && !formatted && !empty
            case Opening(_, false) => looked && !formatted && !empty
            case Keying(_) => empty && !formatted
            case Formatting(_) => empty && !formatted
            case Cleaning(_, true) => true
            case Cleaning(_, false) => looked && (formatted <==> empty) && HasHeader(s'.p, cfg[i].device)
            case Mounting(_) => looked && (formatted <==> empty) && HasHeader(s'.p, cfg[i].device)
            case Checking(_) => false
            case _ => empty && formatted)
  }

  lemma EncryptedTurnStep(cfg: seq<Disk>, s: State, tail: seq<Obs>, m: State, e: Obs, i: nat)
    requires i < |cfg| && cfg[i].encrypt.Some? && EncryptedTurn(cfg, s, tail, m, i)
    requires !e.PowerCycle? && Next(cfg, m, e).Some?
    ensures EncryptedTurn(cfg, s, tail + [e], Next(cfg, m, e).value, i)
  {
    assert tail != [] ==> (tail + [e])[0] == tail[0];
    assert forall x :: x in tail + [e] <==> x in tail || x == e;
  }

  lemma {:induction false} EncryptedTurnHolds(cfg: seq<Disk>, s: State, tail: seq<Obs>, s': State, i: nat)
    requires i < |cfg| && cfg[i].encrypt.Some? && s.phase == Enter(cfg, i)
    requires PowerCycleFree(tail) && Run(cfg, s, tail) == Some(s')
    ensures EncryptedTurn(cfg, s, tail, s', i)
    decreases |tail|
  {
    if tail != [] {
      var before, e := tail[..|tail| - 1], tail[|tail| - 1];
      assert before + [e] == tail && e in tail && forall x | x in before :: x in tail;
      var m := Run(cfg, s, before).value;
      EncryptedTurnHolds(cfg, s, before, m, i);
      EncryptedTurnStep(cfg, s, before, m, e, i);
    }
  }

  /** An encrypted disk whose turn in a boot goes through was formatted in it exactly when it had
      no header, or `isLuks` failed over the header. What else it carried is not looked at. */
  lemma EncryptedIsFormattedExactly(cfg: seq<Disk>, s: State, tail: seq<Obs>, s': State, i: nat)
    requires i < |cfg| && cfg[i].encrypt.Some? && s.phase == Enter(cfg, i)
    requires PowerCycleFree(tail) && Run(cfg, s, tail) == Some(s') && s'.phase == Mounting(i)
    ensures tail != [] && HasHeader(s'.p, cfg[i].device)
    ensures LuksFormat(Performed) in tail <==> !HasHeader(s.p, cfg[i].device) || Misled(cfg, s, tail[0])
  {
    EncryptedTurnHolds(cfg, s, tail, s', i);
    PrefixRuns(cfg, s, tail, 0);
    assert tail[..0] == [];
  }

  /** So an ext file system there is gone when the turn is through. */
  lemma EncryptedOverwritesExt(cfg: seq<Disk>, s: State, tail: seq<Obs>, s': State, i: nat)
    requires i < |cfg| && cfg[i].encrypt.Some? && s.phase == Enter(cfg, i) && HasExtMagic(s.p, cfg[i].device)
    requires PowerCycleFree(tail) && Run(cfg, s, tail) == Some(s') && s'.phase == Mounting(i)
    ensures LuksFormat(Performed) in tail && !HasExtMagic(s'.p, cfg[i].device)
  {
    EncryptedIsFormattedExactly(cfg, s, tail, s', i);
  }
}
