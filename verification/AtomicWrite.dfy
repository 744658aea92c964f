/** `write_atomic` as the sequence of calls it makes, cut off anywhere, and what that does
    to the directory: it is an assignment to one file, and a series of them is published
    in order. */
module AtomicWrite {
  import opened Storage

  /** How far one `write_atomic` got. Of create, write, fsync and rename the first `steps`
      succeeded, and then one was refused (`failed`) or the process died; or the rename was
      done and the directory sync, if it was reached, put `flush` pending operations on disk. */
  datatype Fate =
    | Stopped(steps: nat, failed: bool)
    | Renamed(flush: Option<nat>)

  function Calls<C>(name: string, content: C): seq<Event<C>> {
    var t := TempOf(name);
    [Create(t, true), Write(t, content, true), Fsync(t, true), Rename(t, name, true)]
  }

  function Refused<C>(e: Event<C>): Event<C> {
    match e
    case Create(n, _) => Create(n, false)
    case Write(n, c, _) => Write(n, c, false)
    case Fsync(n, _) => Fsync(n, false)
    case Rename(a, b, _) => Rename(a, b, false)
    case _ => e
  }

  function AtomicEvents<C>(name: string, content: C, fate: Fate): seq<Event<C>> {
    var calls := Calls(name, content);
    match fate
    case Stopped(n, failed) =>
      var m := if n < 4 then n else 3;
      calls[..m] + (if failed then [Refused(calls[m])] else [])
    case Renamed(None) => calls
    case Renamed(Some(k)) => calls + [DirSync(k)]
  }

  lemma ReplaySnoc<C>(d: Dir<C>, es: seq<Event<C>>, e: Event<C>)
    ensures Replay(d, es + [e]) == Do(Replay(d, es), e)
  {
    ReplayConcat(d, es, [e]);
    assert Replay(Replay(d, es), [e]) == Do(Replay(d, es), e);
  }

  lemma ReplayCall<C>(d: Dir<C>, calls: seq<Event<C>>, m: nat)
    requires m < |calls|
    ensures Replay(d, calls[..m + 1]) == Do(Replay(d, calls[..m]), calls[m])
  {
    assert calls[..m + 1] == calls[..m] + [calls[m]];
    ReplaySnoc(d, calls[..m], calls[m]);
  }

  lemma ReplayRefused<C>(d: Dir<C>, name: string, content: C, m: nat)
    requires m <= 3
    ensures Replay(d, AtomicEvents(name, content, Stopped(m, true)))
         == Do(Replay(d, Calls(name, content)[..m]), Refused(Calls(name, content)[m]))
  {
    ReplaySnoc(d, Calls(name, content)[..m], Refused(Calls(name, content)[m]));
  }

  lemma ReplayRenamed<C>(d: Dir<C>, name: string, content: C)
    ensures Replay(d, AtomicEvents(name, content, Renamed(None)))
         == Do(Replay(d, Calls(name, content)[..3]), Calls(name, content)[3])
  {
    ReplayCall(d, Calls(name, content), 3);
    assert Calls(name, content)[..4] == Calls(name, content);
  }

  /** Before the rename nothing shows; at the rename the temporary file is whole and synced,
      whatever an earlier call left in it. */
  lemma {:induction false} CallsSoFar<C>(d: Dir<C>, name: string, content: C, m: nat)
    requires Wf(d) && !IsTemp(name) && m <= 3
    ensures var d' := Replay(d, Calls(name, content)[..m]);
            var t := TempOf(name);
            && Wf(d') && Current(d') == Current(d) && Images(d') == Images(d)
            && (m >= 1 ==> t in d'.visible)
            && (m == 2 ==> Lookup(d'.inodes, d'.visible[t]) == Inode(Whole(content), false))
            && (m == 3 ==> Lookup(d'.inodes, d'.visible[t]) == Inode(Whole(content), true))
  {
    TempOfIsTemp(name);
    if m > 0 {
      var calls := Calls(name, content);
      var before := Replay(d, calls[..m - 1]);
      CallsSoFar(d, name, content, m - 1);
      ReplayCall(d, calls, m - 1);
      DoKeepsWf(before, calls[m - 1]);
      TempCallKeepsImages(before, calls[m - 1]);
      assert Version(before, before.visible) && Bound(before, before.visible);
    }
  }

  /** `write_atomic` is an atomic assignment. Stopped before the rename, at any call, by an
      error or by the process dying, it changes no lasting file, visible or after a crash.
      Otherwise it puts the whole content under `name` and changes no other lasting file,
      and each image a crash can leave is an old one or exactly this new one. */
  lemma AtomicAssignment<C>(d: Dir<C>, name: string, content: C, fate: Fate)
    requires Wf(d) && !IsTemp(name)
    ensures var d' := Replay(d, AtomicEvents(name, content, fate));
            && Wf(d')
            && Current(d') in Images(d')
            && (fate.Stopped? ==> Current(d') == Current(d) && Images(d') == Images(d))
            && (fate.Renamed? ==>
                  && Current(d') == Current(d)[name := Inode(Whole(content), true)]
                  && Images(d') <= Images(d) + {Current(d')}
                  && (fate.flush == None ==> Images(d') == Images(d) + {Current(d')}))
  {
    var calls := Calls(name, content);
    TempOfIsTemp(name);
    match fate
    case Stopped(n, failed) =>
      var m := if n < 4 then n else 3;
      CallsSoFar(d, name, content, m);
      if failed {
        var e := Refused(calls[m]);
        var before := Replay(d, calls[..m]);
        ReplaySnoc(d, calls[..m], e);
        DoKeepsWf(before, e);
        if m < 3 { TempCallKeepsImages(before, e); }
      } else {
        assert AtomicEvents(name, content, fate) == calls[..m];
      }
    case Renamed(flush) =>
      CallsSoFar(d, name, content, 3);
      ReplayCall(d, calls, 3);
      assert calls[..4] == calls;
      var before, done := Replay(d, calls[..3]), Replay(d, calls);
      DoKeepsWf(before, calls[3]);
      RenameAddsImage(before, TempOf(name), name);
      if flush.Some? {
        ReplaySnoc(d, calls, DirSync(flush.value));
        DoKeepsWf(done, DirSync(flush.value));
        DirSyncDropsImages(done, flush.value);
      }
  }

  /** The directory was synced, and the sync took everything that was pending. */
  predicate TookAll<C>(d: Dir<C>, name: string, content: C, fate: Fate) {
    fate.Renamed? && fate.flush.Some? && fate.flush.value >= |Replay(d, Calls(name, content)).older|
  }

  /** Then the new files are all that a crash can leave. */
  lemma FullSyncSettles<C>(d: Dir<C>, name: string, content: C, fate: Fate)
    requires Wf(d) && !IsTemp(name) && TookAll(d, name, content, fate)
    ensures var d' := Replay(d, AtomicEvents(name, content, fate));
            Images(d') == {Current(d)[name := Inode(Whole(content), true)]}
  {
    AtomicAssignment(d, name, content, Renamed(None));
    ReplaySnoc(d, Calls(name, content), DirSync(fate.flush.value));
    DirSyncDropsImages(Replay(d, Calls(name, content)), fate.flush.value);
  }

  lemma LastVersionStays<C>(d: Dir<C>, v: Names, k: nat)
    requires d.older != [] && d.older[|d.older| - 1] == v && k < |d.older|
    ensures Resolve(d.inodes, v) in Images(d) && Resolve(d.inodes, v) in Images(Do(d, DirSync(k)))
  {
    var older := d.older[k..];
    assert older[|older| - 1] == v;
  }

  /** And only then: short of that, a crash can still leave the files from before the write. */
  lemma PartialSyncKeepsOld<C>(d: Dir<C>, name: string, content: C, fate: Fate)
    requires Wf(d) && !IsTemp(name) && fate.Renamed? && !TookAll(d, name, content, fate)
    ensures Current(d) in Images(Replay(d, AtomicEvents(name, content, fate)))
  {
    var calls := Calls(name, content);
    var before, done := Replay(d, calls[..3]), Replay(d, calls);
    CallsSoFar(d, name, content, 3);
    ReplayCall(d, calls, 3);
    assert calls[..4] == calls;
    assert done.older == before.older + [before.visible] && done.inodes == before.inodes;
    LastVersionStays(done, before.visible, if fate.flush.Some? then fate.flush.value else 0);
    if fate.flush.Some? {
      ReplaySnoc(d, calls, DirSync(fate.flush.value));
    }
  }

  // ---- several files, one after the other ----

  datatype Assign<+C> = Assign(name: string, content: C)

  /** The files after the assignments of `plan`, in order. */
  ghost function Assigned<C>(f: Files<C>, plan: seq<Assign<C>>): Files<C>
    decreases |plan|
  {
    if plan == [] then f
    else Assigned(f[plan[0].name := Inode(Whole(plan[0].content), true)], plan[1..])
  }

  /** The first error, or the end of the process, ends the series. */
  predicate Series<C>(plan: seq<Assign<C>>, fates: seq<Fate>) {
    && |fates| <= |plan|
    && forall i | 0 <= i < |fates| - 1 :: fates[i].Renamed?
  }

  function Done(fates: seq<Fate>): nat {
    if fates == [] then 0 else if fates[|fates| - 1].Renamed? then |fates| else |fates| - 1
  }

  function SeriesEvents<C>(plan: seq<Assign<C>>, fates: seq<Fate>): seq<Event<C>>
    requires |fates| <= |plan|
    decreases |fates|
  {
    if fates == [] then []
    else AtomicEvents(plan[0].name, plan[0].content, fates[0]) + SeriesEvents(plan[1..], fates[1..])
  }

  /** The calls depend on the attempted part of the series only. */
  lemma {:induction false} SeriesOfPrefix<C>(plan: seq<Assign<C>>, other: seq<Assign<C>>, fates: seq<Fate>)
    requires |fates| <= |plan| && |fates| <= |other| && plan[..|fates|] == other[..|fates|]
    ensures SeriesEvents(plan, fates) == SeriesEvents(other, fates)
    decreases |fates|
  {
    if fates != [] {
      assert plan[0] == plan[..|fates|][0] && other[0] == other[..|fates|][0];
      assert plan[1..][..|fates| - 1] == plan[..|fates|][1..] == other[..|fates|][1..] == other[1..][..|fates| - 1];
      SeriesOfPrefix(plan[1..], other[1..], fates[1..]);
    }
  }

  lemma {:induction false} SeriesSnoc<C>(plan: seq<Assign<C>>, fates: seq<Fate>, fate: Fate)
    requires |fates| < |plan|
    ensures SeriesEvents(plan, fates + [fate])
         == SeriesEvents(plan, fates) + AtomicEvents(plan[|fates|].name, plan[|fates|].content, fate)
    decreases |fates|
  {
    if fates == [] {
      assert SeriesEvents(plan, [fate]) == AtomicEvents(plan[0].name, plan[0].content, fate) + SeriesEvents(plan[1..], []);
    } else {
      assert (fates + [fate])[1..] == fates[1..] + [fate];
      SeriesSnoc(plan[1..], fates[1..], fate);
    }
  }

  /** One more `write_atomic` after a completed part of the series. */
  lemma ReplaySeriesSnoc<C>(d: Dir<C>, plan: seq<Assign<C>>, fates: seq<Fate>, fate: Fate)
    requires |fates| < |plan|
    ensures Replay(d, SeriesEvents(plan, fates + [fate]))
         == Replay(Replay(d, SeriesEvents(plan, fates)), AtomicEvents(plan[|fates|].name, plan[|fates|].content, fate))
  {
    SeriesSnoc(plan, fates, fate);
    ReplayConcat(d, SeriesEvents(plan, fates), AtomicEvents(plan[|fates|].name, plan[|fates|].content, fate));
  }

  ghost predicate Lasting<C>(plan: seq<Assign<C>>) {
    forall a | a in plan :: !IsTemp(a.name)
  }

  /** `f` is `base` with some first part, of at most `n`, of the series done. */
  ghost predicate PartDone<C>(f: Files<C>, base: Files<C>, plan: seq<Assign<C>>, n: nat)
    requires n <= |plan|
  {
    exists j | 0 <= j <= n :: f == Assigned(base, plan[..j])
  }

  lemma AssignedStep<C>(f: Files<C>, plan: seq<Assign<C>>, j: nat)
    requires j < |plan|
    ensures Assigned(f, plan[..j + 1]) == Assigned(f[plan[0].name := Inode(Whole(plan[0].content), true)], plan[1..][..j])
  {
    assert plan[..j + 1][1..] == plan[1..][..j];
  }

  lemma PartDoneStep<C>(f: Files<C>, base: Files<C>, plan: seq<Assign<C>>, n: nat)
    requires n < |plan|
    requires PartDone(f, base[plan[0].name := Inode(Whole(plan[0].content), true)], plan[1..], n)
    ensures PartDone(f, base, plan, n + 1)
  {
    var next := base[plan[0].name := Inode(Whole(plan[0].content), true)];
    var j :| 0 <= j <= n && f == Assigned(next, plan[1..][..j]);
    AssignedStep(base, plan, j);
  }

  lemma SeriesTail<C>(d: Dir<C>, plan: seq<Assign<C>>, fates: seq<Fate>)
    requires Series(plan, fates) && Lasting(plan) && fates != []
    ensures !IsTemp(plan[0].name) && Series(plan[1..], fates[1..]) && Lasting(plan[1..])
    ensures Replay(d, SeriesEvents(plan, fates))
         == Replay(Replay(d, AtomicEvents(plan[0].name, plan[0].content, fates[0])), SeriesEvents(plan[1..], fates[1..]))
    ensures fates[0].Stopped? ==> fates[1..] == [] && Done(fates) == 0
    ensures fates[0].Renamed? ==> Done(fates) == Done(fates[1..]) + 1
  {
    ReplayConcat(d, AtomicEvents(plan[0].name, plan[0].content, fates[0]), SeriesEvents(plan[1..], fates[1..]));
    assert plan[0] in plan && forall a | a in plan[1..] :: a in plan;
  }

  /** The first assignment, then `n` more of the rest. */
  lemma OneMorePublished<C>(d: Dir<C>, plan: seq<Assign<C>>, mid: Dir<C>, d': Dir<C>, n: nat)
    requires n < |plan|
    requires Current(mid) == Current(d)[plan[0].name := Inode(Whole(plan[0].content), true)]
    requires Images(mid) <= Images(d) + {Current(mid)}
    requires Current(d') == Assigned(Current(mid), plan[1..][..n])
    requires forall f | f in Images(d') :: f in Images(mid) || PartDone(f, Current(mid), plan[1..], n)
    ensures Current(d') == Assigned(Current(d), plan[..n + 1])
    ensures forall f | f in Images(d') :: f in Images(d) || PartDone(f, Current(d), plan, n + 1)
  {
    AssignedStep(Current(d), plan, n);
    forall f | f in Images(d') && f !in Images(d) ensures PartDone(f, Current(d), plan, n + 1) {
      LaterImage(f, Current(d), plan, n);
    }
  }

  lemma LaterImage<C>(f: Files<C>, base: Files<C>, plan: seq<Assign<C>>, n: nat)
    requires n < |plan|
    requires var next := base[plan[0].name := Inode(Whole(plan[0].content), true)];
             f == next || PartDone(f, next, plan[1..], n)
    ensures PartDone(f, base, plan, n + 1)
  {
    var next := base[plan[0].name := Inode(Whole(plan[0].content), true)];
    if f == next {
      assert f == Assigned(next, plan[1..][..0]);
    }
    PartDoneStep(f, base, plan, n);
  }

  /** Files written one after the other are published in order: whatever was refused or cut
      off, each image a crash can leave is an old one or has a first part of the series done,
      and the visible files have exactly the completed part. */
  lemma {:induction false} OrderedPublication<C>(d: Dir<C>, plan: seq<Assign<C>>, fates: seq<Fate>)
    requires Wf(d) && Series(plan, fates) && Lasting(plan)
    ensures var d' := Replay(d, SeriesEvents(plan, fates));
            && Wf(d')
            && Current(d') == Assigned(Current(d), plan[..Done(fates)])
            && forall f | f in Images(d') :: f in Images(d) || PartDone(f, Current(d), plan, Done(fates))
    decreases |fates|
  {
    if fates == [] {
      assert plan[..0] == [] && Replay(d, SeriesEvents(plan, fates)) == d;
    } else {
      var mid := Replay(d, AtomicEvents(plan[0].name, plan[0].content, fates[0]));
      SeriesTail(d, plan, fates);
      AtomicAssignment(d, plan[0].name, plan[0].content, fates[0]);
      if fates[0].Stopped? {
        assert plan[..0] == [] && Replay(mid, []) == mid;
      } else {
        OrderedPublication(mid, plan[1..], fates[1..]);
        OneMorePublished(d, plan, mid, Replay(d, SeriesEvents(plan, fates)), Done(fates[1..]));
      }
    }
  }

  /** No directory sync took effect in this series. */
  ghost predicate Unsynced(fates: seq<Fate>) {
    forall i | 0 <= i < |fates| :: fates[i] == Renamed(None)
  }

  /** Then each first part of it is still among the images. */
  lemma {:induction false} UnsyncedPartsRemain<C>(d: Dir<C>, plan: seq<Assign<C>>, fates: seq<Fate>, j: nat)
    requires Wf(d) && Series(plan, fates) && Lasting(plan) && Unsynced(fates) && j <= |fates|
    ensures var d' := Replay(d, SeriesEvents(plan, fates));
            Images(d) <= Images(d') && Assigned(Current(d), plan[..j]) in Images(d')
    decreases |fates|
  {
    if fates == [] {
      assert plan[..j] == [];
    } else {
      var mid := Replay(d, AtomicEvents(plan[0].name, plan[0].content, fates[0]));
      SeriesTail(d, plan, fates);
      AtomicAssignment(d, plan[0].name, plan[0].content, fates[0]);
      assert Unsynced(fates[1..]);
      if j == 0 {
        UnsyncedPartsRemain(mid, plan[1..], fates[1..], 0);
        assert plan[..0] == [];
      } else {
        UnsyncedPartsRemain(mid, plan[1..], fates[1..], j - 1);
        AssignedStep(Current(d), plan, j - 1);
      }
    }
  }
}
