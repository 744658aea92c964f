/** The file calls of noded on one directory of the state volume. The kernel may refuse any
    of them, and keeps a record of calls and answers that only the kernel's methods extend. */
module Volumes {
  import opened Storage
  import opened AtomicWrite

  datatype Call<+C> =
    | MakeDirs(ok: bool)
    | OpenDir(ok: bool)
    | OpenFile(name: string, ok: bool)        // to read it
    | Touch(event: Event<C>)                  // anything that can change the directory

  predicate Failed<C>(c: Call<C>) {
    match c
    case MakeDirs(ok) => !ok
    case OpenDir(ok) => !ok
    case OpenFile(_, ok) => !ok
    case Touch(e) => (e.Create? || e.Write? || e.Fsync? || e.Rename?) && !e.ok
  }

  // ---- the calls of one `write_atomic` ----

  function Touches<C>(events: seq<Event<C>>): seq<Call<C>> {
    seq(|events|, i requires 0 <= i < |events| => Touch(events[i]))
  }

  /** All calls that a write with this fate makes. If it went through, it ends with a sync of
      the directory, or with the directory's refusal to be opened for that. */
  function WriteCalls<C>(name: string, content: C, fate: Fate): seq<Call<C>> {
    match fate
    case Stopped(_, false) => [MakeDirs(false)]
    case Stopped(_, true) => [MakeDirs(true)] + Touches(AtomicEvents(name, content, fate))
    case Renamed(None) => [MakeDirs(true)] + Touches(Calls(name, content)) + [OpenDir(false)]
    case Renamed(Some(k)) => [MakeDirs(true)] + Touches(Calls(name, content)) + [OpenDir(true), Touch(DirSync(k))]
  }

  /** A write that stopped made one call that failed, its last; a write that went through ends at
      the directory, with its sync or with the refusal to open it. */
  lemma WriteCallsEnd<C>(name: string, content: C, fate: Fate)
    ensures var c := WriteCalls(name, content, fate);
            && c != []
            && (forall i | 0 <= i < |c| - 1 :: !Failed(c[i]))
            && (fate.Stopped? ==> Failed(c[|c| - 1]))
            && (fate.Renamed? ==> c[|c| - 1] == OpenDir(false) || (c[|c| - 1].Touch? && c[|c| - 1].event.DirSync?))
  {
  }

  function PublishCalls<C>(name: string, content: C, fate: Fate): seq<Call<C>> {
    var rename := Calls(name, content)[3];
    match fate
    case Stopped(_, _) => [Touch(Refused(rename))]
    case Renamed(None) => [Touch(rename), OpenDir(false)]
    case Renamed(Some(k)) => [Touch(rename), OpenDir(true), Touch(DirSync(k))]
  }

  lemma WriteCallsSplit<C>(name: string, content: C, fate: Fate)
    requires fate.Renamed? || fate == Stopped(3, true)
    ensures WriteCalls(name, content, fate)
         == [MakeDirs(true)] + Touches(Calls(name, content)[..3]) + PublishCalls(name, content, fate)
  {
    var program := Calls(name, content);
    assert Touches(program) == Touches(program[..3]) + [Touch(program[3])];
    assert AtomicEvents(name, content, Stopped(3, true)) == program[..3] + [Refused(program[3])];
  }

  /** After `m` calls, and one more that went through or did not. */
  lemma CallsDone<C>(d: Dir<C>, c: seq<Call<C>>, name: string, content: C, m: nat)
    requires m <= 3
    ensures var program := Calls(name, content);
            && (m == 0 ==> Replay(d, program[..0]) == d && c + Touches(program[..0]) == c)
            && (m > 0 ==>
                  var at, past := Replay(d, program[..m - 1]), c + Touches(program[..m - 1]);
                  var refused := AtomicEvents(name, content, Stopped(m - 1, true));
                  && Replay(d, program[..m]) == Do(at, program[m - 1])
                  && c + Touches(program[..m]) == past + [Touch(program[m - 1])]
                  && Replay(d, refused) == Do(at, Refused(program[m - 1]))
                  && c + Touches(refused) == past + [Touch(Refused(program[m - 1]))])
  {
    var program := Calls(name, content);
    if m > 0 {
      ReplayCall(d, program, m - 1);
      ReplayRefused(d, name, content, m - 1);
      TouchesSnoc(program[..m - 1], program[m - 1]);
      TouchesSnoc(program[..m - 1], Refused(program[m - 1]));
      assert program[..m - 1] + [program[m - 1]] == program[..m];
    }
  }

  lemma TouchesSnoc<C>(events: seq<Event<C>>, e: Event<C>)
    ensures Touches(events + [e]) == Touches(events) + [Touch(e)]
  {
  }

  lemma NoCalls<C>(d: Dir<C>, name: string, content: C)
    ensures Replay(d, AtomicEvents(name, content, Stopped(0, false))) == d
  {
    assert AtomicEvents(name, content, Stopped(0, false)) == [];
  }

  lemma Regrouped<T>(a: seq<T>, b: seq<T>, c: seq<T>, d: seq<T>)
    ensures a + b + c + d == a + (b + c + d)
    ensures d == [] ==> a + b + c == a + (b + c)
  {
  }

  class Volume<C(0)> {
    var dir: Dir<C>
    ghost var calls: seq<Call<C>>
    ghost var failures: nat       // how many of them failed

    constructor (found: Dir<C>)
      ensures dir == found && calls == [] && failures == 0
    {
      dir, calls, failures := found, [], 0;
    }

    // ---- the kernel ----

    ghost method Record(c: Call<C>)
      modifies `calls, `failures
      ensures calls == old(calls) + [c]
      ensures failures == old(failures) + if Failed(c) then 1 else 0
    {
      calls := calls + [c];
      if Failed(c) { failures := failures + 1; }
    }

    method CreateDirAll() returns (ok: bool)
      modifies `calls, `failures
      ensures calls == old(calls) + [MakeDirs(ok)]
      ensures failures == old(failures) + if ok then 0 else 1
    {
      ok := *;
      Record(MakeDirs(ok));
    }

    method OpenTruncated(name: string) returns (ok: bool)
      modifies this
      ensures dir == Do(old(dir), Create(name, ok))
      ensures calls == old(calls) + [Touch(Create(name, ok))]
      ensures failures == old(failures) + if ok then 0 else 1
    {
      ok := *;
      dir := Do(dir, Create(name, ok));
      Record(Touch(Create(name, ok)));
    }

    method WriteAll(name: string, content: C) returns (ok: bool)
      modifies this
      ensures dir == Do(old(dir), Write(name, content, ok))
      ensures calls == old(calls) + [Touch(Write(name, content, ok))]
      ensures failures == old(failures) + if ok then 0 else 1
    {
      ok := *;
      dir := Do(dir, Write(name, content, ok));
      Record(Touch(Write(name, content, ok)));
    }

    method SyncAll(name: string) returns (ok: bool)
      modifies this
      ensures dir == Do(old(dir), Fsync(name, ok))
      ensures calls == old(calls) + [Touch(Fsync(name, ok))]
      ensures failures == old(failures) + if ok then 0 else 1
    {
      ok := *;
      dir := Do(dir, Fsync(name, ok));
      Record(Touch(Fsync(name, ok)));
    }

    method RenameTo(from: string, to: string) returns (ok: bool)
      modifies this
      ensures dir == Do(old(dir), Rename(from, to, ok))
      ensures calls == old(calls) + [Touch(Rename(from, to, ok))]
      ensures failures == old(failures) + if ok then 0 else 1
    {
      ok := *;
      dir := Do(dir, Rename(from, to, ok));
      Record(Touch(Rename(from, to, ok)));
    }

    method OpenDirectory() returns (ok: bool)
      modifies `calls, `failures
      ensures calls == old(calls) + [OpenDir(ok)]
      ensures failures == old(failures) + if ok then 0 else 1
    {
      ok := *;
      Record(OpenDir(ok));
    }

    /** The caller never learns how much this put on disk. */
    method SyncDirectory() returns (ghost upto: nat)
      modifies this
      ensures dir == Do(old(dir), DirSync(upto))
      ensures calls == old(calls) + [Touch(DirSync(upto))]
      ensures failures == old(failures)
    {
      var k: nat := *;
      dir := Do(dir, DirSync(k));
      upto := k;
      Record(Touch(DirSync(k)));
    }

    /** A file's content; a torn file reads as anything, now this and now that. */
    method ReadFile(name: string) returns (found: Option<C>)
      modifies `calls, `failures
      ensures found.Some? ==> Reads(Current(dir), name, found.value)
      ensures calls == old(calls) + [OpenFile(name, found.Some?)]
      ensures failures == old(failures) + if found.Some? then 0 else 1
    {
      found := None;
      if name in dir.visible && !IsTemp(name) {
        var inode := Lookup(dir.inodes, dir.visible[name]);
        var readable: bool, bytes: C := *, *;
        found := if !readable then None else if inode.data.Torn? then Some(bytes) else Some(inode.data.content);
      }
      Record(OpenFile(name, found.Some?));
    }

    // ---- the code ----

    /** The part before the rename: a complete, synced temporary file beside the target. */
    method Stage(name: string, content: C) returns (ok: bool, ghost steps: nat)
      modifies this
      ensures steps <= 3 && (ok ==> steps == 3)
      ensures dir == Replay(old(dir), if ok then Calls(name, content)[..3] else AtomicEvents(name, content, Stopped(steps, true)))
      ensures calls == old(calls) + Touches(if ok then Calls(name, content)[..3] else AtomicEvents(name, content, Stopped(steps, true)))
      ensures failures == old(failures) + if ok then 0 else 1
    {
      ghost var d0, c0 := dir, calls;
      var t := TempOf(name);
      CallsDone(d0, c0, name, content, 0);
      steps := 0;
      ok := OpenTruncated(t);
      CallsDone(d0, c0, name, content, 1);
      if ok {
        steps := 1;
        ok := WriteAll(t, content);
        CallsDone(d0, c0, name, content, 2);
      }
      if ok {
        steps := 2;
        ok := SyncAll(t);
        CallsDone(d0, c0, name, content, 3);
      }
      if ok { steps := 3; }
    }

    /** The rename, and the directory sync as far as the directory opens. */
    method Publish(name: string, content: C, ghost d0: Dir<C>) returns (ok: bool, ghost fate: Fate)
      requires dir == Replay(d0, Calls(name, content)[..3])
      modifies this
      ensures if ok then fate.Renamed? else fate == Stopped(3, true)
      ensures dir == Replay(d0, AtomicEvents(name, content, fate))
      ensures calls == old(calls) + PublishCalls(name, content, fate)
      ensures failures == old(failures) + if ok && fate.flush.Some? then 0 else 1
    {
      ok := RenameTo(TempOf(name), name);
      if ok {
        fate := Renamed(None);
        ReplayRenamed(d0, name, content);
        var reached := OpenDirectory();
        if reached {
          ghost var k := SyncDirectory();
          fate := Renamed(Some(k));
          ReplaySnoc(d0, Calls(name, content), DirSync(k));
        }
      } else {
        fate := Stopped(3, true);
        ReplayRefused(d0, name, content, 3);
      }
    }

    method WriteSteps(name: string, content: C) returns (ok: bool, ghost fate: Fate)
      modifies this
      ensures ok == fate.Renamed?
      ensures dir == Replay(old(dir), AtomicEvents(name, content, fate))
      ensures calls == old(calls) + WriteCalls(name, content, fate)
      ensures failures == old(failures) + if ok && fate.flush.Some? then 0 else 1
    {
      ghost var d0, c0 := dir, calls;
      ok := CreateDirAll();
      if !ok {
        fate := Stopped(0, false);
        NoCalls(d0, name, content);
        return;
      }
      ghost var steps;
      ok, steps := Stage(name, content);
      if ok {
        ghost var staged := Touches(Calls(name, content)[..3]);
        ok, fate := Publish(name, content, d0);
        WriteCallsSplit(name, content, fate);
        Regrouped(c0, [MakeDirs(true)], staged, PublishCalls(name, content, fate));
      } else {
        fate := Stopped(steps, true);
        Regrouped(c0, [MakeDirs(true)], Touches(AtomicEvents(name, content, fate)), []);
      }
    }

    /** Temp file, fsync, rename, directory fsync. It makes the calls of its fate and no others, so
        after Ok the last one synced the directory, or was the refusal to open it; it fails
        only after a refusal; and if the sync took everything, the new files are all that a
        power loss can leave. */
    method WriteAtomic(name: string, content: C) returns (ok: bool, ghost fate: Fate)
      requires Wf(dir) && !IsTemp(name)
      modifies this
      ensures ok == fate.Renamed?
      ensures dir == Replay(old(dir), AtomicEvents(name, content, fate))
      ensures calls == old(calls) + WriteCalls(name, content, fate)
      ensures Wf(dir)
      ensures !ok ==> Current(dir) == Current(old(dir)) && Images(dir) == Images(old(dir))
      ensures ok ==>
                && Current(dir) == Current(old(dir))[name := Inode(Whole(content), true)]
                && Images(dir) <= Images(old(dir)) + {Current(dir)}
      ensures TookAll(old(dir), name, content, fate) ==> Images(dir) == {Current(dir)}
      ensures failures == old(failures) + if ok && fate.flush.Some? then 0 else 1
    {
      ok, fate := WriteSteps(name, content);
      Settle(old(dir), name, content, fate);
    }
  }

  lemma Settle<C>(d: Dir<C>, name: string, content: C, fate: Fate)
    requires Wf(d) && !IsTemp(name)
    ensures var d' := Replay(d, AtomicEvents(name, content, fate));
            && Wf(d')
            && (fate.Stopped? ==> Current(d') == Current(d) && Images(d') == Images(d))
            && (fate.Renamed? ==>
                  && Current(d') == Current(d)[name := Inode(Whole(content), true)]
                  && Images(d') <= Images(d) + {Current(d')})
            && (TookAll(d, name, content, fate) ==> Images(d') == {Current(d')})
  {
    AtomicAssignment(d, name, content, fate);
    if TookAll(d, name, content, fate) {
      FullSyncSettles(d, name, content, fate);
    }
  }
}
