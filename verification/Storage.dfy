/** One directory of the state volume, as a crash sees it.

    File data that was not synced is arbitrary after a power loss (`Torn`). Directory
    operations are ordered: each one appends a version of the name table, and a power loss
    keeps some version, so any prefix of the pending operations. `DirSync` drops a prefix
    of the versions; as its result is ignored by the caller, it may drop any number. */
module Storage {

  datatype Option<+T> = None | Some(value: T)

  datatype Data<+C> = Torn | Whole(content: C)

  /** What a reader sees now, and whether it is on stable storage. */
  datatype Inode<+C> = Inode(data: Data<C>, synced: bool)

  type Names = map<string, nat>

  /** `older` are the name tables a crash may still return to, oldest first. */
  datatype Dir<+C> = Dir(inodes: map<nat, Inode<C>>, older: seq<Names>, visible: Names, next: nat)

  datatype Event<+C> =
    | Create(name: string, ok: bool)               // open(write, create, truncate)
    | Write(name: string, content: C, ok: bool)    // write_all on the file just opened
    | Fsync(name: string, ok: bool)
    | Rename(from: string, to: string, ok: bool)
    | DirSync(upto: nat)
    | Crash(keep: nat)                             // power loss

  /** Files by name: the part of a version that is not a temporary file. */
  type Files<C> = map<string, Inode<C>>

  function TempOf(name: string): string {
    "." + name + ".tmp"
  }

  predicate IsTemp(name: string) {
    |name| >= 5 && name[0] == '.' && name[|name| - 4..] == ".tmp"
  }

  lemma TempOfIsTemp(name: string)
    ensures IsTemp(TempOf(name))
  {
    assert TempOf(name)[|TempOf(name)| - 4..] == ".tmp";
  }

  /** Two files of one directory never share a temporary file. */
  lemma TempOfInjective(a: string, b: string)
    requires TempOf(a) == TempOf(b)
    ensures a == b
  {
    assert a == TempOf(a)[1..|a| + 1];
    assert b == TempOf(b)[1..|b| + 1];
  }

  // ---- the kernel's side: what each call does ----

  function Hardened<C>(i: Inode<C>): Inode<C> {
    if i.synced then i else Inode(Torn, true)
  }

  function Do<C>(d: Dir<C>, e: Event<C>): Dir<C> {
    match e
    case Create(n, ok) =>
      if !ok then d
      else if n in d.visible then d.(inodes := d.inodes[d.visible[n] := Inode(Torn, false)])
      else Dir(d.inodes[d.next := Inode(Torn, false)], d.older + [d.visible], d.visible[n := d.next], d.next + 1)
    case Write(n, c, ok) =>
      if n in d.visible
      then d.(inodes := d.inodes[d.visible[n] := Inode(if ok then Whole(c) else Torn, false)])
      else d
    case Fsync(n, ok) =>
      if ok && n in d.visible && d.visible[n] in d.inodes
      then d.(inodes := d.inodes[d.visible[n] := d.inodes[d.visible[n]].(synced := true)])
      else d
    case Rename(a, b, ok) =>
      if ok && a in d.visible
      then d.(older := d.older + [d.visible], visible := (d.visible - {a})[b := d.visible[a]])
      else d
    case DirSync(k) =>
      d.(older := if k <= |d.older| then d.older[k..] else [])
    case Crash(k) =>
      Dir(map i | i in d.inodes :: Hardened(d.inodes[i]), [], if k < |d.older| then d.older[k] else d.visible, d.next)
  }

  function Replay<C>(d: Dir<C>, es: seq<Event<C>>): Dir<C>
    decreases |es|
  {
    if es == [] then d else Replay(Do(d, es[0]), es[1..])
  }

  lemma {:induction false} ReplayConcat<C>(d: Dir<C>, a: seq<Event<C>>, b: seq<Event<C>>)
    ensures Replay(d, a + b) == Replay(Replay(d, a), b)
    decreases |a|
  {
    if a == [] {
      assert a + b == b;
    } else {
      assert (a + b)[0] == a[0] && (a + b)[1..] == a[1..] + b;
      ReplayConcat(Do(d, a[0]), a[1..], b);
    }
  }

  // ---- what a crash can leave behind ----

  ghost predicate Version<C>(d: Dir<C>, v: Names) {
    v == d.visible || v in d.older
  }

  function Lookup<C>(inodes: map<nat, Inode<C>>, i: nat): Inode<C> {
    if i in inodes then inodes[i] else Inode(Torn, false)
  }

  ghost function Resolve<C>(inodes: map<nat, Inode<C>>, v: Names): Files<C> {
    map n | n in v && !IsTemp(n) :: Lookup(inodes, v[n])
  }

  /** The file is whole, synced, and holds `content`. */
  ghost predicate Has<C>(f: Files<C>, name: string, content: C) {
    name in f && f[name] == Inode(Whole(content), true)
  }

  /** What a reader of a file gets: its content, or anything at all if it is torn. */
  ghost predicate Reads<C>(f: Files<C>, name: string, got: C) {
    name in f && (f[name].data.Whole? ==> f[name].data.content == got)
  }

  /** What the running system sees. */
  ghost function Current<C>(d: Dir<C>): Files<C> {
    Resolve(d.inodes, d.visible)
  }

  /** What a crash may return to (before unsynced data is lost). */
  ghost function Images<C>(d: Dir<C>): set<Files<C>> {
    (set v | v in d.older :: Resolve(d.inodes, v)) + {Current(d)}
  }

  ghost function AfterCrash<C>(f: Files<C>): Files<C> {
    map n | n in f :: Hardened(f[n])
  }

  ghost predicate Bound<C>(d: Dir<C>, v: Names) {
    forall n | n in v :: v[n] < d.next && v[n] in d.inodes
  }

  ghost predicate Injective(v: Names) {
    forall a, b | a in v && b in v && v[a] == v[b] :: a == b
  }

  /** An inode has at most one lasting name, in all versions together. */
  ghost predicate OneName(v: Names, w: Names) {
    forall a, b | a in v && b in w && !IsTemp(a) && !IsTemp(b) && v[a] == w[b] :: a == b
  }

  /** What the visible temporary names are bound to has no lasting name in `w`. */
  ghost predicate Isolated(visible: Names, w: Names) {
    forall t, n | t in visible && IsTemp(t) && n in w && !IsTemp(n) :: visible[t] != w[n]
  }

  ghost predicate Wf<C>(d: Dir<C>) {
    && (forall v | Version(d, v) :: Bound(d, v) && Injective(v) && Isolated(d.visible, v))
    && (forall v, w | Version(d, v) && Version(d, w) :: OneName(v, w))
  }

  /** A rename always takes a temporary file to a lasting name. */
  predicate Allowed<C>(e: Event<C>) {
    e.Rename? ==> IsTemp(e.from) && !IsTemp(e.to)
  }

  /** Only inode contents change: the name tables stay, or some of them go. */
  lemma FewerVersionsKeepWf<C>(d: Dir<C>, d': Dir<C>)
    requires Wf(d)
    requires Version(d, d'.visible) && d'.next == d.next && d.inodes.Keys <= d'.inodes.Keys
    requires d'.visible == d.visible || d'.older == []
    requires forall v | Version(d', v) :: Version(d, v)
    ensures Wf(d')
  {
    forall v | Version(d', v) ensures Bound(d', v) && Injective(v) && Isolated(d'.visible, v) {
      assert Version(d, v);
    }
    forall v, w | Version(d', v) && Version(d', w) ensures OneName(v, w) {
      assert Version(d, v) && Version(d, w);
    }
  }

  /** One more version, whose entries relate to every earlier version as they must. */
  lemma NewVersionKeepsWf<C>(d: Dir<C>, d': Dir<C>)
    requires Wf(d)
    requires d'.older == d.older + [d.visible] && d.next <= d'.next && d.inodes.Keys <= d'.inodes.Keys
    requires Bound(d', d'.visible) && Injective(d'.visible)
    requires forall v | Version(d, v) :: Isolated(d'.visible, v) && OneName(v, d'.visible) && OneName(d'.visible, v)
    ensures Wf(d')
  {
    forall v | Version(d', v) ensures Bound(d', v) && Injective(v) && Isolated(d'.visible, v) {
      if v != d'.visible { assert Version(d, v); }
    }
    forall v, w | Version(d', v) && Version(d', w) ensures OneName(v, w) {
      if v != d'.visible { assert Version(d, v); }
      if w != d'.visible { assert Version(d, w); }
    }
  }

  lemma FreshNameKeepsWf<C>(d: Dir<C>, n: string)
    requires Wf(d) && n !in d.visible
    ensures Wf(Do(d, Create(n, true)))
  {
    var d' := Do(d, Create(n, true));
    forall v | Version(d, v) ensures Isolated(d'.visible, v) && OneName(v, d'.visible) && OneName(d'.visible, v) {
      assert Bound(d, v) && Isolated(d.visible, v) && OneName(v, d.visible) && OneName(d.visible, v);
    }
    assert Bound(d, d.visible) && Injective(d.visible);
    NewVersionKeepsWf(d, d');
  }

  lemma RenameKeepsWf<C>(d: Dir<C>, a: string, b: string)
    requires Wf(d) && a in d.visible && IsTemp(a) && !IsTemp(b)
    ensures Wf(Do(d, Rename(a, b, true)))
  {
    var d' := Do(d, Rename(a, b, true));
    forall v | Version(d, v) ensures Isolated(d'.visible, v) && OneName(v, d'.visible) && OneName(d'.visible, v) {
      assert Isolated(d.visible, v) && OneName(v, d.visible) && OneName(d.visible, v);
    }
    assert Bound(d, d.visible) && Injective(d.visible);
    NewVersionKeepsWf(d, d');
  }

  lemma DoKeepsWf<C>(d: Dir<C>, e: Event<C>)
    requires Wf(d) && Allowed(e)
    ensures Wf(Do(d, e))
  {
    match e
    case Create(n, ok) =>
      if ok && n !in d.visible { FreshNameKeepsWf(d, n); } else { FewerVersionsKeepWf(d, Do(d, e)); }
    case Rename(a, b, ok) =>
      if ok && a in d.visible { RenameKeepsWf(d, a, b); }
    case _ =>
      FewerVersionsKeepWf(d, Do(d, e));
  }

  lemma {:induction false} ReplayKeepsWf<C>(d: Dir<C>, es: seq<Event<C>>)
    requires Wf(d) && forall i | 0 <= i < |es| :: Allowed(es[i])
    ensures Wf(Replay(d, es))
    decreases |es|
  {
    if es != [] {
      assert Allowed(es[0]);
      DoKeepsWf(d, es[0]);
      ReplayKeepsWf(Do(d, es[0]), es[1..]);
    }
  }

  // ---- how the set of crash images moves ----

  lemma TempCallKeepsVersion<C>(d: Dir<C>, e: Event<C>, v: Names)
    requires Wf(d) && Version(d, v)
    requires (e.Create? || e.Write? || e.Fsync?) && IsTemp(e.name)
    ensures Resolve(Do(d, e).inodes, v) == Resolve(d.inodes, v)
  {
    assert Bound(d, v) && Isolated(d.visible, v);
  }

  /** Calls on a temporary file change nothing a crash can show under a lasting name. */
  lemma TempCallKeepsImages<C>(d: Dir<C>, e: Event<C>)
    requires Wf(d)
    requires (e.Create? || e.Write? || e.Fsync?) && IsTemp(e.name)
    ensures Current(Do(d, e)) == Current(d)
    ensures Images(Do(d, e)) == Images(d)
  {
    var d' := Do(d, e);
    forall v | Version(d, v) ensures Resolve(d'.inodes, v) == Resolve(d.inodes, v) {
      TempCallKeepsVersion(d, e, v);
    }
    assert Resolve(d'.inodes, d'.visible) == Resolve(d'.inodes, d.visible);
    assert d'.older == d.older || d'.older == d.older + [d.visible];
  }

  /** A rename adds one image: the visible files with the target replaced. */
  lemma RenameAddsImage<C>(d: Dir<C>, t: string, n: string)
    requires Wf(d) && t in d.visible && IsTemp(t) && !IsTemp(n)
    ensures Current(Do(d, Rename(t, n, true))) == Current(d)[n := Lookup(d.inodes, d.visible[t])]
    ensures Images(Do(d, Rename(t, n, true))) == Images(d) + {Current(Do(d, Rename(t, n, true)))}
  {
    var d' := Do(d, Rename(t, n, true));
    assert d'.older == d.older + [d.visible];
    assert Current(d') == Current(d)[n := Lookup(d.inodes, d.visible[t])];
  }

  lemma DirSyncDropsImages<C>(d: Dir<C>, k: nat)
    ensures Current(Do(d, DirSync(k))) == Current(d)
    ensures Images(Do(d, DirSync(k))) <= Images(d)
    ensures k >= |d.older| ==> Images(Do(d, DirSync(k))) == {Current(d)}
  {
  }

  /** The name table a power loss returns to. */
  function Kept<C>(d: Dir<C>, k: nat): Names {
    if k < |d.older| then d.older[k] else d.visible
  }

  /** After a power loss the files are one of the images, less what was not synced. */
  lemma CrashPicksImage<C>(d: Dir<C>, k: nat)
    requires Wf(d)
    ensures Resolve(d.inodes, Kept(d, k)) in Images(d)
    ensures Current(Do(d, Crash(k))) == AfterCrash(Resolve(d.inodes, Kept(d, k)))
    ensures Images(Do(d, Crash(k))) == {AfterCrash(Resolve(d.inodes, Kept(d, k)))}
  {
    assert Version(d, Kept(d, k)) && Bound(d, Kept(d, k));
    assert Current(Do(d, Crash(k))) == AfterCrash(Resolve(d.inodes, Kept(d, k)));
  }

  lemma ImageIsKept<C>(d: Dir<C>, f: Files<C>) returns (k: nat)
    requires f in Images(d)
    ensures f == Resolve(d.inodes, Kept(d, k))
  {
    if f == Current(d) {
      k := |d.older|;
    } else {
      var v :| v in d.older && Resolve(d.inodes, v) == f;
      k :| 0 <= k < |d.older| && d.older[k] == v;
    }
  }

  /** And every image can be the one that is left. */
  lemma EveryImageCanRemain<C>(d: Dir<C>, f: Files<C>) returns (k: nat)
    requires Wf(d) && f in Images(d)
    ensures Current(Do(d, Crash(k))) == AfterCrash(f)
  {
    k := ImageIsKept(d, f);
    CrashPicksImage(d, k);
  }

  /** `f'` is `f` but for `n`, under which it may hold what `now` holds. */
  ghost predicate DiffersIn<C>(f': Files<C>, f: Files<C>, n: string, now: Files<C>) {
    && f' - {n} == f - {n}
    && (f' == f || (n in f' && n in now && f'[n] == now[n]))
  }

  /** Rewriting one inode touches an image under one lasting name at most. */
  lemma OneInodeRewritten<C>(d: Dir<C>, inodes: map<nat, Inode<C>>, v: Names, n: string)
    requires Wf(d) && Version(d, v) && n in d.visible && !IsTemp(n)
    requires inodes.Keys == d.inodes.Keys
    requires forall i | i in inodes && i != d.visible[n] :: inodes[i] == d.inodes[i]
    ensures DiffersIn(Resolve(inodes, v), Resolve(d.inodes, v), n, Resolve(inodes, d.visible))
  {
    var f, f' := Resolve(d.inodes, v), Resolve(inodes, v);
    assert Bound(d, v) && OneName(v, d.visible) && Version(d, d.visible);
    forall m | m in f && m != n ensures f'[m] == f[m] {
      assert v[m] != d.visible[n];
    }
    assert f' - {n} == f - {n};
    if n !in f || v[n] != d.visible[n] {
      assert f' == f;
    }
  }

  lemma FreshInodeUnseen<C>(d: Dir<C>, i: Inode<C>, v: Names)
    requires Wf(d) && Version(d, v)
    ensures Resolve(d.inodes[d.next := i], v) == Resolve(d.inodes, v)
  {
    assert Bound(d, v);
  }

  lemma InPlaceVersion<C>(d: Dir<C>, e: Event<C>, v: Names)
    requires Wf(d) && Version(d, v)
    requires (e.Create? || e.Write? || e.Fsync?) && !IsTemp(e.name)
    ensures DiffersIn(Resolve(Do(d, e).inodes, v), Resolve(d.inodes, v), e.name, Current(Do(d, e)))
  {
    assert Version(d, d.visible) && Bound(d, d.visible);
    if e.name in d.visible {
      OneInodeRewritten(d, Do(d, e).inodes, v, e.name);
    } else if e.Create? && e.ok {
      FreshInodeUnseen(d, Inode(Torn, false), v);
    }
  }

  /** A call in place, on a file with a lasting name, changes that file only: every image
      keeps its other files, and holds under `n` what it held, or what is visible now. */
  lemma InPlaceCall<C>(d: Dir<C>, e: Event<C>)
    requires Wf(d)
    requires (e.Create? || e.Write? || e.Fsync?) && !IsTemp(e.name)
    ensures Current(Do(d, e)) - {e.name} == Current(d) - {e.name}
    ensures forall f' | f' in Images(Do(d, e)) :: exists f | f in Images(d) :: DiffersIn(f', f, e.name, Current(Do(d, e)))
  {
    var d' := Do(d, e);
    InPlaceVersion(d, e, d.visible);
    assert Current(d') - {e.name} == Current(d) - {e.name};
    forall f' | f' in Images(d')
      ensures exists f | f in Images(d) :: DiffersIn(f', f, e.name, Current(d'))
    {
      if f' == Current(d') {
        assert Current(d) in Images(d);
        assert e.name !in Current(d') ==> Current(d') == Current(d);
        assert DiffersIn(f', Current(d), e.name, Current(d'));
      } else {
        var v :| v in d'.older && Resolve(d'.inodes, v) == f';
        assert Version(d, v);
        InPlaceVersion(d, e, v);
        assert Resolve(d.inodes, v) in Images(d);
      }
    }
  }
}
