/** noded's rendering of the join files, interleaved call by call with initd's supervision.

    The only thing the two share is the kubelet directory: noded writes the start marker
    there last, initd looks for it. */
module KubeletStart {
  import opened Storage
  import opened AtomicWrite
  import opened Intent
  import opened Kubelet
  import opened JoinConfig
  import opened Supervision

  datatype SysEvent =
    | FileCall(call: Event<Doc>)     // one file call of noded
    | Initd(obs: Obs)                // one observation or action of initd
    | PowerLost(keep: nat)

  /** `log` is initd's log since power-on. */
  datatype Sys = Sys(dir: DocDir, log: seq<Obs>)

  /** initd sees the marker of slot `kubelet` exactly when the bootstrap-kubeconfig is visible. */
  ghost predicate Step(cfg: seq<Service>, kubelet: nat, s: Sys, e: SysEvent, s': Sys) {
    match e
    case FileCall(call) => !call.Crash? && s' == s.(dir := Do(s.dir, call))
    case Initd(o) =>
      && s' == s.(log := s.log + [o])
      && Accepted(cfg, s'.log)
      && (o.Gate? && o.slot == kubelet ==> (o.seen <==> BOOTSTRAP_KUBECONFIG in Current(s.dir)))
    case PowerLost(keep) => s' == Sys(Do(s.dir, Crash(keep)), [])
  }

  ghost predicate Interleaving(cfg: seq<Service>, kubelet: nat, d: DocDir, events: seq<SysEvent>, s: Sys)
    decreases |events|
  {
    if events == [] then s == Sys(d, [])
    else
      var before, last := events[..|events| - 1], events[|events| - 1];
      exists m :: Interleaving(cfg, kubelet, d, before, m) && Step(cfg, kubelet, m, last, s)
  }

  // ---- noded's part of an interleaving ----

  /** noded applies validated intents, from a PUT or at boot, each cut off anywhere. */
  datatype JoinAct = Reconcile(intent: NodeIntent, fates: seq<Fate>) | Lost(keep: nat)

  ghost predicate Applied(acts: seq<JoinAct>, intent: NodeIntent) {
    exists i | 0 <= i < |acts| :: acts[i].Reconcile? && acts[i].intent == intent
  }

  ghost predicate Sensible(p: Parsers, acts: seq<JoinAct>) {
    forall a | a in acts && a.Reconcile? :: Validated(p, a.intent) && Series(JoinPlan(a.intent), a.fates)
  }

  function CallsOf(a: JoinAct): seq<Event<Doc>>
    requires a.Reconcile? ==> |a.fates| <= 3
  {
    match a
    case Reconcile(intent, fates) => SeriesEvents(JoinPlan(intent), fates)
    case Lost(keep) => [Crash(keep)]
  }

  function NodedCalls(acts: seq<JoinAct>): seq<Event<Doc>>
    requires forall a | a in acts && a.Reconcile? :: |a.fates| <= 3
  {
    if acts == [] then [] else NodedCalls(acts[..|acts| - 1]) + CallsOf(acts[|acts| - 1])
  }

  /** The file calls and power losses of an interleaving, in order. */
  function Projection(events: seq<SysEvent>): seq<Event<Doc>> {
    if events == [] then []
    else
      var before, last := Projection(events[..|events| - 1]), events[|events| - 1];
      match last
      case FileCall(call) => before + [call]
      case PowerLost(keep) => before + [Crash(keep)]
      case Initd(_) => before
  }

  // ---- the files ----

  ghost predicate FromApplied(acts: seq<JoinAct>, f: Docs) {
    && (CLUSTER_CA in f ==> exists i | Applied(acts, i) :: Has(f, CLUSTER_CA, Text(i.clusterCa)))
    && (KUBELET_CONFIG in f ==> exists i | Applied(acts, i) :: Has(f, KUBELET_CONFIG, Text(KubeletConfig(i))))
    && (BOOTSTRAP_KUBECONFIG in f ==> exists i | Applied(acts, i) :: Has(f, BOOTSTRAP_KUBECONFIG, Text(BootstrapKubeconfig(i))))
  }

  ghost predicate MarkerIsLast(f: Docs) {
    BOOTSTRAP_KUBECONFIG in f ==> CLUSTER_CA in f && KUBELET_CONFIG in f
  }

  lemma AppliedGrows(acts: seq<JoinAct>, a: JoinAct, i: NodeIntent)
    requires Applied(acts, i)
    ensures Applied(acts + [a], i)
  {
    var k :| 0 <= k < |acts| && acts[k].Reconcile? && acts[k].intent == i;
    assert (acts + [a])[k] == acts[k];
  }

  lemma FromAppliedGrows(acts: seq<JoinAct>, a: JoinAct, f: Docs)
    requires FromApplied(acts, f)
    ensures FromApplied(acts + [a], f)
  {
    forall i | Applied(acts, i) ensures Applied(acts + [a], i) { AppliedGrows(acts, a, i); }
  }

  lemma JoinPartIsGood(acts: seq<JoinAct>, f: Docs, i: NodeIntent, j: nat)
    requires FromApplied(acts, f) && MarkerIsLast(f) && Applied(acts, i) && j <= 3
    ensures FromApplied(acts, JoinPart(f, i, j)) && MarkerIsLast(JoinPart(f, i, j))
  {
    NamesAreLasting(i);
  }

  ghost predicate JoinInv(acts: seq<JoinAct>, d: DocDir) {
    Wf(d) && forall f | f in Images(d) :: FromApplied(acts, f) && MarkerIsLast(f)
  }

  lemma JoinActKeepsInv(p: Parsers, acts: seq<JoinAct>, d: DocDir, a: JoinAct)
    requires JoinInv(acts, d) && Sensible(p, [a])
    ensures a in [a] && (a.Reconcile? ==> |a.fates| <= 3)
    ensures JoinInv(acts + [a], Replay(d, CallsOf(a)))
  {
    assert a in [a];
    forall f | f in Images(d) ensures FromApplied(acts + [a], f) { FromAppliedGrows(acts, a, f); }
    match a
    case Lost(keep) =>
      assert Replay(d, [Crash(keep)]) == Do(d, Crash(keep));
      DoKeepsWf(d, Crash(keep));
      CrashPicksImage(d, keep);
      var f := Resolve(d.inodes, Kept(d, keep));
      assert FromApplied(acts + [a], AfterCrash(f)) by { HeldSurvives(acts + [a], f); }
    case Reconcile(i, fates) =>
      NamesAreLasting(i);
      var now := Current(d);
      assert Applied(acts + [a], i) by { assert (acts + [a])[|acts|] == a; }
      OrderedPublication(d, JoinPlan(i), fates);
      forall f | f in Images(Replay(d, CallsOf(a))) ensures FromApplied(acts + [a], f) && MarkerIsLast(f) {
        if f !in Images(d) {
          var j :| 0 <= j <= Done(fates) && f == Assigned(now, JoinPlan(i)[..j]);
          JoinParts(now, i, j);
          JoinPartIsGood(acts + [a], now, i, j);
        }
      }
  }

  lemma HeldSurvives(acts: seq<JoinAct>, f: Docs)
    requires FromApplied(acts, f)
    ensures FromApplied(acts, AfterCrash(f))
  {
    if CLUSTER_CA in f {
      var i :| Applied(acts, i) && Has(f, CLUSTER_CA, Text(i.clusterCa));
      assert Has(AfterCrash(f), CLUSTER_CA, Text(i.clusterCa));
    }
    if KUBELET_CONFIG in f {
      var i :| Applied(acts, i) && Has(f, KUBELET_CONFIG, Text(KubeletConfig(i)));
      assert Has(AfterCrash(f), KUBELET_CONFIG, Text(KubeletConfig(i)));
    }
    if BOOTSTRAP_KUBECONFIG in f {
      var i :| Applied(acts, i) && Has(f, BOOTSTRAP_KUBECONFIG, Text(BootstrapKubeconfig(i)));
      assert Has(AfterCrash(f), BOOTSTRAP_KUBECONFIG, Text(BootstrapKubeconfig(i)));
    }
  }

  ghost predicate NoJoinFiles(d: DocDir) {
    Wf(d) && forall f | f in Images(d) :: CLUSTER_CA !in f && KUBELET_CONFIG !in f && BOOTSTRAP_KUBECONFIG !in f
  }

  lemma {:induction false} JoinInvHolds(p: Parsers, d: DocDir, acts: seq<JoinAct>)
    requires NoJoinFiles(d) && Sensible(p, acts)
    ensures JoinInv(acts, Replay(d, NodedCalls(acts)))
  {
    if acts != [] {
      var before, a := acts[..|acts| - 1], acts[|acts| - 1];
      assert before + [a] == acts && a in acts && forall x | x in before :: x in acts;
      JoinInvHolds(p, d, before);
      JoinActKeepsInv(p, before, Replay(d, NodedCalls(before)), a);
      ReplayConcat(d, NodedCalls(before), CallsOf(a));
    }
  }

  // ---- the marker, once seen, stays ----

  lemma NamesStayVisible(d: DocDir, e: Event<Doc>, n: string)
    requires Allowed(e) && !e.Crash? && n in Current(d)
    ensures n in Current(Do(d, e))
  {
  }

  lemma AtomicCallsAreAllowed(name: string, doc: Doc, fate: Fate)
    requires !IsTemp(name)
    ensures forall e | e in AtomicEvents(name, doc, fate) :: Allowed(e)
  {
    TempOfIsTemp(name);
    assert forall e | e in Calls(name, doc) :: Allowed(e) && Allowed(Refused(e));
  }

  lemma {:induction false} SeriesCallsAreAllowed(plan: seq<Assign<Doc>>, fates: seq<Fate>)
    requires |fates| <= |plan| && Lasting(plan)
    ensures forall e | e in SeriesEvents(plan, fates) :: Allowed(e)
    decreases |fates|
  {
    if fates != [] {
      assert plan[0] in plan && forall a | a in plan[1..] :: a in plan;
      AtomicCallsAreAllowed(plan[0].name, plan[0].content, fates[0]);
      SeriesCallsAreAllowed(plan[1..], fates[1..]);
    }
  }

  lemma {:induction false} NodedCallsAreAllowed(p: Parsers, acts: seq<JoinAct>)
    requires Sensible(p, acts)
    ensures forall e | e in NodedCalls(acts) :: Allowed(e)
  {
    if acts != [] {
      var before, a := acts[..|acts| - 1], acts[|acts| - 1];
      assert a in acts && forall x | x in before :: x in acts;
      NodedCallsAreAllowed(p, before);
      if a.Reconcile? {
        NamesAreLasting(a.intent);
        SeriesCallsAreAllowed(JoinPlan(a.intent), a.fates);
      }
    }
  }

  lemma {:induction false} MarkerStays(cfg: seq<Service>, kubelet: nat, d: DocDir, events: seq<SysEvent>, s: Sys)
    requires Interleaving(cfg, kubelet, d, events, s)
    requires forall e | e in Projection(events) :: Allowed(e)
    ensures s.dir == Replay(d, Projection(events))
    ensures Accepted(cfg, s.log)
    ensures Gate(kubelet, true) in s.log ==> BOOTSTRAP_KUBECONFIG in Current(s.dir)
    decreases |events|
  {
    if events != [] {
      var before, last := events[..|events| - 1], events[|events| - 1];
      var m :| Interleaving(cfg, kubelet, d, before, m) && Step(cfg, kubelet, m, last, s);
      assert forall e | e in Projection(before) :: e in Projection(events);
      MarkerStays(cfg, kubelet, d, before, m);
      match last
      case FileCall(call) =>
        assert call in Projection(events);
        ReplaySnoc(d, Projection(before), call);
        if BOOTSTRAP_KUBECONFIG in Current(m.dir) { NamesStayVisible(m.dir, call, BOOTSTRAP_KUBECONFIG); }
      case PowerLost(keep) =>
        ReplaySnoc(d, Projection(before), Crash(keep));
      case Initd(o) =>
    }
  }

  // ---- initd's part ----

  lemma {:induction false} SomeSpawn(log: seq<Obs>, i: nat) returns (t: nat)
    requires Spawns(log, i) > 0
    ensures t < |log| && log[t].Spawn? && log[t].slot == i
  {
    var e := log[|log| - 1];
    if e.Spawn? && e.slot == i && e.child.Some? {
      t := |log| - 1;
    } else {
      t := SomeSpawn(log[..|log| - 1], i);
    }
  }

  /** However often it was tried, a gated service is only ever spawned in a boot that saw its marker. */
  lemma {:induction false} SpawnMeansMarker(cfg: seq<Service>, log: seq<Obs>, t: nat, i: nat)
    requires Accepted(cfg, log) && i < |cfg| && cfg[i].startWhen.Some?
    requires t < |log| && log[t].Spawn? && log[t].slot == i
    ensures Gate(i, true) in log
    decreases t
  {
    if Spawns(log[..t], i) == 0 {
      FirstStartSeesMarker(cfg, log, t);
      assert log[t - 1] in log;
    } else {
      var u := SomeSpawn(log[..t], i);
      assert log[..t][u] == log[u];
      SpawnMeansMarker(cfg, log, u, i);
    }
  }

  // ---- together ----

  /** The three join files are there, whole, and each renders an applied, validated intent. */
  ghost predicate Configured(p: Parsers, acts: seq<JoinAct>, f: Docs) {
    exists a, b, c | Applied(acts, a) && Applied(acts, b) && Applied(acts, c) ::
      && Validated(p, a) && Validated(p, b) && Validated(p, c)
      && Has(f, CLUSTER_CA, Text(a.clusterCa))
      && Has(f, KUBELET_CONFIG, Text(KubeletConfig(b)))
      && Has(f, BOOTSTRAP_KUBECONFIG, Text(BootstrapKubeconfig(c)))
  }

  lemma AppliedIsValidated(p: Parsers, acts: seq<JoinAct>, i: NodeIntent)
    requires Sensible(p, acts) && Applied(acts, i)
    ensures Validated(p, i)
  {
    var k :| 0 <= k < |acts| && acts[k].Reconcile? && acts[k].intent == i;
    assert acts[k] in acts;
  }

  /** In every interleaving of noded's file calls with initd's steps, with process deaths and
      power losses anywhere: once kubelet has been spawned in a boot, and from then on in that
      boot, all its join files are whole and come from validated intents; and as long as only
      one intent was ever applied, all three are the rendering of that intent. */
  lemma KubeletStartsConfigured(p: Parsers, cfg: seq<Service>, kubelet: nat, d: DocDir,
      events: seq<SysEvent>, acts: seq<JoinAct>, s: Sys, t: nat)
    requires kubelet < |cfg| && cfg[kubelet].startWhen.Some?
    requires NoJoinFiles(d) && Sensible(p, acts)
    requires Interleaving(cfg, kubelet, d, events, s) && Projection(events) == NodedCalls(acts)
    requires t < |s.log| && s.log[t].Spawn? && s.log[t].slot == kubelet
    ensures Configured(p, acts, Current(s.dir))
    ensures forall i | Applied(acts, i) && (forall j | Applied(acts, j) :: j == i) :: RenderedFor(Current(s.dir), i)
  {
    NodedCallsAreAllowed(p, acts);
    MarkerStays(cfg, kubelet, d, events, s);
    SpawnMeansMarker(cfg, s.log, t, kubelet);
    JoinInvHolds(p, d, acts);
    var f := Current(s.dir);
    assert FromApplied(acts, f) && MarkerIsLast(f);
    var a :| Applied(acts, a) && Has(f, CLUSTER_CA, Text(a.clusterCa));
    var b :| Applied(acts, b) && Has(f, KUBELET_CONFIG, Text(KubeletConfig(b)));
    var c :| Applied(acts, c) && Has(f, BOOTSTRAP_KUBECONFIG, Text(BootstrapKubeconfig(c)));
    AppliedIsValidated(p, acts, a);
    AppliedIsValidated(p, acts, b);
    AppliedIsValidated(p, acts, c);
  }

  // ---- a second intent ----

  ghost predicate OneOfTwo(f: Docs, old_: NodeIntent, new_: NodeIntent) {
    RenderedFor(f, old_) || RenderedFor(f, new_)
  }

  /** What a power loss can leave is always the files of one of the two. */
  ghost predicate NeverMixed(d: DocDir, old_: NodeIntent, new_: NodeIntent) {
    forall keep: nat :: OneOfTwo(Current(Do(d, Crash(keep))), old_, new_)
  }

  /** The first `j` files of the two are the same, or the others are. */
  predicate Fits(old_: NodeIntent, new_: NodeIntent, j: nat)
    requires j <= 3
  {
    JoinPlan(old_)[..j] == JoinPlan(new_)[..j] || JoinPlan(old_)[j..] == JoinPlan(new_)[j..]
  }

  predicate SameDoc(a: seq<Assign<Doc>>, b: seq<Assign<Doc>>, k: nat)
    requires k < |a| && k < |b|
  {
    a[k] == b[k]
  }

  lemma FitsByFile(old_: NodeIntent, new_: NodeIntent, j: nat)
    requires j <= 3
    ensures var a, b := JoinPlan(old_), JoinPlan(new_);
            Fits(old_, new_, j) <==>
              (forall k | 0 <= k < j :: SameDoc(a, b, k)) || (forall k | j <= k < 3 :: SameDoc(a, b, k))
  {
    var a, b := JoinPlan(old_), JoinPlan(new_);
    if a[..j] == b[..j] {
      forall k | 0 <= k < j ensures SameDoc(a, b, k) { assert a[..j][k] == b[..j][k]; }
    }
    if a[j..] == b[j..] {
      forall k | j <= k < 3 ensures SameDoc(a, b, k) { assert a[j..][k - j] == b[j..][k - j]; }
    }
    if forall k | 0 <= k < j :: SameDoc(a, b, k) {
      forall k | 0 <= k < j ensures a[..j][k] == b[..j][k] { assert SameDoc(a, b, k); }
    }
    if forall k | j <= k < 3 :: SameDoc(a, b, k) {
      forall k | 0 <= k < 3 - j ensures a[j..][k] == b[j..][k] { assert SameDoc(a, b, k + j); }
    }
  }

  lemma CrashKeepsRendered(f: Docs, i: NodeIntent)
    requires forall n | n in {CLUSTER_CA, KUBELET_CONFIG, BOOTSTRAP_KUBECONFIG} :: n in f && f[n].synced
    ensures RenderedFor(AfterCrash(f), i) <==> RenderedFor(f, i)
  {
  }

  lemma PartsOfTwo(f: Docs, old_: NodeIntent, new_: NodeIntent, j: nat)
    requires RenderedFor(f, old_) && j <= 3
    ensures OneOfTwo(JoinPart(f, new_, j), old_, new_) <==> Fits(old_, new_, j)
    ensures OneOfTwo(AfterCrash(JoinPart(f, new_, j)), old_, new_) <==> Fits(old_, new_, j)
  {
    NamesAreLasting(new_);
    CrashKeepsRendered(JoinPart(f, new_, j), old_);
    CrashKeepsRendered(JoinPart(f, new_, j), new_);
    FitsByFile(old_, new_, j);
    var a, b := JoinPlan(old_), JoinPlan(new_);
    assert SameDoc(a, b, 0) <==> old_.clusterCa == new_.clusterCa;
    assert SameDoc(a, b, 1) <==> KubeletConfig(old_) == KubeletConfig(new_);
    assert SameDoc(a, b, 2) <==> BootstrapKubeconfig(old_) == BootstrapKubeconfig(new_);
  }

  /** A reconcile of `new_` over the files of `old_`, ended anywhere, leaves in view the files of
      one of the two exactly if the files it wrote are the same for both, or those it did not
      get to are. */
  lemma SecondIntentMixesExactly(d: DocDir, old_: NodeIntent, new_: NodeIntent, fates: seq<Fate>)
    requires Wf(d) && RenderedFor(Current(d), old_) && Series(JoinPlan(new_), fates)
    ensures OneOfTwo(Current(Replay(d, SeriesEvents(JoinPlan(new_), fates))), old_, new_) <==> Fits(old_, new_, Done(fates))
  {
    NamesAreLasting(new_);
    OrderedPublication(d, JoinPlan(new_), fates);
    JoinParts(Current(d), new_, Done(fates));
    PartsOfTwo(Current(d), old_, new_, Done(fates));
  }

  ghost predicate AllRendered(d: DocDir, intent: NodeIntent) {
    forall f | f in Images(d) :: RenderedFor(f, intent)
  }

  ghost predicate AllFit(old_: NodeIntent, new_: NodeIntent, n: nat)
    requires n <= 3
  {
    forall j | 0 <= j <= n :: Fits(old_, new_, j)
  }

  lemma FittingNeverMixes(d: DocDir, old_: NodeIntent, new_: NodeIntent, fates: seq<Fate>)
    requires Wf(d) && AllRendered(d, old_) && Series(JoinPlan(new_), fates) && AllFit(old_, new_, Done(fates))
    ensures NeverMixed(Replay(d, SeriesEvents(JoinPlan(new_), fates)), old_, new_)
  {
    var d' := Replay(d, SeriesEvents(JoinPlan(new_), fates));
    NamesAreLasting(new_);
    OrderedPublication(d, JoinPlan(new_), fates);
    assert Current(d) in Images(d);
    forall keep: nat ensures OneOfTwo(Current(Do(d', Crash(keep))), old_, new_) {
      CrashPicksImage(d', keep);
      var f := Resolve(d'.inodes, Kept(d', keep));
      if f !in Images(d) {
        var j :| 0 <= j <= Done(fates) && f == Assigned(Current(d), JoinPlan(new_)[..j]);
        JoinParts(Current(d), new_, j);
        PartsOfTwo(Current(d), old_, new_, j);
      } else {
        CrashKeepsRendered(f, old_);
      }
    }
  }

  /** As long as no directory sync has taken effect, a power loss can bring back the files as
      they were after any of the writes done. */
  lemma UnsyncedCanMix(d: DocDir, old_: NodeIntent, new_: NodeIntent, fates: seq<Fate>, j: nat) returns (keep: nat)
    requires Wf(d) && RenderedFor(Current(d), old_) && Series(JoinPlan(new_), fates) && Unsynced(fates)
    requires j <= |fates| && !Fits(old_, new_, j)
    ensures !OneOfTwo(Current(Do(Replay(d, SeriesEvents(JoinPlan(new_), fates)), Crash(keep))), old_, new_)
    ensures BOOTSTRAP_KUBECONFIG in Current(Do(Replay(d, SeriesEvents(JoinPlan(new_), fates)), Crash(keep)))
  {
    NamesAreLasting(new_);
    OrderedPublication(d, JoinPlan(new_), fates);
    UnsyncedPartsRemain(d, JoinPlan(new_), fates, j);
    JoinParts(Current(d), new_, j);
    PartsOfTwo(Current(d), old_, new_, j);
    keep := EveryImageCanRemain(Replay(d, SeriesEvents(JoinPlan(new_), fates)), JoinPart(Current(d), new_, j));
  }

  /** For what a power loss can leave, over the settled files of `old_`: a reconcile of `new_`
      that got `n` files written is safe, whatever the directory syncs did, exactly if it
      would be at each of its writes. So also one that finished can come back mixed. */
  lemma MixesAfterPowerLossExactly(d: DocDir, old_: NodeIntent, new_: NodeIntent, n: nat)
    requires Wf(d) && AllRendered(d, old_) && n <= 3
    ensures (forall fates | Series(JoinPlan(new_), fates) && Done(fates) == n ::
               NeverMixed(Replay(d, SeriesEvents(JoinPlan(new_), fates)), old_, new_))
            <==> AllFit(old_, new_, n)
  {
    if AllFit(old_, new_, n) {
      forall fates | Series(JoinPlan(new_), fates) && Done(fates) == n
        ensures NeverMixed(Replay(d, SeriesEvents(JoinPlan(new_), fates)), old_, new_)
      {
        FittingNeverMixes(d, old_, new_, fates);
      }
    } else {
      var j :| 0 <= j <= n && !Fits(old_, new_, j);
      var fates := seq(n, i => Renamed(None));
      assert Current(d) in Images(d);
      var keep := UnsyncedCanMix(d, old_, new_, fates, j);
      assert Done(fates) == n && !NeverMixed(Replay(d, SeriesEvents(JoinPlan(new_), fates)), old_, new_);
    }
  }

  // ---- and kubelet starts on it ----

  function FileCalls(calls: seq<Event<Doc>>): seq<SysEvent> {
    if calls == [] then [] else FileCalls(calls[..|calls| - 1]) + [FileCall(calls[|calls| - 1])]
  }

  function Observations(log: seq<Obs>): seq<SysEvent> {
    if log == [] then [] else Observations(log[..|log| - 1]) + [Initd(log[|log| - 1])]
  }

  function CallOf(e: SysEvent): seq<Event<Doc>> {
    match e
    case FileCall(c) => [c]
    case PowerLost(k) => [Crash(k)]
    case Initd(_) => []
  }

  lemma ProjectionSnoc(events: seq<SysEvent>, e: SysEvent)
    ensures Projection(events + [e]) == Projection(events) + CallOf(e)
  {
    assert (events + [e])[..|events|] == events;
  }

  lemma Follows(cfg: seq<Service>, kubelet: nat, d: DocDir, events: seq<SysEvent>, m: Sys, e: SysEvent, s: Sys)
    requires Interleaving(cfg, kubelet, d, events, m) && Step(cfg, kubelet, m, e, s)
    ensures Interleaving(cfg, kubelet, d, events + [e], s)
    ensures Projection(events + [e]) == Projection(events) + CallOf(e)
  {
    ProjectionSnoc(events, e);
    var all := events + [e];
    assert all[..|all| - 1] == events && all[|all| - 1] == e;
    assert Interleaving(cfg, kubelet, d, all[..|all| - 1], m);
  }

  lemma {:induction false} CallsInterleave(cfg: seq<Service>, kubelet: nat, d: DocDir, calls: seq<Event<Doc>>)
    requires forall c | c in calls :: !c.Crash?
    ensures Interleaving(cfg, kubelet, d, FileCalls(calls), Sys(Replay(d, calls), []))
    ensures Projection(FileCalls(calls)) == calls
  {
    if calls != [] {
      var before, c := calls[..|calls| - 1], calls[|calls| - 1];
      assert c in calls && before + [c] == calls && forall x | x in before :: x in calls;
      CallsInterleave(cfg, kubelet, d, before);
      ReplaySnoc(d, before, c);
      Follows(cfg, kubelet, d, FileCalls(before), Sys(Replay(d, before), []), FileCall(c), Sys(Replay(d, calls), []));
    }
  }

  /** initd sees the marker whenever it looks. */
  predicate SeesMarker(kubelet: nat, log: seq<Obs>) {
    forall o | o in log :: o.Gate? && o.slot == kubelet ==> o.seen
  }

  lemma {:induction false} InitdFollows(cfg: seq<Service>, kubelet: nat, d: DocDir, events: seq<SysEvent>, m: DocDir, log: seq<Obs>)
    requires Interleaving(cfg, kubelet, d, events, Sys(m, [])) && BOOTSTRAP_KUBECONFIG in Current(m)
    requires Accepted(cfg, log) && SeesMarker(kubelet, log)
    ensures Interleaving(cfg, kubelet, d, events + Observations(log), Sys(m, log))
    ensures Projection(events + Observations(log)) == Projection(events)
  {
    if log == [] {
      assert events + Observations(log) == events;
    } else {
      var before, o := log[..|log| - 1], log[|log| - 1];
      assert before + [o] == log && o in log && forall x | x in before :: x in log;
      PrefixAccepted(cfg, log, |log| - 1);
      InitdFollows(cfg, kubelet, d, events, m, before);
      Follows(cfg, kubelet, d, events + Observations(before), Sys(m, before), Initd(o), Sys(m, log));
      assert events + Observations(before) + [Initd(o)] == events + Observations(log);
    }
  }

  lemma {:induction false} NoCrashInSeries(plan: seq<Assign<Doc>>, fates: seq<Fate>)
    requires |fates| <= |plan|
    ensures forall c | c in SeriesEvents(plan, fates) :: !c.Crash?
    decreases |fates|
  {
    if fates != [] {
      NoCrashInSeries(plan[1..], fates[1..]);
      assert forall c | c in Calls(plan[0].name, plan[0].content) :: !c.Crash? && !Refused(c).Crash?;
    }
  }

  /** A second intent was reconciled to the end and answered OK, power was lost before any of
      its directory syncs took effect: whatever initd then does on seeing the marker, and so
      also a run in which it starts kubelet, it can do over the mixed files. */
  lemma KubeletCanStartMixed(cfg: seq<Service>, kubelet: nat, d: DocDir, old_: NodeIntent, new_: NodeIntent, j: nat, log: seq<Obs>)
    returns (events: seq<SysEvent>, s: Sys)
    requires Wf(d) && RenderedFor(Current(d), old_) && j <= 3 && !Fits(old_, new_, j)
    requires Accepted(cfg, log) && SeesMarker(kubelet, log)
    ensures Interleaving(cfg, kubelet, d, events, s) && s.log == log
    ensures exists fates, keep | Series(JoinPlan(new_), fates) && Done(fates) == 3 ::
              Projection(events) == NodedCalls([Reconcile(new_, fates), Lost(keep)])
    ensures !OneOfTwo(Current(s.dir), old_, new_)
  {
    var fates := [Renamed(None), Renamed(None), Renamed(None)];
    var keep := UnsyncedCanMix(d, old_, new_, fates, j);
    var calls := SeriesEvents(JoinPlan(new_), fates);
    NoCrashInSeries(JoinPlan(new_), fates);
    events, s := CallsLossAndBoot(cfg, kubelet, d, calls, keep, log);
    CallsOfTwo(Reconcile(new_, fates), Lost(keep));
    assert Projection(events) == NodedCalls([Reconcile(new_, fates), Lost(keep)]);
  }

  /** Some file calls, a power loss, and then initd alone. */
  lemma CallsLossAndBoot(cfg: seq<Service>, kubelet: nat, d: DocDir, calls: seq<Event<Doc>>, keep: nat, log: seq<Obs>)
    returns (events: seq<SysEvent>, s: Sys)
    requires forall c | c in calls :: !c.Crash?
    requires BOOTSTRAP_KUBECONFIG in Current(Do(Replay(d, calls), Crash(keep)))
    requires Accepted(cfg, log) && SeesMarker(kubelet, log)
    ensures Interleaving(cfg, kubelet, d, events, s) && s == Sys(Do(Replay(d, calls), Crash(keep)), log)
    ensures Projection(events) == calls + [Crash(keep)]
  {
    var m := Replay(d, calls);
    CallsInterleave(cfg, kubelet, d, calls);
    Follows(cfg, kubelet, d, FileCalls(calls), Sys(m, []), PowerLost(keep), Sys(Do(m, Crash(keep)), []));
    InitdFollows(cfg, kubelet, d, FileCalls(calls) + [PowerLost(keep)], Do(m, Crash(keep)), log);
    events, s := FileCalls(calls) + [PowerLost(keep)] + Observations(log), Sys(Do(m, Crash(keep)), log);
  }

  lemma CallsOfTwo(a: JoinAct, b: JoinAct)
    requires (a.Reconcile? ==> |a.fates| <= 3) && (b.Reconcile? ==> |b.fates| <= 3)
    ensures NodedCalls([a, b]) == CallsOf(a) + CallsOf(b)
  {
    assert [a, b][..1] == [a] && [a][..0] == [];
    assert NodedCalls([a]) == CallsOf(a);
  }

  // ---- such a start, shown ----

  lemma SlotSteps(cfg: seq<Service>, i: nat, c: seq<Child>)
    requires i < |cfg|
    ensures var t := 1000 * cfg[i].readyTimeoutSecs;
            && Next(cfg, State(Starting(i), c), Gate(i, false)) == Some(State(StartAt(cfg, i + 1), c + [Deferred]))
            && Next(cfg, State(Launching(i), c), Spawn(i, Some(0), 0))
               == Some(State(if cfg[i].readyWhen.Some? then Awaiting(i, t, 0) else StartAt(cfg, i + 1), c + [Live(0)]))
            && Next(cfg, State(Awaiting(i, t, 0), c), Ready(i, true, 0)) == Some(State(StartAt(cfg, i + 1), c))
  {
  }

  /** What initd observes at slot `i` when a gate is closed, and a service starts and is ready
      at once. */
  function SlotLog(cfg: seq<Service>, i: nat): seq<Obs>
    requires i < |cfg|
  {
    if cfg[i].startWhen.Some? then [Gate(i, false)]
    else if cfg[i].readyWhen.Some? then [Spawn(i, Some(0), 0), Ready(i, true, 0)]
    else [Spawn(i, Some(0), 0)]
  }

  lemma SlotStarts(cfg: seq<Service>, before: seq<Obs>, i: nat, c: seq<Child>)
    requires i < |cfg| && Run(cfg, before) == Some(State(StartAt(cfg, i), c))
    ensures Accepted(cfg, before + SlotLog(cfg, i))
    ensures Run(cfg, before + SlotLog(cfg, i)).value.phase == StartAt(cfg, i + 1)
  {
    SlotSteps(cfg, i, c);
    if cfg[i].startWhen.Some? {
      RunSnoc(cfg, before, Gate(i, false));
    } else {
      RunSnoc(cfg, before, Spawn(i, Some(0), 0));
      if cfg[i].readyWhen.Some? {
        SlotSteps(cfg, i, c + [Live(0)]);
        RunSnoc(cfg, before + [Spawn(i, Some(0), 0)], Ready(i, true, 0));
        assert before + [Spawn(i, Some(0), 0)] + [Ready(i, true, 0)] == before + SlotLog(cfg, i);
      }
    }
  }

  lemma {:induction false} StartsUpTo(cfg: seq<Service>, i: nat) returns (log: seq<Obs>)
    requires i <= |cfg|
    ensures Accepted(cfg, log) && Run(cfg, log).value.phase == StartAt(cfg, i)
    ensures forall o | o in log && o.Gate? :: o.slot < i
  {
    if i == 0 {
      log := [];
    } else {
      var before := StartsUpTo(cfg, i - 1);
      SlotStarts(cfg, before, i - 1, Run(cfg, before).value.children);
      log := before + SlotLog(cfg, i - 1);
    }
  }

  /** For any configuration, initd can start a gated service when its marker is there. */
  lemma KubeletCanStart(cfg: seq<Service>, kubelet: nat) returns (log: seq<Obs>)
    requires kubelet < |cfg| && cfg[kubelet].startWhen.Some?
    ensures Accepted(cfg, log) && SeesMarker(kubelet, log) && Spawn(kubelet, Some(0), 0) in log
  {
    var before := StartsUpTo(cfg, kubelet);
    RunSnoc(cfg, before, Gate(kubelet, true));
    RunSnoc(cfg, before + [Gate(kubelet, true)], Spawn(kubelet, Some(0), 0));
    log := before + [Gate(kubelet, true)] + [Spawn(kubelet, Some(0), 0)];
  }

  const TOKEN_A: string := seq(23, i => if i == 6 then '.' else 'a')
  const TOKEN_B: string := seq(23, i => if i == 6 then '.' else 'b')

  lemma KubeconfigTellsToken(a: NodeIntent, b: NodeIntent)
    requires a.apiServer == b.apiServer && BootstrapKubeconfig(a) == BootstrapKubeconfig(b)
    ensures a.bootstrapToken == b.bootstrapToken
  {
    var above := KUBECONFIG_HEAD + [SERVER + a.apiServer] + KUBECONFIG_MIDDLE;
    JoinConcat(above, [TOKEN + a.bootstrapToken]);
    JoinConcat(above, [TOKEN + b.bootstrapToken]);
    var x, y := Join([TOKEN + a.bootstrapToken]), Join([TOKEN + b.bootstrapToken]);
    assert x == (Join(above) + x)[|Join(above)|..] && y == (Join(above) + y)[|Join(above)|..];
    assert Join([]) == "";
    assert x == TOKEN + a.bootstrapToken + "\n" && y == TOKEN + b.bootstrapToken + "\n";
    assert a.bootstrapToken == x[|TOKEN|..|x| - 1] && b.bootstrapToken == y[|TOKEN|..|y| - 1];
  }

  /** For every validated intent there is another, for the same cluster CA and server, with whose
      files its own mix. */
  lemma UnfittingIntent(p: Parsers, old_: NodeIntent) returns (new_: NodeIntent)
    requires p.Sound() && Validated(p, old_)
    ensures Validated(p, new_) && new_.clusterCa == old_.clusterCa && new_.apiServer == old_.apiServer
    ensures !Fits(old_, new_, 2)
  {
    var token := if old_.bootstrapToken == TOKEN_A then TOKEN_B else TOKEN_A;
    assert TOKEN_A[0] != TOKEN_B[0];
    TokenLanguage(token);
    new_ := old_.(clusterDomain := old_.clusterDomain + "a", bootstrapToken := token);
    ValidatedExactly(p, old_);
    ValidatedExactly(p, new_);
    if KubeletConfig(old_) == KubeletConfig(new_) {
      KubeletConfigInjective(p, old_, new_);
    }
    if BootstrapKubeconfig(old_) == BootstrapKubeconfig(new_) {
      KubeconfigTellsToken(old_, new_);
    }
    FitsByFile(old_, new_, 2);
    assert !SameDoc(JoinPlan(old_), JoinPlan(new_), 1) && !SameDoc(JoinPlan(old_), JoinPlan(new_), 2);
  }

  /** Put together: over the files of any validated intent, for any configuration, there is a
      second validated intent, and a run of the two daemons that reconciles it to the end,
      loses power, and then starts kubelet over files that are neither intent's. */
  lemma KubeletStartsMixed(p: Parsers, cfg: seq<Service>, kubelet: nat, d: DocDir, old_: NodeIntent)
    returns (new_: NodeIntent, events: seq<SysEvent>, s: Sys)
    requires p.Sound() && Validated(p, old_) && Wf(d) && RenderedFor(Current(d), old_)
    requires kubelet < |cfg| && cfg[kubelet].startWhen.Some?
    ensures Validated(p, new_) && Interleaving(cfg, kubelet, d, events, s)
    ensures exists fates, keep | Series(JoinPlan(new_), fates) && Done(fates) == 3 ::
              Projection(events) == NodedCalls([Reconcile(new_, fates), Lost(keep)])
    ensures Spawn(kubelet, Some(0), 0) in s.log && !OneOfTwo(Current(s.dir), old_, new_)
  {
    new_ := UnfittingIntent(p, old_);
    var log := KubeletCanStart(cfg, kubelet);
    events, s := KubeletCanStartMixed(cfg, kubelet, d, old_, new_, 2, log);
  }

  // ---- progress ----

  /** The events of one stretch without power loss, in which noded's calls are its own. */
  ghost predicate Powered(events: seq<SysEvent>) {
    forall e | e in events :: !e.PowerLost? && (e.FileCall? ==> Allowed(e.call))
  }

  function Seen(events: seq<SysEvent>): seq<Obs> {
    if events == [] then []
    else
      var before, last := Seen(events[..|events| - 1]), events[|events| - 1];
      if last.Initd? then before + [last.obs] else before
  }

  lemma {:induction false} OneOutcome(cfg: seq<Service>, kubelet: nat, d: DocDir, events: seq<SysEvent>, s: Sys, t: Sys)
    requires Interleaving(cfg, kubelet, d, events, s) && Interleaving(cfg, kubelet, d, events, t)
    ensures s == t
    decreases |events|
  {
    if events != [] {
      var before, last := events[..|events| - 1], events[|events| - 1];
      var m :| Interleaving(cfg, kubelet, d, before, m) && Step(cfg, kubelet, m, last, s);
      var k :| Interleaving(cfg, kubelet, d, before, k) && Step(cfg, kubelet, k, last, t);
      OneOutcome(cfg, kubelet, d, before, m, k);
    }
  }

  /** While power is on a visible marker stays, and initd sees it whenever it looks. */
  lemma {:induction false} MarkerIsSeen(cfg: seq<Service>, kubelet: nat, d: DocDir, events: seq<SysEvent>, m: Sys, more: seq<SysEvent>, s: Sys)
    requires Interleaving(cfg, kubelet, d, events, m) && Interleaving(cfg, kubelet, d, events + more, s)
    requires Powered(more) && BOOTSTRAP_KUBECONFIG in Current(m.dir)
    ensures BOOTSTRAP_KUBECONFIG in Current(s.dir)
    ensures s.log == m.log + Seen(more) && SeesMarker(kubelet, Seen(more))
    decreases |more|
  {
    if more == [] {
      assert events + more == events;
      OneOutcome(cfg, kubelet, d, events, m, s);
    } else {
      var before, last, all := more[..|more| - 1], more[|more| - 1], events + more;
      assert all[..|all| - 1] == events + before && all[|all| - 1] == last;
      assert last in more && forall e | e in before :: e in more;
      var k :| Interleaving(cfg, kubelet, d, all[..|all| - 1], k) && Step(cfg, kubelet, k, last, s);
      MarkerIsSeen(cfg, kubelet, d, events, m, before, k);
      if last.FileCall? {
        NamesStayVisible(k.dir, last.call, BOOTSTRAP_KUBECONFIG);
      }
    }
  }

  lemma {:induction false} MoreSpawns(before: seq<Obs>, more: seq<Obs>, i: nat) returns (t: nat)
    requires Spawns(before + more, i) > Spawns(before, i)
    ensures t < |more| && more[t].Spawn? && more[t].slot == i
    decreases |more|
  {
    assert more == [] ==> before + more == before;
    var rest, e := more[..|more| - 1], more[|more| - 1];
    assert (before + more)[..|before + more| - 1] == before + rest;
    if e.Spawn? && e.slot == i {
      t := |more| - 1;
    } else {
      t := MoreSpawns(before, rest, i);
    }
  }

  /** A child appears only by a spawn. */
  lemma LiveWasSpawned(cfg: seq<Service>, before: seq<Obs>, more: seq<Obs>, i: nat) returns (t: nat)
    requires Accepted(cfg, before) && Accepted(cfg, before + more)
    requires !HasChild(Run(cfg, before).value, i) && HasChild(Run(cfg, before + more).value, i)
    ensures t < |more| && more[t].Spawn? && more[t].slot == i
  {
    SlotHoldsLastSpawned(cfg, before + more, i);
    SomeSpawns(before + more, i);
    SpawnsBalanceExits(cfg, before, i);
    t := MoreSpawns(before, more, i);
  }

  lemma {:induction false} SomeSpawns(log: seq<Obs>, i: nat)
    requires LastSpawned(log, i).Some?
    ensures Spawns(log, i) > 0
  {
    var e := log[|log| - 1];
    if !(e.Spawn? && e.slot == i && e.child.Some?) { SomeSpawns(log[..|log| - 1], i); }
  }

  lemma {:induction false} SomeVisit(log: seq<Obs>, i: nat) returns (t: nat)
    requires Visits(log, i) > 0
    ensures t < |log| && (log[t].Gate? || log[t].Wait?) && log[t].slot == i
  {
    var e := log[|log| - 1];
    if (e.Gate? || e.Wait?) && e.slot == i {
      t := |log| - 1;
    } else {
      t := SomeVisit(log[..|log| - 1], i);
    }
  }

  lemma WaitHasChild(cfg: seq<Service>, log: seq<Obs>, t: nat)
    requires Accepted(cfg, log) && t < |log| && log[t].Wait?
    ensures Accepted(cfg, log[..t]) && HasChild(Run(cfg, log[..t]).value, log[t].slot)
  {
    PrefixAccepted(cfg, log, t);
    PrefixAccepted(cfg, log, t + 1);
  }

  /** One whole tick of `supervise` over a deferred service whose marker is seen whenever looked
      for contains an attempt to start it. */
  lemma TickStarts(cfg: seq<Service>, before: seq<Obs>, tick: seq<Obs>, i: nat) returns (t: nat)
    requires Accepted(cfg, before + tick + [Sleep]) && i < |cfg| && Sleep !in tick
    requires Accepted(cfg, before) && Run(cfg, before).value.phase == Visiting(0)
    requires !HasChild(Run(cfg, before).value, i) && SeesMarker(i, tick)
    ensures t < |tick| && tick[t].Spawn? && tick[t].slot == i
  {
    var log := before + tick + [Sleep];
    EveryTickVisitsAll(cfg, before, tick, i);
    var v := SomeVisit(tick, i);
    assert log[|before| + v] == tick[v];
    if tick[v].Gate? {
      assert tick[v] in tick;
      SeenMarkerIsActedOn(cfg, log, |before| + v);
      assert v + 1 < |tick|;
      assert log[|before| + v + 1] == tick[v + 1];
      t := v + 1;
    } else {
      WaitHasChild(cfg, log, |before| + v);
      assert log[..|before| + v] == before + tick[..v];
      t := LiveWasSpawned(cfg, before, tick[..v], i);
    }
  }

  /** Both daemons together make progress: once the marker is visible before a tick of `supervise`
      begins, and power stays on, the tick starts kubelet, or tries to, whatever noded goes on
      to do meanwhile. */
  lemma MarkerStartsKubelet(cfg: seq<Service>, kubelet: nat, d: DocDir,
      events: seq<SysEvent>, m: Sys, more: seq<SysEvent>, s: Sys, tick: seq<Obs>)
    requires kubelet < |cfg|
    requires Interleaving(cfg, kubelet, d, events, m) && Interleaving(cfg, kubelet, d, events + more, s)
    requires Powered(more) && BOOTSTRAP_KUBECONFIG in Current(m.dir)
    requires Accepted(cfg, m.log) && Run(cfg, m.log).value.phase == Visiting(0) && !HasChild(Run(cfg, m.log).value, kubelet)
    requires s.log == m.log + tick + [Sleep] && Sleep !in tick && Accepted(cfg, s.log)
    ensures exists t | 0 <= t < |tick| :: tick[t].Spawn? && tick[t].slot == kubelet
  {
    MarkerIsSeen(cfg, kubelet, d, events, m, more, s);
    assert s.log == m.log + (tick + [Sleep]);
    assert Seen(more) == s.log[|m.log|..] == tick + [Sleep];
    assert forall o | o in tick :: o in Seen(more);
    var t := TickStarts(cfg, m.log, tick, kubelet);
  }
}
