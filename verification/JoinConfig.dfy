/** `PUT /v1/config`, the persisted intent and the kubelet join files, across power losses. */
module JoinConfig {
  import opened Storage
  import opened Host
  import opened AtomicWrite
  import opened Volumes
  import opened Intent
  import opened Kubelet

  datatype Doc = IntentJson(intent: NodeIntent) | Text(text: string)

  type Docs = Files<Doc>
  type DocDir = Dir<Doc>

  const NODE_INTENT := "node-intent.json"
  const KUBELET_CONFIG := "config.yaml"
  const BOOTSTRAP_KUBECONFIG := "bootstrap-kubeconfig"

  /** The join files in the order they are written; the last is initd's start marker. */
  function JoinPlan(intent: NodeIntent): seq<Assign<Doc>> {
    [Assign(CLUSTER_CA, Text(intent.clusterCa)),
     Assign(KUBELET_CONFIG, Text(KubeletConfig(intent))),
     Assign(BOOTSTRAP_KUBECONFIG, Text(BootstrapKubeconfig(intent)))]
  }

  lemma IntentNameIsLasting()
    ensures !IsTemp(NODE_INTENT)
  {
    assert NODE_INTENT[0] == 'n';
  }

  lemma NamesAreLasting(intent: NodeIntent)
    ensures !IsTemp(NODE_INTENT) && Lasting(JoinPlan(intent))
    ensures CLUSTER_CA != KUBELET_CONFIG && KUBELET_CONFIG != BOOTSTRAP_KUBECONFIG && CLUSTER_CA != BOOTSTRAP_KUBECONFIG
  {
    assert NODE_INTENT[0] == 'n' && CLUSTER_CA[0] == 'c' && KUBELET_CONFIG[0] == 'c' && BOOTSTRAP_KUBECONFIG[0] == 'b';
    assert CLUSTER_CA[1] == 'l' && KUBELET_CONFIG[1] == 'o';
  }

  /** All three join files are the rendering of `intent`. */
  ghost predicate RenderedFor(f: Docs, intent: NodeIntent) {
    && Has(f, CLUSTER_CA, Text(intent.clusterCa))
    && Has(f, KUBELET_CONFIG, Text(KubeletConfig(intent)))
    && Has(f, BOOTSTRAP_KUBECONFIG, Text(BootstrapKubeconfig(intent)))
  }

  /** The first `j` writes of the plan, spelled out. */
  ghost function JoinPart(f: Docs, intent: NodeIntent, j: nat): Docs {
    var f1 := f[CLUSTER_CA := Inode(Whole(Text(intent.clusterCa)), true)];
    var f2 := f1[KUBELET_CONFIG := Inode(Whole(Text(KubeletConfig(intent))), true)];
    if j == 0 then f else if j == 1 then f1 else if j == 2 then f2
    else f2[BOOTSTRAP_KUBECONFIG := Inode(Whole(Text(BootstrapKubeconfig(intent))), true)]
  }

  lemma JoinParts(f: Docs, intent: NodeIntent, j: nat)
    requires j <= 3
    ensures Assigned(f, JoinPlan(intent)[..j]) == JoinPart(f, intent, j)
    ensures j == 3 ==> RenderedFor(JoinPart(f, intent, j), intent)
  {
    var plan := JoinPlan(intent);
    NamesAreLasting(intent);
    if j > 0 {
      AssignedStep(f, plan, j - 1);
      if j > 1 {
        AssignedStep(JoinPart(f, intent, 1), plan[1..], j - 2);
        assert plan[1..][1..] == [plan[2]];
        if j > 2 {
          AssignedStep(JoinPart(f, intent, 2), [plan[2]], 0);
        }
      }
    }
  }

  /** Both files that kubelet reads name the CA file that `reconcile` writes before them. */
  lemma RenderingsNameTheCaFile(p: Parsers, f: Docs, intent: NodeIntent)
    requires p.Sound() && Validated(p, intent) && RenderedFor(f, intent)
    ensures CLUSTER_CA in f && f[CLUSTER_CA].data == Whole(Text(intent.clusterCa))
    ensures Field(Lines(f[KUBELET_CONFIG].data.content.text), CLIENT_CA) == Some(KUBELET_DIR + CLUSTER_CA)
    ensures Field(Lines(f[BOOTSTRAP_KUBECONFIG].data.content.text), AUTHORITY) == Some(KUBELET_DIR + CLUSTER_CA)
  {
    KubeletConfigNamesCa(p, intent);
    KubeconfigNamesCa(intent);
  }

  // ---- lives ----

  datatype Store = Store(k8s: DocDir, kubelet: DocDir)

  datatype Act =
    | Put(intent: NodeIntent, persist: Fate, fates: seq<Fate>)
    | Boot(fates: seq<Fate>)
    | PowerLoss(keepIntent: nat, keepJoin: nat)

  /** `load_node_intent`; what was serialized parses back. */
  ghost function Loaded(f: Docs): Option<NodeIntent> {
    if NODE_INTENT in f && f[NODE_INTENT].data.Whole? && f[NODE_INTENT].data.content.IntentJson?
    then Some(f[NODE_INTENT].data.content.intent)
    else None
  }

  ghost predicate Possible(p: Parsers, s: Store, act: Act) {
    match act
    case Put(intent, persist, fates) =>
      && Validated(p, intent) && Series(JoinPlan(intent), fates)
      && (persist.Stopped? ==> fates == [])
    case Boot(fates) =>
      var found := Loaded(Current(s.k8s));
      if found.None? then fates == []
      else Series(JoinPlan(found.value), fates) && (!Validated(p, found.value) ==> fates == [])
    case PowerLoss(_, _) => true
  }

  ghost function After(p: Parsers, s: Store, act: Act): Store
    requires Possible(p, s, act)
  {
    match act
    case Put(intent, persist, fates) =>
      Store(Replay(s.k8s, AtomicEvents(NODE_INTENT, IntentJson(intent), persist)),
            Replay(s.kubelet, SeriesEvents(JoinPlan(intent), fates)))
    case Boot(fates) =>
      (match Loaded(Current(s.k8s))
       case None => s
       case Some(intent) => s.(kubelet := Replay(s.kubelet, SeriesEvents(JoinPlan(intent), fates))))
    case PowerLoss(k, j) => Store(Do(s.k8s, Crash(k)), Do(s.kubelet, Crash(j)))
  }

  ghost predicate Life(p: Parsers, s: Store, acts: seq<Act>, s': Store)
    decreases |acts|
  {
    if acts == [] then s' == s
    else
      var last := acts[|acts| - 1];
      exists m :: Life(p, s, acts[..|acts| - 1], m) && Possible(p, m, last) && After(p, m, last) == s'
  }

  lemma LifeStep(p: Parsers, s: Store, acts: seq<Act>, m: Store, act: Act)
    requires Life(p, s, acts, m) && Possible(p, m, act)
    ensures Life(p, s, acts + [act], After(p, m, act))
  {
    var all := acts + [act];
    assert all[..|all| - 1] == acts && all[|all| - 1] == act;
    assert Life(p, s, all[..|all| - 1], m);
  }

  /** The PUT that ends before its first file call. */
  lemma NothingWritten(p: Parsers, s: Store, intent: NodeIntent)
    ensures Validated(p, intent) ==> Possible(p, s, Put(intent, Stopped(0, false), []))
    ensures Validated(p, intent) ==> After(p, s, Put(intent, Stopped(0, false), [])) == s
  {
    assert AtomicEvents(NODE_INTENT, IntentJson(intent), Stopped(0, false)) == [];
  }

  ghost predicate WellFormed(s: Store) {
    Wf(s.k8s) && Wf(s.kubelet)
  }

  lemma AfterKeepsWf(p: Parsers, s: Store, act: Act)
    requires WellFormed(s) && Possible(p, s, act)
    ensures WellFormed(After(p, s, act))
  {
    match act
    case Put(intent, persist, fates) =>
      NamesAreLasting(intent);
      AtomicAssignment(s.k8s, NODE_INTENT, IntentJson(intent), persist);
      OrderedPublication(s.kubelet, JoinPlan(intent), fates);
    case Boot(fates) =>
      if Loaded(Current(s.k8s)).Some? {
        NamesAreLasting(Loaded(Current(s.k8s)).value);
        OrderedPublication(s.kubelet, JoinPlan(Loaded(Current(s.k8s)).value), fates);
      }
    case PowerLoss(k, j) =>
      DoKeepsWf(s.k8s, Crash(k));
      DoKeepsWf(s.kubelet, Crash(j));
  }

  // ---- which intent is there after a crash ----

  /** Some PUT of this life got its intent as far as the rename. */
  ghost predicate Persisted(acts: seq<Act>, intent: NodeIntent) {
    exists i | 0 <= i < |acts| :: acts[i].Put? && acts[i].intent == intent && acts[i].persist.Renamed?
  }

  /** What the intent file in `f` can be: as at the start, or one persisted since. */
  ghost predicate Accounted(start: Docs, acts: seq<Act>, f: Docs) {
    || (NODE_INTENT !in f && NODE_INTENT !in start)
    || (NODE_INTENT in f && NODE_INTENT in start && f[NODE_INTENT] == start[NODE_INTENT])
    || exists intent | Persisted(acts, intent) :: Has(f, NODE_INTENT, IntentJson(intent))
  }

  lemma AccountedGrows(start: Docs, acts: seq<Act>, act: Act, f: Docs)
    requires Accounted(start, acts, f)
    ensures Accounted(start, acts + [act], f)
  {
    if intent :| Persisted(acts, intent) && Has(f, NODE_INTENT, IntentJson(intent)) {
      var i :| 0 <= i < |acts| && acts[i].Put? && acts[i].intent == intent && acts[i].persist.Renamed?;
      assert (acts + [act])[i] == acts[i];
      assert Persisted(acts + [act], intent);
    }
  }

  lemma AccountedAfterCrash(start: Docs, acts: seq<Act>, f: Docs)
    requires Accounted(start, acts, f)
    requires NODE_INTENT in start ==> start[NODE_INTENT].synced
    ensures Accounted(start, acts, AfterCrash(f))
  {
    if intent :| Persisted(acts, intent) && Has(f, NODE_INTENT, IntentJson(intent)) {
      assert Has(AfterCrash(f), NODE_INTENT, IntentJson(intent));
    }
  }

  /** What persisting an intent adds to the images, however far it got. */
  lemma PutOutcome(d: DocDir, intent: NodeIntent, persist: Fate)
    requires Wf(d)
    ensures var d' := Replay(d, AtomicEvents(NODE_INTENT, IntentJson(intent), persist));
            && Wf(d')
            && (forall f | f in Images(d') && f !in Images(d) :: persist.Renamed? && Has(f, NODE_INTENT, IntentJson(intent)))
            && (persist == Renamed(None) ==> Images(d) <= Images(d'))
            && (persist.Renamed? ==> Has(Current(d'), NODE_INTENT, IntentJson(intent)))
  {
    NamesAreLasting(intent);
    AtomicAssignment(d, NODE_INTENT, IntentJson(intent), persist);
  }

  ghost predicate AllAccounted(start: Docs, acts: seq<Act>, d: DocDir) {
    forall f | f in Images(d) :: Accounted(start, acts, f)
  }

  lemma PutKeepsAccount(start: Docs, acts: seq<Act>, d: DocDir, act: Act)
    requires Wf(d) && AllAccounted(start, acts, d) && act.Put?
    ensures AllAccounted(start, acts + [act], Replay(d, AtomicEvents(NODE_INTENT, IntentJson(act.intent), act.persist)))
  {
    PutOutcome(d, act.intent, act.persist);
    assert (acts + [act])[|acts|] == act;
    assert act.persist.Renamed? ==> Persisted(acts + [act], act.intent);
    forall f | f in Images(d) ensures Accounted(start, acts + [act], f) {
      AccountedGrows(start, acts, act, f);
    }
  }

  lemma PowerLossKeepsAccount(start: Docs, acts: seq<Act>, d: DocDir, keep: nat)
    requires Wf(d) && AllAccounted(start, acts, d)
    requires NODE_INTENT in start ==> start[NODE_INTENT].synced
    ensures AllAccounted(start, acts, Do(d, Crash(keep)))
  {
    CrashPicksImage(d, keep);
    AccountedAfterCrash(start, acts, Resolve(d.inodes, Kept(d, keep)));
  }

  lemma AllAccountedGrows(start: Docs, acts: seq<Act>, act: Act, d: DocDir)
    requires AllAccounted(start, acts, d)
    ensures AllAccounted(start, acts + [act], d)
  {
    forall f | f in Images(d) ensures Accounted(start, acts + [act], f) {
      AccountedGrows(start, acts, act, f);
    }
  }

  /** From the point where an intent, or its absence, is settled on disk, no sequence of PUTs
      (cut off anywhere), boots and power losses brings back anything older: every image
      holds that intent or one persisted by a later PUT. In particular an intent that was
      answered OK with its directory sync done is never lost, and after one interrupted PUT
      it is the intent from before or the PUT's own. */
  lemma {:induction false} IntentNeverLost(p: Parsers, s: Store, acts: seq<Act>, s': Store)
    requires WellFormed(s) && Life(p, s, acts, s')
    requires Images(s.k8s) == {Current(s.k8s)}
    requires NODE_INTENT in Current(s.k8s) ==> Current(s.k8s)[NODE_INTENT].synced
    ensures WellFormed(s')
    ensures AllAccounted(Current(s.k8s), acts, s'.k8s)
    decreases |acts|
  {
    if acts != [] {
      var before, act, start := acts[..|acts| - 1], acts[|acts| - 1], Current(s.k8s);
      var m :| Life(p, s, before, m) && Possible(p, m, act) && After(p, m, act) == s';
      IntentNeverLost(p, s, before, m);
      AfterKeepsWf(p, m, act);
      assert before + [act] == acts;
      match act
      case Put(_, _, _) =>
        PutKeepsAccount(start, before, m.k8s, act);
      case Boot(_) =>
        AllAccountedGrows(start, before, act, m.k8s);
      case PowerLoss(keep, _) =>
        AllAccountedGrows(start, before, act, m.k8s);
        PowerLossKeepsAccount(start, acts, m.k8s, keep);
    }
  }

  lemma LoadedAfterCrash(f: Docs)
    requires NODE_INTENT in f ==> f[NODE_INTENT].synced
    ensures Loaded(AfterCrash(f)) == Loaded(f)
  {
  }

  /** The intent file is on disk as it is in view: whatever a power loss leaves, the same
      intent is loaded. */
  ghost predicate IntentSettled(d: DocDir) {
    forall f | f in Images(d) :: Loaded(AfterCrash(f)) == Loaded(Current(d))
  }

  /** A PUT cut off as `persist` says, and then a power loss: the node boots with the intent
      from before, or with the PUT's own if it got as far as the rename. */
  ghost predicate OldOrNew(d: DocDir, intent: NodeIntent, persist: Fate, keep: nat) {
    var cut := Replay(d, AtomicEvents(NODE_INTENT, IntentJson(intent), persist));
    var found := Loaded(Current(Do(cut, Crash(keep))));
    found == Loaded(Current(d)) || (persist.Renamed? && found == Some(intent))
  }

  /** So it is, wherever the PUT is cut off, when the intent before it was settled. */
  lemma InterruptedPut(d: DocDir, intent: NodeIntent, persist: Fate, keep: nat)
    requires Wf(d) && IntentSettled(d)
    ensures OldOrNew(d, intent, persist, keep)
  {
    var cut := Replay(d, AtomicEvents(NODE_INTENT, IntentJson(intent), persist));
    PutOutcome(d, intent, persist);
    CrashPicksImage(cut, keep);
    var f := Resolve(cut.inodes, Kept(cut, keep));
    if f !in Images(d) {
      LoadedAfterCrash(f);
    }
  }

  /** When it is settled: a PUT that ends before its rename leaves that as it was; and one that
      got as far as the rename, and put another intent in place than would be loaded before,
      settles it exactly if its directory sync took everything, whatever was settled before. */
  lemma SettledExactly(d: DocDir, intent: NodeIntent, persist: Fate)
    requires Wf(d)
    ensures var d' := Replay(d, AtomicEvents(NODE_INTENT, IntentJson(intent), persist));
            && (persist.Stopped? ==> (IntentSettled(d') <==> IntentSettled(d)))
            && (persist.Renamed? && Loaded(AfterCrash(Current(d))) != Some(intent) ==>
                  (IntentSettled(d') <==> TookAll(d, NODE_INTENT, IntentJson(intent), persist)))
            && (TookAll(d, NODE_INTENT, IntentJson(intent), persist) ==> IntentSettled(d'))
  {
    var doc := IntentJson(intent);
    var d' := Replay(d, AtomicEvents(NODE_INTENT, doc, persist));
    NamesAreLasting(intent);
    AtomicAssignment(d, NODE_INTENT, doc, persist);
    if persist.Renamed? {
      LoadedAfterCrash(Current(d'));
      if TookAll(d, NODE_INTENT, doc, persist) {
        FullSyncSettles(d, NODE_INTENT, doc, persist);
      } else {
        PartialSyncKeepsOld(d, NODE_INTENT, doc, persist);
      }
    }
  }

  /** After a power loss it always is. */
  lemma PowerLossSettles(d: DocDir, keep: nat)
    requires Wf(d)
    ensures IntentSettled(Do(d, Crash(keep)))
  {
    CrashPicksImage(d, keep);
    LoadedAfterCrash(Current(Do(d, Crash(keep))));
  }

  /** So over two PUTs: with the first persisted, and a second stopped before its rename or
      renamed without a sync, every power loss leaves the first's intent or the second's own
      if and only if the directory sync of the first took everything. */
  lemma OldOrNewExactly(d: DocDir, first: NodeIntent, persist: Fate, second: NodeIntent, cut: Fate)
    requires Wf(d) && persist.Renamed? && Loaded(AfterCrash(Current(d))) != Some(first)
    requires cut.Stopped? || (cut == Renamed(None) && Loaded(AfterCrash(Current(d))) != Some(second))
    ensures var d' := Replay(d, AtomicEvents(NODE_INTENT, IntentJson(first), persist));
            (forall keep: nat :: OldOrNew(d', second, cut, keep)) <==> TookAll(d, NODE_INTENT, IntentJson(first), persist)
  {
    var d' := Replay(d, AtomicEvents(NODE_INTENT, IntentJson(first), persist));
    PutOutcome(d, first, persist);
    SettledExactly(d, first, persist);
    if TookAll(d, NODE_INTENT, IntentJson(first), persist) {
      forall keep: nat ensures OldOrNew(d', second, cut, keep) {
        InterruptedPut(d', second, cut, keep);
      }
    } else {
      IntentNameIsLasting();
      PartialSyncKeepsOld(d, NODE_INTENT, IntentJson(first), persist);
      PutOutcome(d', second, cut);
      AtomicAssignment(d', NODE_INTENT, IntentJson(second), cut);
      var keep := EveryImageCanRemain(Replay(d', AtomicEvents(NODE_INTENT, IntentJson(second), cut)), Current(d));
      assert !OldOrNew(d', second, cut, keep);
    }
  }

  /** PUTs that were cut off after the rename, or could not open the directory to sync it. */
  function UnsyncedPuts(intents: seq<NodeIntent>): seq<Act> {
    if intents == [] then []
    else UnsyncedPuts(intents[..|intents| - 1]) + [Put(intents[|intents| - 1], Renamed(None), [])]
  }

  /** A power loss can leave `intent`. */
  ghost predicate CanReturn(d: DocDir, intent: NodeIntent) {
    exists keep :: Loaded(Current(Do(d, Crash(keep)))) == Some(intent)
  }

  lemma CanReturnStays(d: DocDir, d': DocDir, intent: NodeIntent)
    requires Wf(d) && Wf(d') && Images(d) <= Images(d') && CanReturn(d, intent)
    ensures CanReturn(d', intent)
  {
    var keep :| Loaded(Current(Do(d, Crash(keep)))) == Some(intent);
    CrashPicksImage(d, keep);
    var keep' := EveryImageCanRemain(d', Resolve(d.inodes, Kept(d, keep)));
  }

  lemma UnsyncedPut(p: Parsers, s: Store, acts: seq<Act>, m: Store, intent: NodeIntent) returns (s': Store)
    requires WellFormed(m) && Life(p, s, acts, m) && Validated(p, intent)
    ensures WellFormed(s') && Life(p, s, acts + [Put(intent, Renamed(None), [])], s')
    ensures Images(m.k8s) <= Images(s'.k8s) && CanReturn(s'.k8s, intent)
  {
    var act := Put(intent, Renamed(None), []);
    LifeStep(p, s, acts, m, act);
    AfterKeepsWf(p, m, act);
    s' := After(p, m, act);
    PutOutcome(m.k8s, intent, Renamed(None));
    var keep := EveryImageCanRemain(s'.k8s, Current(s'.k8s));
    LoadedAfterCrash(Current(s'.k8s));
  }

  ghost predicate AllCanReturn(d: DocDir, intents: seq<NodeIntent>) {
    forall i | i in intents :: CanReturn(d, i)
  }

  ghost predicate AllValidated(p: Parsers, intents: seq<NodeIntent>) {
    forall i | i in intents :: Validated(p, i)
  }

  lemma AllCanReturnGrows(d: DocDir, d': DocDir, intents: seq<NodeIntent>)
    requires Wf(d) && Wf(d') && Images(d) <= Images(d') && intents != []
    requires AllCanReturn(d, intents[..|intents| - 1]) && CanReturn(d', intents[|intents| - 1])
    ensures AllCanReturn(d', intents)
  {
    forall i | i in intents ensures CanReturn(d', i) {
      if i != intents[|intents| - 1] {
        assert i in intents[..|intents| - 1];
        CanReturnStays(d, d', i);
      }
    }
  }

  /** Without those syncs a crash can go back further than the last PUT: after any series of
      PUTs, each complete up to its rename, any one of their intents, or any image from before
      them all, may be what the node boots with. */
  lemma {:induction false} UnsyncedIntentsCanReturn(p: Parsers, s: Store, intents: seq<NodeIntent>) returns (s': Store)
    requires WellFormed(s) && AllValidated(p, intents)
    ensures WellFormed(s') && Life(p, s, UnsyncedPuts(intents), s')
    ensures Images(s.k8s) <= Images(s'.k8s) && AllCanReturn(s'.k8s, intents)
    decreases |intents|
  {
    if intents == [] {
      s' := s;
    } else {
      var n := |intents| - 1;
      assert forall i | i in intents[..n] :: i in intents;
      var m := UnsyncedIntentsCanReturn(p, s, intents[..n]);
      assert intents[n] in intents;
      s' := UnsyncedPut(p, s, UnsyncedPuts(intents[..n]), m, intents[n]);
      AllCanReturnGrows(m.k8s, s'.k8s, intents);
    }
  }

  // ---- recovery ----

  lemma ReconcileRenders(d: DocDir, intent: NodeIntent, fates: seq<Fate>)
    requires Wf(d) && Series(JoinPlan(intent), fates) && Done(fates) == 3
    ensures RenderedFor(Current(Replay(d, SeriesEvents(JoinPlan(intent), fates))), intent)
  {
    NamesAreLasting(intent);
    OrderedPublication(d, JoinPlan(intent), fates);
    JoinParts(Current(d), intent, 3);
  }

  /** After any life that ends in a boot whose reconcile succeeded, the node has an intent, the
      intent is accounted for, and all three join files are its rendering. */
  lemma RecoveryConverges(p: Parsers, s: Store, acts: seq<Act>, s': Store)
    requires WellFormed(s) && Life(p, s, acts, s')
    requires Images(s.k8s) == {Current(s.k8s)}
    requires NODE_INTENT in Current(s.k8s) ==> Current(s.k8s)[NODE_INTENT].synced
    requires acts != [] && acts[|acts| - 1].Boot? && Done(acts[|acts| - 1].fates) == 3
    ensures Accounted(Current(s.k8s), acts, Current(s'.k8s))
    ensures Loaded(Current(s'.k8s)).Some? && RenderedFor(Current(s'.kubelet), Loaded(Current(s'.k8s)).value)
  {
    IntentNeverLost(p, s, acts, s');
    assert Current(s'.k8s) in Images(s'.k8s);
    var before, act := acts[..|acts| - 1], acts[|acts| - 1];
    var m :| Life(p, s, before, m) && Possible(p, m, act) && After(p, m, act) == s';
    IntentNeverLost(p, s, before, m);
    ReconcileRenders(m.kubelet, Loaded(Current(m.k8s)).value, act.fates);
  }

  /** Over files that are rendered already a reconcile changes nothing, in view or in what a
      power loss can leave, wherever it ends. */
  lemma RenderedStays(d: DocDir, intent: NodeIntent, fates: seq<Fate>)
    requires Wf(d) && RenderedFor(Current(d), intent) && Series(JoinPlan(intent), fates)
    ensures var d' := Replay(d, SeriesEvents(JoinPlan(intent), fates));
            Current(d') == Current(d) && Images(d') <= Images(d)
  {
    NamesAreLasting(intent);
    OrderedPublication(d, JoinPlan(intent), fates);
    assert Current(d) in Images(d) && Done(fates) <= 3;
    forall j | 0 <= j <= 3 ensures Assigned(Current(d), JoinPlan(intent)[..j]) == Current(d) {
      RenderedPart(Current(d), intent, j);
    }
  }

  lemma RenderedPart(f: Docs, intent: NodeIntent, j: nat)
    requires RenderedFor(f, intent) && j <= 3
    ensures Assigned(f, JoinPlan(intent)[..j]) == f
  {
    JoinParts(f, intent, j);
    assert JoinPart(f, intent, j) == f;
  }

  /** So reconciling twice equals reconciling once: after one that went through, a second, ended
      anywhere, makes no difference to what is seen, nor can a power loss leave more. */
  lemma ReconcileIsIdempotent(d: DocDir, intent: NodeIntent, first: seq<Fate>, second: seq<Fate>)
    requires Wf(d) && Series(JoinPlan(intent), first) && Done(first) == 3 && Series(JoinPlan(intent), second)
    ensures var once := Replay(d, SeriesEvents(JoinPlan(intent), first));
            var twice := Replay(once, SeriesEvents(JoinPlan(intent), second));
            Current(twice) == Current(once) && Images(twice) <= Images(once)
  {
    var once := Replay(d, SeriesEvents(JoinPlan(intent), first));
    NamesAreLasting(intent);
    OrderedPublication(d, JoinPlan(intent), first);
    ReconcileRenders(d, intent, first);
    RenderedStays(once, intent, second);
  }

  // ---- the code ----

  datatype Status = OK | BadRequest | InternalServerError

  /** serde_json. */
  class Json {
    const writer: Library

    constructor (writer: Library)
      ensures this.writer == writer
    {
      this.writer := writer;
    }

    /** A torn file is not an intent, and an intent parses back. */
    method Parse(volume: Volume<Doc>, doc: Doc) returns (found: Option<NodeIntent>)
      requires Reads(Current(volume.dir), NODE_INTENT, doc)
      ensures found == Loaded(Current(volume.dir))
    {
      IntentNameIsLasting();
      var inode := Lookup(volume.dir.inodes, volume.dir.visible[NODE_INTENT]);
      found := if inode.data.Whole? && doc.IntentJson? then Some(doc.intent) else None;
    }
  }

  lemma AppliedMeansRendered(p: Parsers, s: Store, act: Act)
    requires WellFormed(s) && act.Put? && Possible(p, s, act) && act.persist.Renamed? && Done(act.fates) == 3
    ensures Loaded(Current(After(p, s, act).k8s)) == Some(act.intent)
    ensures RenderedFor(Current(After(p, s, act).kubelet), act.intent)
  {
    NamesAreLasting(act.intent);
    AtomicAssignment(s.k8s, NODE_INTENT, IntentJson(act.intent), act.persist);
    ReconcileRenders(s.kubelet, act.intent, act.fates);
  }

  class ConfigApi {
    const parsers: Parsers
    const k8s: Volume<Doc>
    const kubelet: Volume<Doc>
    const json: Json

    constructor (parsers: Parsers, k8s: Volume<Doc>, kubelet: Volume<Doc>, json: Json)
      ensures this.parsers == parsers && this.k8s == k8s && this.kubelet == kubelet && this.json == json
    {
      this.parsers, this.k8s, this.kubelet, this.json := parsers, k8s, kubelet, json;
    }

    ghost function State(): Store
      reads k8s, kubelet
    {
      Store(k8s.dir, kubelet.dir)
    }

    ghost function Failures(): nat
      reads k8s, kubelet, json.writer
    {
      k8s.failures + kubelet.failures + json.writer.failures
    }

    /** The persisted intent, unless it is not there, or reading it failed. */
    method LoadNodeIntent() returns (found: Option<NodeIntent>)
      modifies k8s`calls, k8s`failures
      ensures found == Loaded(Current(k8s.dir)) || (found.None? && k8s.failures > old(k8s.failures))
      ensures k8s.failures >= old(k8s.failures)
    {
      found := None;
      IntentNameIsLasting();
      var doc := k8s.ReadFile(NODE_INTENT);
      if doc.Some? { found := json.Parse(k8s, doc.value); }
    }

    method WriteNext(name: string, doc: Doc, ghost d0: DocDir, ghost plan: seq<Assign<Doc>>, ghost before: seq<Fate>)
      returns (ok: bool, ghost fates: seq<Fate>)
      requires Wf(kubelet.dir) && !IsTemp(name)
      requires |before| < |plan| && plan[|before|] == Assign(name, doc) && Series(plan, before) && Done(before) == |before|
      requires kubelet.dir == Replay(d0, SeriesEvents(plan, before))
      modifies kubelet
      ensures Wf(kubelet.dir) && |fates| == |before| + 1 && Series(plan, fates)
      ensures kubelet.dir == Replay(d0, SeriesEvents(plan, fates))
      ensures ok == (Done(fates) == |fates|) && Done(fates) == |before| + (if ok then 1 else 0)
      ensures kubelet.failures >= old(kubelet.failures) && (!ok ==> kubelet.failures > old(kubelet.failures))
    {
      ghost var fate;
      ok, fate := kubelet.WriteAtomic(name, doc);
      ReplaySeriesSnoc(d0, plan, before, fate);
      fates := before + [fate];
      assert before != [] ==> before[|before| - 1].Renamed?;
    }

    /** `K8sProfile::reconcile` with an intent: the marker is written last. */
    method Reconcile(intent: NodeIntent) returns (ok: bool, ghost fates: seq<Fate>)
      requires Wf(kubelet.dir)
      modifies kubelet
      ensures Wf(kubelet.dir) && Series(JoinPlan(intent), fates) && (!Validated(parsers, intent) ==> fates == [])
      ensures kubelet.dir == Replay(old(kubelet.dir), SeriesEvents(JoinPlan(intent), fates))
      ensures ok == (Done(fates) == 3)
      ensures kubelet.failures >= old(kubelet.failures)
      ensures !ok ==> !Validated(parsers, intent) || kubelet.failures > old(kubelet.failures)
    {
      ghost var d0 := kubelet.dir;
      ghost var plan := JoinPlan(intent);
      fates, ok := [], false;
      NamesAreLasting(intent);
      if !Validated(parsers, intent) { return; }
      ok, fates := WriteNext(CLUSTER_CA, Text(intent.clusterCa), d0, plan, fates);
      if !ok { return; }
      var text := RenderKubeletConfig(intent);
      ok, fates := WriteNext(KUBELET_CONFIG, Text(text), d0, plan, fates);
      if !ok { return; }
      ok, fates := WriteNext(BOOTSTRAP_KUBECONFIG, Text(BootstrapKubeconfig(intent)), d0, plan, fates);
    }

    /** Persist, then reconcile. */
    method Apply(intent: NodeIntent) returns (status: Status, ghost act: Act)
      requires k8s != kubelet && WellFormed(State()) && Validated(parsers, intent)
      modifies k8s, kubelet
      ensures WellFormed(State()) && !status.BadRequest?
      ensures act.Put? && act.intent == intent
      ensures Possible(parsers, old(State()), act) && State() == After(parsers, old(State()), act)
      ensures status.OK? <==> act.persist.Renamed? && Done(act.fates) == 3
      ensures Failures() >= old(Failures()) && (!status.OK? ==> Failures() > old(Failures()))
    {
      NamesAreLasting(intent);
      var ok;
      ghost var persist;
      ok, persist := k8s.WriteAtomic(NODE_INTENT, IntentJson(intent));
      act, status := Put(intent, persist, []), InternalServerError;
      if ok {
        ghost var fates;
        ok, fates := Reconcile(intent);
        act := Put(intent, persist, fates);
        status := if ok then OK else InternalServerError;
      }
    }

    /** `put_config`: validate, persist, reconcile. A rejected intent changes nothing; an intent
        answered OK is persisted and rendered; and there is no other answer to a valid one
        unless something failed. */
    method PutConfig(intent: NodeIntent) returns (status: Status, ghost act: Act)
      requires k8s != kubelet && WellFormed(State())
      modifies k8s, kubelet, json.writer
      ensures WellFormed(State())
      ensures status.InternalServerError? ==> Failures() > old(Failures())
      ensures status.BadRequest? <==> !Validated(parsers, intent)
      ensures status.BadRequest? ==> State() == old(State())
      ensures !status.BadRequest? ==>
                && act.Put? && act.intent == intent
                && Possible(parsers, old(State()), act) && State() == After(parsers, old(State()), act)
      ensures status.OK? ==>
                Loaded(Current(k8s.dir)) == Some(intent) && RenderedFor(Current(kubelet.dir), intent)
    {
      act, status := Put(intent, Stopped(0, false), []), BadRequest;
      NothingWritten(parsers, State(), intent);
      if Validated(parsers, intent) {
        status := InternalServerError;
        var serialized := json.writer.Call();
        if serialized {
          ghost var before := State();
          status, act := Apply(intent);
          if status.OK? {
            AppliedMeansRendered(parsers, before, act);
          }
        }
      }
    }

    /** The boot-time part of `run`: reconcile from the persisted intent, at best effort. A valid
        one is rendered unless something failed. */
    method ReconcileAtBoot() returns (ok: bool, ghost fates: seq<Fate>)
      requires k8s != kubelet && WellFormed(State())
      modifies kubelet, k8s`calls, k8s`failures
      ensures WellFormed(State())
      ensures Possible(parsers, old(State()), Boot(fates)) && State() == After(parsers, old(State()), Boot(fates))
      ensures Loaded(Current(k8s.dir)).None? ==> ok && kubelet.dir == old(kubelet.dir)
      ensures var found := Loaded(Current(k8s.dir));
              found.Some? && Validated(parsers, found.value) && Failures() == old(Failures()) ==>
                ok && Done(fates) == 3 && RenderedFor(Current(kubelet.dir), found.value)
      ensures Failures() >= old(Failures())
      ensures !ok ==> Loaded(Current(k8s.dir)).Some?
                      && (!Validated(parsers, Loaded(Current(k8s.dir)).value) || Failures() > old(Failures()))
    {
      fates, ok := [], true;
      assert Replay(kubelet.dir, []) == kubelet.dir;
      var desired := LoadNodeIntent();
      if desired.Some? {
        ok, fates := Reconcile(desired.value);
        if ok { ReconcileRenders(old(kubelet.dir), desired.value, fates); }
      }
    }
  }
}
