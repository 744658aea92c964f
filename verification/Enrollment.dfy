/** Software keys: bootstrap enrollment and renewal over whole lives of the node.

    A life is a sequence of acts: process starts, enrollment and renewal attempts that may
    be refused or cut off at any file call, process deaths and power losses. */
module Enrollment {
  import opened Storage
  import opened AtomicWrite
  import opened Pki

  /** What one successful run of `simpleenroll` and `cacerts` brings. */
  datatype Identity = Identity(cert: Cert, key: nat, caCerts: seq<string>) {
    ghost predicate Valid() {
      cert.publicKey == key && caCerts != []
    }
  }

  function BootstrapPlan(paths: Paths, id: Identity): seq<Assign<Content>> {
    [Assign(paths.certFile, CertPem(id.cert)), Assign(paths.keyFile, KeyPem(id.key)),
     Assign(paths.clientCa, CaPem(Concat(id.caCerts)))]
  }

  function RenewalPlan(paths: Paths, cert: Cert, key: nat): seq<Assign<Content>> {
    [Assign(paths.certFile, CertPem(cert)), Assign(paths.keyFile, KeyPem(key))]
  }

  datatype Mode = Down | Bootstrapping(attempts: nat) | Serving

  datatype Node = Node(dir: PkiDir, mode: Mode)

  datatype Act =
    | Start
    | Enroll(id: Identity, fates: seq<Fate>)            // fates == []: failed before the first write
    | Renew(cert: Cert, key: nat, fates: seq<Fate>)
    | Die
    | PowerLoss(keep: nat)

  ghost predicate Possible(paths: Paths, n: Node, act: Act) {
    match act
    case Start => n.mode.Down?
    case Enroll(id, fates) =>
      && n.mode.Bootstrapping? && n.mode.attempts < BOOTSTRAP_ATTEMPTS
      && id.Valid() && Series(BootstrapPlan(paths, id), fates)
    case Renew(cert, key, fates) =>
      n.mode.Serving? && cert.publicKey == key && Series(RenewalPlan(paths, cert, key), fates)
    case Die => true
    case PowerLoss(_) => true
  }

  ghost function After(paths: Paths, n: Node, act: Act): Node
    requires Possible(paths, n, act)
  {
    match act
    case Start => n.(mode := if PkiPresent(paths, false, Current(n.dir)) then Serving else Bootstrapping(0))
    case Enroll(id, fates) =>
      var attempts := n.mode.attempts + 1;
      Node(Replay(n.dir, SeriesEvents(BootstrapPlan(paths, id), fates)),
           if Done(fates) == 3 then Serving else if attempts < BOOTSTRAP_ATTEMPTS then Bootstrapping(attempts) else Down)
    case Renew(cert, key, fates) =>
      n.(dir := Replay(n.dir, SeriesEvents(RenewalPlan(paths, cert, key), fates)))
    case Die => n.(mode := Down)
    case PowerLoss(keep) => Node(Do(n.dir, Crash(keep)), Down)
  }

  ghost predicate Life(paths: Paths, n: Node, acts: seq<Act>, n': Node)
    decreases |acts|
  {
    if acts == [] then n' == n
    else
      var last := acts[|acts| - 1];
      exists m :: Life(paths, n, acts[..|acts| - 1], m) && Possible(paths, m, last) && After(paths, m, last) == n'
  }

  lemma LifeStep(paths: Paths, n: Node, acts: seq<Act>, m: Node, act: Act)
    requires Life(paths, n, acts, m) && Possible(paths, m, act)
    ensures Life(paths, n, acts + [act], After(paths, m, act))
  {
    var all := acts + [act];
    assert all[..|all| - 1] == acts && all[|all| - 1] == act;
    assert Life(paths, n, all[..|all| - 1], m);
  }

  // ---- bootstrap ----

  ghost predicate Enrolled(acts: seq<Act>, id: Identity) {
    exists i, fates | 0 <= i < |acts| :: acts[i] == Enroll(id, fates)
  }

  /** Certificate, key and CA bundle are the complete ones of `id`. */
  ghost predicate Holds(paths: Paths, f: PkiFiles, id: Identity) {
    && Has(f, paths.certFile, CertPem(id.cert))
    && Has(f, paths.keyFile, KeyPem(id.key))
    && HasBundle(paths, f, id.caCerts)
  }

  /** The certificate of a renewal that got as far as writing it; its key is not `key`. */
  ghost predicate CutRenewal(acts: seq<Act>, cert: Cert, key: nat) {
    exists i | 0 <= i < |acts| :: RenewsCert(acts[i], cert) && acts[i].key != key
  }

  predicate RenewsCert(act: Act, cert: Cert) {
    act.Renew? && act.cert == cert && act.fates != [] && act.fates[0].Renamed?
  }

  predicate RenewsKey(act: Act, key: nat) {
    act.Renew? && act.key == key && Done(act.fates) == 2
  }

  /** The complete CA bundle of `id`, a whole certificate and a whole key; each of the two is
      `id`'s or a renewal's, and they fit unless a renewal wrote the one and not the other. */
  ghost predicate WholePki(paths: Paths, acts: seq<Act>, f: PkiFiles, id: Identity, cert: Cert, key: nat) {
    && id.Valid() && Enrolled(acts, id)
    && Has(f, paths.certFile, CertPem(cert)) && Has(f, paths.keyFile, KeyPem(key))
    && HasBundle(paths, f, id.caCerts)
    && (cert == id.cert || exists i | 0 <= i < |acts| :: RenewsCert(acts[i], cert))
    && (key == id.key || exists i | 0 <= i < |acts| :: RenewsKey(acts[i], key))
    && (cert.publicKey == key || CutRenewal(acts, cert, key))
  }

  /** A CA bundle is there only over a whole certificate and key. */
  ghost predicate CaIsLast(paths: Paths, acts: seq<Act>, f: PkiFiles) {
    paths.clientCa in f ==> exists id: Identity, cert, key :: WholePki(paths, acts, f, id, cert, key)
  }

  ghost predicate BootstrapInv(paths: Paths, acts: seq<Act>, n: Node) {
    && Wf(n.dir)
    && (forall f | f in Images(n.dir) :: CaIsLast(paths, acts, f))
    && (n.mode.Bootstrapping? ==> paths.clientCa !in Current(n.dir))
    && (n.mode.Serving? ==> PkiPresent(paths, false, Current(n.dir)))
  }

  lemma EnrolledGrows(acts: seq<Act>, act: Act, id: Identity)
    requires Enrolled(acts, id)
    ensures Enrolled(acts + [act], id)
  {
    var i, fates :| 0 <= i < |acts| && acts[i] == Enroll(id, fates);
    assert (acts + [act])[i] == Enroll(id, fates);
  }

  lemma WholePkiGrows(paths: Paths, acts: seq<Act>, act: Act, f: PkiFiles, id: Identity, cert: Cert, key: nat)
    requires WholePki(paths, acts, f, id, cert, key)
    ensures WholePki(paths, acts + [act], f, id, cert, key)
  {
    EnrolledGrows(acts, act, id);
    assert forall i | 0 <= i < |acts| :: (acts + [act])[i] == acts[i];
    if i :| 0 <= i < |acts| && RenewsCert(acts[i], cert) { assert RenewsCert((acts + [act])[i], cert); }
    if i :| 0 <= i < |acts| && RenewsKey(acts[i], key) { assert RenewsKey((acts + [act])[i], key); }
    if i :| 0 <= i < |acts| && RenewsCert(acts[i], cert) && acts[i].key != key { assert RenewsCert((acts + [act])[i], cert); }
  }

  lemma CaIsLastGrows(paths: Paths, acts: seq<Act>, act: Act, f: PkiFiles)
    requires CaIsLast(paths, acts, f)
    ensures CaIsLast(paths, acts + [act], f)
  {
    if paths.clientCa in f {
      var id: Identity, cert, key :| WholePki(paths, acts, f, id, cert, key);
      WholePkiGrows(paths, acts, act, f, id, cert, key);
    }
  }

  /** The four states one bootstrap attempt goes through, written out. */
  lemma BootstrapParts(paths: Paths, f: PkiFiles, id: Identity, j: nat)
    requires paths.Valid() && j <= 3
    ensures var g := Assigned(f, BootstrapPlan(paths, id)[..j]);
            && (j < 3 && paths.clientCa !in f ==> paths.clientCa !in g)
            && (j == 3 ==> Holds(paths, g, id))
  {
    var plan := BootstrapPlan(paths, id);
    if j > 0 {
      AssignedStep(f, plan, j - 1);
      var f1 := f[paths.certFile := Inode(Whole(CertPem(id.cert)), true)];
      if j > 1 {
        AssignedStep(f1, plan[1..], j - 2);
        var f2 := f1[paths.keyFile := Inode(Whole(KeyPem(id.key)), true)];
        assert plan[1..][1..] == [plan[2]];
        if j > 2 {
          AssignedStep(f2, [plan[2]], 0);
          ConcatIsBundle(id.caCerts);
        }
      }
    }
  }

  lemma EnrollKeepsInv(paths: Paths, acts: seq<Act>, n: Node, id: Identity, fates: seq<Fate>)
    requires paths.Valid() && BootstrapInv(paths, acts, n) && Possible(paths, n, Enroll(id, fates))
    ensures BootstrapInv(paths, acts + [Enroll(id, fates)], After(paths, n, Enroll(id, fates)))
  {
    var act := Enroll(id, fates);
    var n' := After(paths, n, act);
    var plan := BootstrapPlan(paths, id);
    OrderedPublication(n.dir, plan, fates);
    assert (acts + [act])[|acts|] == act;
    forall f | f in Images(n'.dir) ensures CaIsLast(paths, acts + [act], f) {
      if f in Images(n.dir) {
        CaIsLastGrows(paths, acts, act, f);
      } else {
        var j :| 0 <= j <= Done(fates) && f == Assigned(Current(n.dir), plan[..j]);
        BootstrapParts(paths, Current(n.dir), id, j);
        assert Enrolled(acts + [act], id);
        assert j == 3 ==> WholePki(paths, acts + [act], f, id, id.cert, id.key);
      }
    }
    BootstrapParts(paths, Current(n.dir), id, Done(fates));
  }

  lemma RenewedPart(paths: Paths, acts: seq<Act>, f: PkiFiles, act: Act, j: nat)
    requires paths.Valid() && CaIsLast(paths, acts, f) && paths.clientCa in f
    requires act.Renew? && act.cert.publicKey == act.key && Series(RenewalPlan(paths, act.cert, act.key), act.fates)
    requires j <= Done(act.fates) <= 2
    ensures CaIsLast(paths, acts + [act], Assigned(f, RenewalPlan(paths, act.cert, act.key)[..j]))
  {
    var all, g := acts + [act], Assigned(f, RenewalPlan(paths, act.cert, act.key)[..j]);
    var id: Identity, cert, key :| WholePki(paths, acts, f, id, cert, key);
    WholePkiGrows(paths, acts, act, f, id, cert, key);
    RenewalParts(paths, f, act.cert, act.key);
    assert all[|acts|] == act;
    if j == 0 {
      assert WholePki(paths, all, g, id, cert, key);
    } else {
      assert RenewsCert(all[|acts|], act.cert);
      if j == 1 {
        assert act.key != key ==> CutRenewal(all, act.cert, key);
        assert WholePki(paths, all, g, id, act.cert, key);
      } else {
        assert RenewsKey(all[|acts|], act.key);
        assert WholePki(paths, all, g, id, act.cert, act.key);
      }
    }
  }

  lemma RenewKeepsInv(paths: Paths, acts: seq<Act>, n: Node, act: Act)
    requires paths.Valid() && BootstrapInv(paths, acts, n) && act.Renew? && Possible(paths, n, act)
    ensures BootstrapInv(paths, acts + [act], After(paths, n, act))
  {
    var d', plan := After(paths, n, act).dir, RenewalPlan(paths, act.cert, act.key);
    OrderedPublication(n.dir, plan, act.fates);
    RenewalParts(paths, Current(n.dir), act.cert, act.key);
    assert Done(act.fates) == 0 || Done(act.fates) == 1 || Done(act.fates) == 2;
    assert Current(n.dir) in Images(n.dir);
    forall f | f in Images(d') ensures CaIsLast(paths, acts + [act], f) {
      if f in Images(n.dir) {
        CaIsLastGrows(paths, acts, act, f);
      } else {
        var j :| 0 <= j <= Done(act.fates) && f == Assigned(Current(n.dir), plan[..j]);
        RenewedPart(paths, acts, Current(n.dir), act, j);
      }
    }
  }

  lemma AfterCrashKeepsCaIsLast(paths: Paths, acts: seq<Act>, f: PkiFiles)
    requires CaIsLast(paths, acts, f)
    ensures CaIsLast(paths, acts, AfterCrash(f))
  {
    if paths.clientCa in AfterCrash(f) {
      var id: Identity, cert, key :| WholePki(paths, acts, f, id, cert, key);
      assert WholePki(paths, acts, AfterCrash(f), id, cert, key);
    }
  }

  lemma {:induction false} BootstrapInvHolds(paths: Paths, n: Node, acts: seq<Act>, n': Node)
    requires paths.Valid() && Wf(n.dir) && n.mode.Down?
    requires forall f | f in Images(n.dir) :: paths.clientCa !in f
    requires Life(paths, n, acts, n')
    ensures BootstrapInv(paths, acts, n')
    decreases |acts|
  {
    if acts != [] {
      var before, act := acts[..|acts| - 1], acts[|acts| - 1];
      var m :| Life(paths, n, before, m) && Possible(paths, m, act) && After(paths, m, act) == n';
      BootstrapInvHolds(paths, n, before, m);
      assert before + [act] == acts;
      match act
      case Enroll(id, fates) => EnrollKeepsInv(paths, before, m, id, fates);
      case Renew(_, _, _) => RenewKeepsInv(paths, before, m, act);
      case _ => OtherActKeepsInv(paths, before, m, act);
    }
  }

  lemma OtherActKeepsInv(paths: Paths, acts: seq<Act>, n: Node, act: Act)
    requires BootstrapInv(paths, acts, n) && Possible(paths, n, act) && !act.Enroll? && !act.Renew?
    ensures BootstrapInv(paths, acts + [act], After(paths, n, act))
  {
    forall f | f in Images(n.dir) ensures CaIsLast(paths, acts + [act], f) {
      CaIsLastGrows(paths, acts, act, f);
    }
    assert Current(n.dir) in Images(n.dir);
    if act.PowerLoss? {
      DoKeepsWf(n.dir, Crash(act.keep));
      CrashPicksImage(n.dir, act.keep);
      AfterCrashKeepsCaIsLast(paths, acts + [act], Resolve(n.dir.inodes, Kept(n.dir, act.keep)));
    }
  }

  ghost predicate NoRenewal(acts: seq<Act>) {
    forall act | act in acts :: !act.Renew?
  }

  /** From a disk without client CA, over whole lives of failed attempts, retries, renewals,
      deaths and power losses: whatever image a crash leaves, and in what the node sees, if the
      node would find its PKI present then it has the complete CA bundle of one enrollment, and
      a whole certificate and key that fit, unless a renewal wrote the one and not the other. */
  lemma BootstrapNeverSplits(paths: Paths, n: Node, acts: seq<Act>, n': Node, f: PkiFiles)
    requires paths.Valid() && Wf(n.dir) && n.mode.Down?
    requires forall f | f in Images(n.dir) :: paths.clientCa !in f
    requires Life(paths, n, acts, n')
    requires f in Images(n'.dir) && PkiPresent(paths, false, f)
    ensures exists id: Identity, cert, key :: WholePki(paths, acts, f, id, cert, key)
  {
    BootstrapInvHolds(paths, n, acts, n');
    assert CaIsLast(paths, acts, f);
  }

  /** Until the first renewal all three are those of one enrollment. */
  lemma BootstrapHolds(paths: Paths, n: Node, acts: seq<Act>, n': Node, f: PkiFiles)
    requires paths.Valid() && Wf(n.dir) && n.mode.Down? && NoRenewal(acts)
    requires forall f | f in Images(n.dir) :: paths.clientCa !in f
    requires Life(paths, n, acts, n')
    requires f in Images(n'.dir) && PkiPresent(paths, false, f)
    ensures exists id | Enrolled(acts, id) :: id.Valid() && Holds(paths, f, id)
  {
    BootstrapNeverSplits(paths, n, acts, n', f);
    var id: Identity, cert, key :| WholePki(paths, acts, f, id, cert, key);
    assert forall i | 0 <= i < |acts| :: acts[i] in acts;
    assert Holds(paths, f, id);
  }

  // ---- renewal: two files, so a pair on disk can be cut ----

  /** The certificate file is a certificate for the key in the key file. */
  ghost predicate Agrees(paths: Paths, f: PkiFiles) {
    && paths.certFile in f && paths.keyFile in f
    && f[paths.certFile].data.Whole? && f[paths.keyFile].data.Whole?
    && f[paths.certFile].data.content.CertPem? && f[paths.keyFile].data.content.KeyPem?
    && f[paths.certFile].data.content.cert.publicKey == f[paths.keyFile].data.content.key
  }

  /** Whatever a power loss leaves now, the pair agrees. */
  ghost predicate PowerLossSafe(paths: Paths, d: PkiDir) {
    forall keep: nat :: Agrees(paths, Current(Do(d, Crash(keep))))
  }

  lemma SafeByImages(paths: Paths, d: PkiDir)
    requires Wf(d)
    ensures PowerLossSafe(paths, d) <==> forall f | f in Images(d) :: Agrees(paths, AfterCrash(f))
  {
    if PowerLossSafe(paths, d) {
      forall f | f in Images(d) ensures Agrees(paths, AfterCrash(f)) {
        var keep := EveryImageCanRemain(d, f);
        assert Agrees(paths, Current(Do(d, Crash(keep))));
      }
    }
    if forall f | f in Images(d) :: Agrees(paths, AfterCrash(f)) {
      forall keep: nat ensures Agrees(paths, Current(Do(d, Crash(keep)))) {
        CrashPicksImage(d, keep);
      }
    }
  }

  /** The new certificate over the old key. */
  ghost function Cut(paths: Paths, f: PkiFiles, cert: Cert): PkiFiles {
    f[paths.certFile := Inode(Whole(CertPem(cert)), true)]
  }

  /** And the new key beside it. */
  ghost function Renewed(paths: Paths, f: PkiFiles, cert: Cert, key: nat): PkiFiles {
    Cut(paths, f, cert)[paths.keyFile := Inode(Whole(KeyPem(key)), true)]
  }

  lemma RenewalParts(paths: Paths, f: PkiFiles, cert: Cert, key: nat)
    ensures var plan := RenewalPlan(paths, cert, key);
            && Assigned(f, plan[..0]) == f
            && Assigned(f, plan[..1]) == Cut(paths, f, cert)
            && Assigned(f, plan[..2]) == Renewed(paths, f, cert, key)
  {
    var plan := RenewalPlan(paths, cert, key);
    AssignedStep(f, plan, 0);
    AssignedStep(f, plan, 1);
    AssignedStep(Cut(paths, f, cert), plan[1..], 0);
  }

  lemma PartsThatAgree(paths: Paths, f: PkiFiles, cert: Cert, key: nat)
    requires paths.Valid() && Agrees(paths, f) && cert.publicKey == key
    requires f[paths.keyFile].data.content.key != key
    ensures !Agrees(paths, Cut(paths, f, cert)) && !Agrees(paths, AfterCrash(Cut(paths, f, cert)))
    ensures Agrees(paths, Renewed(paths, f, cert, key)) && Agrees(paths, AfterCrash(Renewed(paths, f, cert, key)))
  {
    assert Cut(paths, f, cert)[paths.keyFile] == f[paths.keyFile];
  }

  /** A renewal to a fresh key, over a pair that agrees: the running node sees a pair that agrees
      exactly unless the renewal ended between its two writes. */
  lemma RenewalInView(paths: Paths, d: PkiDir, cert: Cert, key: nat, fates: seq<Fate>)
    requires paths.Valid() && Wf(d) && Agrees(paths, Current(d))
    requires cert.publicKey == key && Series(RenewalPlan(paths, cert, key), fates)
    requires Current(d)[paths.keyFile].data.content.key != key
    ensures var d' := Replay(d, SeriesEvents(RenewalPlan(paths, cert, key), fates));
            Agrees(paths, Current(d')) <==> Done(fates) != 1
  {
    OrderedPublication(d, RenewalPlan(paths, cert, key), fates);
    RenewalParts(paths, Current(d), cert, key);
    PartsThatAgree(paths, Current(d), cert, key);
    assert Done(fates) == 0 || Done(fates) == 1 || Done(fates) == 2;
  }

  /** The renewal wrote nothing, or it wrote both files and the directory sync of the second
      took all that was pending. */
  ghost predicate NeverCut(paths: Paths, d: PkiDir, cert: Cert, key: nat, fates: seq<Fate>)
    requires Series(RenewalPlan(paths, cert, key), fates)
  {
    || Done(fates) == 0
    || (Done(fates) == 2
        && TookAll(Replay(d, AtomicEvents(paths.certFile, CertPem(cert), fates[0])), paths.keyFile, KeyPem(key), fates[1]))
  }

  /** The cut state is among the images exactly unless that is so. */
  lemma CutIsAnImage(paths: Paths, d: PkiDir, cert: Cert, key: nat, fates: seq<Fate>)
    requires paths.Valid() && Wf(d) && Series(RenewalPlan(paths, cert, key), fates)
    ensures var d' := Replay(d, SeriesEvents(RenewalPlan(paths, cert, key), fates));
            && (!NeverCut(paths, d, cert, key, fates) ==> Cut(paths, Current(d), cert) in Images(d'))
            && (Done(fates) == 0 ==> Images(d') == Images(d))
            && (Done(fates) == 2 && NeverCut(paths, d, cert, key, fates) ==> Images(d') == {Renewed(paths, Current(d), cert, key)})
  {
    if fates != [] {
      var plan := RenewalPlan(paths, cert, key);
      var d1 := Replay(d, AtomicEvents(paths.certFile, CertPem(cert), fates[0]));
      AtomicAssignment(d, paths.certFile, CertPem(cert), fates[0]);
      ReplaySeriesSnoc(d, plan, [], fates[0]);
      assert [] + [fates[0]] == fates[..1];
      if |fates| == 2 {
        ReplaySeriesSnoc(d, plan, fates[..1], fates[1]);
        assert fates[..1] + [fates[1]] == fates;
        SecondWrite(paths, d1, key, fates[1]);
      } else {
        assert fates == fates[..1];
      }
    }
  }

  lemma SecondWrite(paths: Paths, d: PkiDir, key: nat, fate: Fate)
    requires paths.Valid() && Wf(d)
    ensures var d' := Replay(d, AtomicEvents(paths.keyFile, KeyPem(key), fate));
            && (!TookAll(d, paths.keyFile, KeyPem(key), fate) ==> Current(d) in Images(d'))
            && (TookAll(d, paths.keyFile, KeyPem(key), fate) ==>
                  Images(d') == {Current(d)[paths.keyFile := Inode(Whole(KeyPem(key)), true)]})
  {
    if fate.Stopped? {
      AtomicAssignment(d, paths.keyFile, KeyPem(key), fate);
    } else if TookAll(d, paths.keyFile, KeyPem(key), fate) {
      FullSyncSettles(d, paths.keyFile, KeyPem(key), fate);
    } else {
      PartialSyncKeepsOld(d, paths.keyFile, KeyPem(key), fate);
    }
  }

  /** And for what a power loss can leave, over a pair that a power loss could not split: it
      still cannot, exactly when the renewal wrote nothing, or wrote both files and the
      directory sync of the second took all that was pending. That it returned Ok is not
      enough. */
  lemma RenewalSplitsExactly(paths: Paths, d: PkiDir, cert: Cert, key: nat, fates: seq<Fate>)
    requires paths.Valid() && Wf(d) && Agrees(paths, Current(d)) && PowerLossSafe(paths, d)
    requires cert.publicKey == key && Series(RenewalPlan(paths, cert, key), fates)
    requires Current(d)[paths.keyFile].data.content.key != key
    ensures var d' := Replay(d, SeriesEvents(RenewalPlan(paths, cert, key), fates));
            PowerLossSafe(paths, d') <==> NeverCut(paths, d, cert, key, fates)
  {
    var d' := Replay(d, SeriesEvents(RenewalPlan(paths, cert, key), fates));
    OrderedPublication(d, RenewalPlan(paths, cert, key), fates);
    CutIsAnImage(paths, d, cert, key, fates);
    PartsThatAgree(paths, Current(d), cert, key);
    SafeByImages(paths, d);
    SafeByImages(paths, d');
  }

  /** Otherwise the new certificate over the old key is what a power loss can leave: after the
      first write, or, as the syncs may not have taken effect, after a renewal that finished. */
  lemma CutAfterPowerLoss(paths: Paths, d: PkiDir, cert: Cert, key: nat, fates: seq<Fate>) returns (keep: nat)
    requires paths.Valid() && Wf(d) && Agrees(paths, Current(d))
    requires cert.publicKey == key && Series(RenewalPlan(paths, cert, key), fates) && !NeverCut(paths, d, cert, key, fates)
    requires Current(d)[paths.keyFile].data.content.key != key
    ensures var d' := Replay(d, SeriesEvents(RenewalPlan(paths, cert, key), fates));
            && Current(Do(d', Crash(keep))) == AfterCrash(Cut(paths, Current(d), cert))
            && !Agrees(paths, Current(Do(d', Crash(keep))))
  {
    OrderedPublication(d, RenewalPlan(paths, cert, key), fates);
    CutIsAnImage(paths, d, cert, key, fates);
    PartsThatAgree(paths, Current(d), cert, key);
    keep := EveryImageCanRemain(Replay(d, SeriesEvents(RenewalPlan(paths, cert, key), fates)), Cut(paths, Current(d), cert));
  }

  /** Such a renewal: both writes done and answered Ok, no sync in effect. */
  lemma FinishedRenewalCanSplit(paths: Paths, d: PkiDir, cert: Cert, key: nat)
    ensures var fates := [Renamed(None), Renamed(None)];
            Series(RenewalPlan(paths, cert, key), fates) && Done(fates) == 2 && !NeverCut(paths, d, cert, key, fates)
  {
  }

  /** And a node comes up in it: after that power loss it finds its PKI present and goes on to
      serve a pair that does not agree. */
  lemma CutRenewalIsServed(paths: Paths, d: PkiDir, cert: Cert, key: nat, fates: seq<Fate>) returns (acts: seq<Act>, n': Node)
    requires paths.Valid() && Wf(d) && Agrees(paths, Current(d)) && paths.clientCa in Current(d)
    requires cert.publicKey == key && Series(RenewalPlan(paths, cert, key), fates) && !NeverCut(paths, d, cert, key, fates)
    requires Current(d)[paths.keyFile].data.content.key != key
    ensures Life(paths, Node(d, Serving), acts, n')
    ensures n'.mode.Serving? && !Agrees(paths, Current(n'.dir))
  {
    var n0, renew := Node(d, Serving), Renew(cert, key, fates);
    var n1 := Node(Replay(d, SeriesEvents(RenewalPlan(paths, cert, key), fates)), Serving);
    var keep := CutAfterPowerLoss(paths, d, cert, key, fates);
    CutHasPki(paths, Current(d), cert);
    LifeStep(paths, n0, [], n0, renew);
    acts, n' := PowerLossAndStart(paths, n0, [] + [renew], n1, keep);
  }

  lemma CutHasPki(paths: Paths, f: PkiFiles, cert: Cert)
    requires Agrees(paths, f) && paths.clientCa in f
    ensures PkiPresent(paths, false, AfterCrash(Cut(paths, f, cert)))
  {
  }

  lemma PowerLossAndStart(paths: Paths, n0: Node, acts: seq<Act>, n1: Node, keep: nat) returns (all: seq<Act>, n': Node)
    requires Life(paths, n0, acts, n1)
    requires PkiPresent(paths, false, Current(Do(n1.dir, Crash(keep))))
    ensures Life(paths, n0, all, n') && n' == Node(Do(n1.dir, Crash(keep)), Serving)
  {
    LifeStep(paths, n0, acts, n1, PowerLoss(keep));
    var n2 := Node(Do(n1.dir, Crash(keep)), Down);
    LifeStep(paths, n0, acts + [PowerLoss(keep)], n2, Start);
    all, n' := acts + [PowerLoss(keep)] + [Start], Node(n2.dir, Serving);
  }
}
