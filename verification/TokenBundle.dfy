/** The CA bundle of a node with a token: whenever it is there, it is all of what the server sent. */
module TokenBundle {
  import opened Storage
  import opened AtomicWrite
  import opened Pki
  import opened TokenIdentity

  predicate EnrolledAt(acts: seq<Act>, i: nat) {
    i < |acts| && acts[i].Enroll?
  }

  /** A CA bundle is there only beside a certificate, and is the complete one of an enrollment. */
  ghost predicate BundleIsLast(paths: Paths, acts: seq<Act>, f: PkiFiles) {
    paths.clientCa in f ==>
      paths.certFile in f && exists i: nat | EnrolledAt(acts, i) :: HasBundle(paths, f, acts[i].caCerts)
  }

  ghost predicate AllBundlesLast(paths: Paths, acts: seq<Act>, d: PkiDir) {
    Wf(d) && forall f | f in Images(d) :: BundleIsLast(paths, acts, f)
  }

  /** The same bundle, and no certificate less. */
  ghost predicate SameBundle(paths: Paths, f: PkiFiles, f': PkiFiles) {
    && (paths.clientCa in f' <==> paths.clientCa in f)
    && (paths.clientCa in f && f[paths.clientCa].synced && f[paths.clientCa].data.Whole? ==> f'[paths.clientCa] == f[paths.clientCa])
    && (paths.certFile in f ==> paths.certFile in f')
  }

  lemma SameBundleKeeps(paths: Paths, acts: seq<Act>, act: Act, f: PkiFiles, f': PkiFiles)
    requires BundleIsLast(paths, acts, f) && SameBundle(paths, f, f')
    ensures BundleIsLast(paths, acts + [act], f') && BundleIsLast(paths, acts, f')
  {
    if paths.clientCa in f {
      var i: nat :| EnrolledAt(acts, i) && HasBundle(paths, f, acts[i].caCerts);
      assert EnrolledAt(acts + [act], i) && (acts + [act])[i] == acts[i];
      assert HasBundle(paths, f', acts[i].caCerts);
    }
  }

  lemma PinCallKeeps(paths: Paths, acts: seq<Act>, act: Act, d: PkiDir, e: Event<Content>)
    requires paths.Valid() && AllBundlesLast(paths, acts, d)
    requires (e.Create? || e.Write? || e.Fsync?) && e.name == paths.pinFile
    ensures AllBundlesLast(paths, acts, Do(d, e)) && AllBundlesLast(paths, acts + [act], Do(d, e))
  {
    DoKeepsWf(d, e);
    InPlaceCall(d, e);
    var now, images := Current(Do(d, e)), Images(Do(d, e));
    forall f' | f' in images ensures BundleIsLast(paths, acts, f') && BundleIsLast(paths, acts + [act], f') {
      var f :| f in Images(d) && DiffersIn(f', f, paths.pinFile, now);
      OnlyPinDiffers(paths, f, f', now);
      SameBundleKeeps(paths, acts, act, f, f');
    }
  }

  lemma OnlyPinDiffers(paths: Paths, f: PkiFiles, f': PkiFiles, now: PkiFiles)
    requires paths.Valid() && DiffersIn(f', f, paths.pinFile, now)
    ensures SameBundle(paths, f, f')
  {
    assert forall n | n != paths.pinFile :: n in f' <==> n in f' - {paths.pinFile};
    assert forall n | n != paths.pinFile :: n in f <==> n in f - {paths.pinFile};
    assert paths.clientCa in f - {paths.pinFile} ==> (f' - {paths.pinFile})[paths.clientCa] == (f - {paths.pinFile})[paths.clientCa];
  }

  lemma WritePinKeeps(paths: Paths, acts: seq<Act>, n: Node, act: Act)
    requires paths.Valid() && AllBundlesLast(paths, acts, n.dir) && act.WritePin? && Possible(paths, n, act)
    ensures AllBundlesLast(paths, acts + [act], After(paths, n, act).dir)
  {
    var es := PinEvents(paths, n.phase.pin, act.fate);
    PinCallKeeps(paths, acts, act, n.dir, es[0]);
    if act.fate.NotCreated? {
      assert Replay(n.dir, es) == Do(n.dir, es[0]);
    } else {
      var d1 := Do(n.dir, es[0]);
      PinCallKeeps(paths, acts, act, d1, es[1]);
      if act.fate.Written? {
        PinCallKeeps(paths, acts, act, Do(d1, es[1]), es[2]);
        ReplayThree(n.dir, es);
      } else {
        ReplayTwo(n.dir, es);
      }
    }
  }

  /** What an enrollment or a renewal publishes, part by part. */
  lemma CertPartKeeps(paths: Paths, acts: seq<Act>, act: Act, f: PkiFiles, j: nat)
    requires paths.Valid() && BundleIsLast(paths, acts, f) && (act.Enroll? || act.Renew?)
    requires j <= |CertPlan(paths, act)|
    ensures BundleIsLast(paths, acts + [act], Assigned(f, CertPlan(paths, act)[..j]))
  {
    var plan := CertPlan(paths, act);
    var f1 := f[paths.certFile := Inode(Whole(CertPem(act.cert)), true)];
    if j == 0 {
      SameBundleKeeps(paths, acts, act, f, f);
    } else {
      AssignedStep(f, plan, j - 1);
      if j == 1 {
        SameBundleKeeps(paths, acts, act, f, f1);
      } else {
        AssignedStep(f1, plan[1..], 0);
        ConcatIsBundle(act.caCerts);
        var g := f1[paths.clientCa := Inode(Whole(CaPem(Concat(act.caCerts))), true)];
        BundleIsThere(paths, g, Concat(act.caCerts), act.caCerts, true);
        assert EnrolledAt(acts + [act], |acts|) && (acts + [act])[|acts|] == act;
      }
    }
  }

  lemma CertWritesKeep(paths: Paths, acts: seq<Act>, n: Node, act: Act)
    requires paths.Valid() && AllBundlesLast(paths, acts, n.dir) && (act.Enroll? || act.Renew?) && Possible(paths, n, act)
    ensures AllBundlesLast(paths, acts + [act], After(paths, n, act).dir)
  {
    var plan := CertPlan(paths, act);
    OrderedPublication(n.dir, plan, act.fates);
    forall f | f in Images(After(paths, n, act).dir) ensures BundleIsLast(paths, acts + [act], f) {
      if f in Images(n.dir) {
        SameBundleKeeps(paths, acts, act, f, f);
      } else {
        var j :| 0 <= j <= Done(act.fates) && f == Assigned(Current(n.dir), plan[..j]);
        assert Current(n.dir) in Images(n.dir);
        CertPartKeeps(paths, acts, act, Current(n.dir), j);
      }
    }
  }

  lemma OtherActKeeps(paths: Paths, acts: seq<Act>, n: Node, act: Act)
    requires AllBundlesLast(paths, acts, n.dir) && Possible(paths, n, act)
    requires !act.WritePin? && !act.Enroll? && !act.Renew?
    ensures AllBundlesLast(paths, acts + [act], After(paths, n, act).dir)
  {
    forall f | f in Images(n.dir) ensures BundleIsLast(paths, acts + [act], f) {
      SameBundleKeeps(paths, acts, act, f, f);
    }
    if act.PowerLoss? {
      DoKeepsWf(n.dir, Crash(act.keep));
      CrashPicksImage(n.dir, act.keep);
      var f := Resolve(n.dir.inodes, Kept(n.dir, act.keep));
      SameBundleKeeps(paths, acts, act, f, AfterCrash(f));
    }
  }

  lemma {:induction false} BundlesStayLast(paths: Paths, n: Node, acts: seq<Act>, n': Node)
    requires paths.Valid() && Wf(n.dir) && Life(paths, n, acts, n')
    requires forall f | f in Images(n.dir) :: paths.clientCa !in f
    ensures AllBundlesLast(paths, acts, n'.dir)
    decreases |acts|
  {
    if acts != [] {
      var before, act := acts[..|acts| - 1], acts[|acts| - 1];
      var m :| Life(paths, n, before, m) && Possible(paths, m, act) && After(paths, m, act) == n';
      BundlesStayLast(paths, n, before, m);
      assert before + [act] == acts;
      if act.WritePin? {
        WritePinKeeps(paths, before, m, act);
      } else if act.Enroll? || act.Renew? {
        CertWritesKeep(paths, before, m, act);
      } else {
        OtherActKeeps(paths, before, m, act);
      }
    }
  }

  /** From a blank node without a CA bundle, over all its lives: in any image a crash can leave,
      and in view, PKI that the node would find present is the complete CA bundle of one
      enrollment and a whole certificate for the key in the token. */
  lemma TokenPkiNeverSplits(paths: Paths, n: Node, acts: seq<Act>, n': Node, f: PkiFiles)
    requires paths.Valid() && Blank(paths, n) && Life(paths, n, acts, n')
    requires forall g | g in Images(n.dir) :: paths.clientCa !in g
    requires f in Images(n'.dir) && PkiPresent(paths, true, f)
    ensures exists i: nat | EnrolledAt(acts, i) :: HasBundle(paths, f, acts[i].caCerts)
    ensures exists cert :: Has(f, paths.certFile, CertPem(cert)) && n'.token.key == Some(cert.publicKey)
  {
    BundlesStayLast(paths, n, acts, n');
    IdentityNeverSplits(paths, n, acts, n', f);
  }
}
