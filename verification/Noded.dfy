/** noded's enrollment code, with the private key in a file. Every method fails only after its
    surroundings refused something, which their records show. */
module Noded {
  import opened Storage
  import opened Host
  import opened AtomicWrite
  import opened Pki
  import opened Volumes
  import opened Enrollment

  /** What the EST server is asked, and answers, in an enrollment up to the certificate. */
  function EnrollDialog(id: Identity): seq<EstCall> {
    [Built(Bearer, true), SentCas(Some(id.caCerts)), MadeKey(Some(id.key)), Answered(SimpleEnroll, id.key, Issued(id.cert))]
  }

  /** And in a renewal, with what was read from the two files. */
  function RenewDialog(cert: Content, key: Content, newCert: Cert, newKey: nat): seq<EstCall> {
    [Built(NodeCert(cert, key), true), MadeKey(Some(newKey)), Answered(SimpleReenroll, newKey, Issued(newCert))]
  }

  /** Both dialogs authenticate first, as they should, ask for a fresh key, and end with the server
      issuing the certificate for it; an enrollment has the CA certificates from the server too. */
  lemma DialogsAreBacked(id: Identity, cert: Content, key: Content)
    ensures var enroll, renew := EnrollDialog(id), RenewDialog(cert, key, id.cert, id.key);
            && enroll[0] == Built(Bearer, true) && renew[0] == Built(NodeCert(cert, key), true)
            && MadeKey(Some(id.key)) in enroll && MadeKey(Some(id.key)) in renew && SentCas(Some(id.caCerts)) in enroll
            && enroll[|enroll| - 1] == Answered(SimpleEnroll, id.key, Issued(id.cert))
            && renew[|renew| - 1] == Answered(SimpleReenroll, id.key, Issued(id.cert))
  {
    var enroll, renew := EnrollDialog(id), RenewDialog(cert, key, id.cert, id.key);
    assert enroll[1] == SentCas(Some(id.caCerts)) && enroll[2] == MadeKey(Some(id.key)) && renew[1] == MadeKey(Some(id.key));
  }

  class Noded {
    const paths: Paths
    const volume: Volume<Content>
    const est: EstServer
    const clock: Clock

    constructor (paths: Paths, volume: Volume<Content>, est: EstServer, clock: Clock)
      ensures this.paths == paths && this.volume == volume && this.est == est && this.clock == clock
    {
      this.paths, this.volume, this.est, this.clock := paths, volume, est, clock;
    }

    ghost function Failures(): nat
      reads volume, est, clock
    {
      volume.failures + est.failures + clock.failures
    }

    /** The certificate, then the key. */
    method WritePair(cert: Cert, key: nat) returns (ok: bool, ghost fates: seq<Fate>)
      requires paths.Valid() && Wf(volume.dir)
      modifies volume
      ensures Wf(volume.dir) && Series(RenewalPlan(paths, cert, key), fates) && fates != []
      ensures volume.dir == Replay(old(volume.dir), SeriesEvents(RenewalPlan(paths, cert, key), fates))
      ensures ok == (Done(fates) == 2)
      ensures volume.failures >= old(volume.failures) && (!ok ==> volume.failures > old(volume.failures))
    {
      ghost var plan := RenewalPlan(paths, cert, key);
      assert SeriesEvents(plan, []) == [] && Replay(old(volume.dir), []) == old(volume.dir);
      ghost var fate;
      ok, fate := volume.WriteAtomic(paths.certFile, CertPem(cert));
      ReplaySeriesSnoc(old(volume.dir), plan, [], fate);
      fates := [] + [fate];
      if ok {
        ok, fate := volume.WriteAtomic(paths.keyFile, KeyPem(key));
        ReplaySeriesSnoc(old(volume.dir), plan, fates, fate);
        fates := fates + [fate];
      }
    }

    /** `write_identity`: the certificate is encoded before anything is written. */
    method WriteIdentity(cert: Cert, key: nat) returns (ok: bool, ghost fates: seq<Fate>)
      requires paths.Valid() && Wf(volume.dir)
      modifies volume, est
      ensures Wf(volume.dir) && Series(RenewalPlan(paths, cert, key), fates)
      ensures volume.dir == Replay(old(volume.dir), SeriesEvents(RenewalPlan(paths, cert, key), fates))
      ensures ok == (Done(fates) == 2)
      ensures est.calls == old(est.calls) + [Encoded(fates != [])]
      ensures Failures() >= old(Failures()) && (!ok ==> Failures() > old(Failures()))
    {
      fates := [];
      assert SeriesEvents(RenewalPlan(paths, cert, key), fates) == [] && Replay(old(volume.dir), []) == old(volume.dir);
      ok := est.Encode();
      if ok { ok, fates := WritePair(cert, key); }
    }

    /** The CA certificates and the identity; None after a failure. */
    method RequestIdentity() returns (issued: Option<(seq<string>, nat, Cert)>)
      modifies est
      ensures issued.Some? ==>
                && issued.value.0 != [] && issued.value.2.publicKey == issued.value.1
                && est.calls == old(est.calls) + EnrollDialog(Identity(issued.value.2, issued.value.1, issued.value.0))
      ensures est.failures >= old(est.failures) && (issued.None? ==> est.failures > old(est.failures))
    {
      issued := None;
      var ok := est.Build(Bearer);
      if !ok { return; }
      var caCerts := est.CaCerts();
      if caCerts.None? || caCerts.value == [] { return; }
      var key := est.GenerateCsr();
      if key.None? { return; }
      var response := est.Enroll(SimpleEnroll, key.value);
      var cert := IssuedCert(response);
      if cert.Some? { issued := Some((caCerts.value, key.value, cert.value)); }
    }

    /** The last part: the CA bundle, over the identity. */
    method WriteBundle(ghost id: Identity, caCerts: seq<string>, ghost d0: PkiDir, ghost before: seq<Fate>)
      returns (ok: bool, ghost fates: seq<Fate>)
      requires paths.Valid() && Wf(volume.dir) && caCerts == id.caCerts
      requires Series(BootstrapPlan(paths, id), before) && |before| == Done(before) == 2
      requires volume.dir == Replay(d0, SeriesEvents(BootstrapPlan(paths, id), before))
      modifies volume, est
      ensures Wf(volume.dir) && Series(BootstrapPlan(paths, id), fates) && fates != []
      ensures volume.dir == Replay(d0, SeriesEvents(BootstrapPlan(paths, id), fates))
      ensures ok == (Done(fates) == 3)
      ensures old(est.calls) <= est.calls && (ok ==> est.calls == old(est.calls) + Encodings(|caCerts|))
      ensures ok ==> HasBundle(paths, Current(volume.dir), caCerts)
      ensures Failures() >= old(Failures()) && (!ok ==> Failures() > old(Failures()))
    {
      ok, fates := false, before;
      var clientCaPem := EncodeBundle(est, caCerts);
      if clientCaPem.None? { return; }
      ghost var fate;
      ok, fate := volume.WriteAtomic(paths.clientCa, CaPem(clientCaPem.value));
      ReplaySeriesSnoc(d0, BootstrapPlan(paths, id), before, fate);
      fates := before + [fate];
      BundleIsThere(paths, Current(volume.dir), clientCaPem.value, caCerts, ok);
    }

    /** `bootstrap_enroll`: CA certificates first, identity next, the CA bundle written last. What is
        written is what the server sent: its certificate, for the key just made, and all of
        its CA certificates. */
    method BootstrapEnroll() returns (ok: bool, ghost act: Act)
      requires paths.Valid() && Wf(volume.dir)
      modifies volume, est
      ensures Wf(volume.dir)
      ensures act.Enroll? && act.id.Valid() && Series(BootstrapPlan(paths, act.id), act.fates)
      ensures volume.dir == Replay(old(volume.dir), SeriesEvents(BootstrapPlan(paths, act.id), act.fates))
      ensures ok == (Done(act.fates) == 3)
      ensures act.fates != [] ==> old(est.calls) + EnrollDialog(act.id) <= est.calls
      ensures ok ==> est.calls == old(est.calls) + EnrollDialog(act.id) + [Encoded(true)] + Encodings(|act.id.caCerts|)
      ensures ok ==> HasBundle(paths, Current(volume.dir), act.id.caCerts)
      ensures Failures() >= old(Failures()) && (!ok ==> Failures() > old(Failures()))
    {
      ok, act := false, Enroll(Identity(Cert(0, 0, 0), 0, [""]), []);
      var issued := RequestIdentity();
      if issued.None? { return; }
      var caCerts, key, cert := issued.value.0, issued.value.1, issued.value.2;
      ghost var id := Identity(cert, key, caCerts);
      ghost var plan := BootstrapPlan(paths, id);

      ghost var fates;
      ok, fates := WriteIdentity(cert, key);
      SeriesOfPrefix(RenewalPlan(paths, cert, key), plan, fates);
      act := Enroll(id, fates);
      if !ok { return; }

      ok, fates := WriteBundle(id, caCerts, old(volume.dir), fates);
      act := Enroll(id, fates);
    }

    method RequestRenewal(cert: Content, key: Content) returns (issued: Option<(nat, Cert)>)
      modifies est
      ensures issued.Some? ==>
                && issued.value.1.publicKey == issued.value.0
                && est.calls == old(est.calls) + RenewDialog(cert, key, issued.value.1, issued.value.0)
      ensures est.failures >= old(est.failures) && (issued.None? ==> est.failures > old(est.failures))
    {
      issued := None;
      var built := est.Build(NodeCert(cert, key));
      if !built { return; }
      var newKey := est.GenerateCsr();
      if newKey.None? { return; }
      var response := est.Enroll(SimpleReenroll, newKey.value);
      var newCert := IssuedCert(response);
      if newCert.Some? { issued := Some((newKey.value, newCert.value)); }
    }

    /** `reenroll` with a key file: a fresh key, and the new identity over the old one. It presents
        what it read from the two files. */
    method Reenroll() returns (ok: bool, ghost act: Act, ghost presented: Auth)
      requires paths.Valid() && Wf(volume.dir)
      modifies volume, est
      ensures Wf(volume.dir)
      ensures act.Renew? && act.cert.publicKey == act.key && Series(RenewalPlan(paths, act.cert, act.key), act.fates)
      ensures volume.dir == Replay(old(volume.dir), SeriesEvents(RenewalPlan(paths, act.cert, act.key), act.fates))
      ensures ok == (Done(act.fates) == 2)
      ensures act.fates != [] ==>
                && presented.NodeCert?
                && Reads(Current(old(volume.dir)), paths.certFile, presented.cert)
                && Reads(Current(old(volume.dir)), paths.keyFile, presented.key)
                && est.calls == old(est.calls) + RenewDialog(presented.cert, presented.key, act.cert, act.key) + [Encoded(true)]
      ensures Failures() >= old(Failures()) && (!ok ==> Failures() > old(Failures()))
    {
      ok, act, presented := false, Renew(Cert(0, 0, 0), 0, []), Bearer;
      assert SeriesEvents(RenewalPlan(paths, act.cert, act.key), []) == [] && Replay(old(volume.dir), []) == old(volume.dir);
      var certPem := volume.ReadFile(paths.certFile);
      if certPem.None? { return; }
      var keyPem := volume.ReadFile(paths.keyFile);
      if keyPem.None? { return; }
      presented := NodeCert(certPem.value, keyPem.value);
      var issued := RequestRenewal(certPem.value, keyPem.value);
      if issued.None? { return; }
      ghost var fates;
      ok, fates := WriteIdentity(issued.value.1, issued.value.0);
      act := Renew(issued.value.1, issued.value.0, fates);
    }

    method NodePkiPresent() returns (present: bool)
      requires paths.Valid()
      ensures present <==> PkiPresent(paths, false, Current(volume.dir))
    {
      present := paths.certFile in volume.dir.visible && paths.keyFile in volume.dir.visible && paths.clientCa in volume.dir.visible;
    }

    method EnrollOnce(ghost n0: Node, ghost before: seq<Act>, ghost attempt: nat) returns (up: bool, ghost acts: seq<Act>)
      requires paths.Valid() && Wf(volume.dir) && attempt < BOOTSTRAP_ATTEMPTS
      requires NoRenewal(before) && Life(paths, n0, before, Node(volume.dir, Bootstrapping(attempt)))
      modifies volume, est
      ensures Wf(volume.dir) && NoRenewal(acts) && |acts| == |before| + 1
      ensures Life(paths, n0, acts, Node(volume.dir,
                if up then Serving else if attempt + 1 < BOOTSTRAP_ATTEMPTS then Bootstrapping(attempt + 1) else Down))
      ensures Failures() >= old(Failures()) + if up then 0 else 1
    {
      ghost var at := Node(volume.dir, Bootstrapping(attempt));
      ghost var act;
      up, act := BootstrapEnroll();
      LifeStep(paths, n0, before, at, act);
      acts := before + [act];
    }

    method EnrollWithRetries(ghost n0: Node, ghost before: seq<Act>) returns (up: bool, ghost acts: seq<Act>)
      requires paths.Valid() && Wf(volume.dir)
      requires NoRenewal(before) && Life(paths, n0, before, Node(volume.dir, Bootstrapping(0)))
      modifies volume, est, clock`slept
      ensures Wf(volume.dir) && Life(paths, n0, acts, Node(volume.dir, if up then Serving else Down))
      ensures NoRenewal(acts) && |before| < |acts| <= |before| + BOOTSTRAP_ATTEMPTS
      ensures !up ==> |acts| == |before| + BOOTSTRAP_ATTEMPTS
      ensures Failures() >= old(Failures()) + (|acts| - |before|) - (if up then 1 else 0)
      ensures clock.slept == old(clock.slept) + RETRY_SECS * (|acts| - |before| - 1)
    {
      var attempt := 0;
      up, acts := false, before;
      while !up && attempt < BOOTSTRAP_ATTEMPTS
        invariant attempt <= BOOTSTRAP_ATTEMPTS && |acts| == |before| + attempt && Wf(volume.dir) && NoRenewal(acts)
        invariant up ==> attempt > 0
        invariant Failures() >= old(Failures()) + attempt - (if up then 1 else 0)
        invariant Life(paths, n0, acts, Node(volume.dir,
                    if up then Serving else if attempt < BOOTSTRAP_ATTEMPTS then Bootstrapping(attempt) else Down))
        invariant clock.slept == old(clock.slept) + RETRY_SECS * (if up || (attempt == BOOTSTRAP_ATTEMPTS && attempt > 0) then attempt - 1 else attempt)
      {
        up, acts := EnrollOnce(n0, acts, attempt);
        attempt := attempt + 1;
        if !up && attempt < BOOTSTRAP_ATTEMPTS { clock.SleepSeconds(RETRY_SECS); }
      }
    }

    method RenewWithRetries(ghost n0: Node, ghost before: seq<Act>) returns (ghost acts: seq<Act>)
      requires paths.Valid() && Wf(volume.dir) && Life(paths, n0, before, Node(volume.dir, Serving))
      modifies volume, est, clock`slept
      ensures Wf(volume.dir) && Life(paths, n0, acts, Node(volume.dir, Serving))
      ensures |before| < |acts| <= |before| + REENROLL_ATTEMPTS
      ensures |acts| == |before| + REENROLL_ATTEMPTS || RenewedLast(acts)
      ensures Failures() >= old(Failures()) + (|acts| - |before|) - (if RenewedLast(acts) then 1 else 0)
      ensures clock.slept == old(clock.slept) + RETRY_SECS * (|acts| - |before| - 1)
    {
      var attempt, done := 0, false;
      acts := before;
      while !done && attempt < REENROLL_ATTEMPTS
        invariant attempt <= REENROLL_ATTEMPTS && |acts| == |before| + attempt && Wf(volume.dir)
        invariant (done ==> attempt > 0) && (attempt > 0 ==> done == RenewedLast(acts))
        invariant Failures() >= old(Failures()) + attempt - (if done then 1 else 0)
        invariant Life(paths, n0, acts, Node(volume.dir, Serving))
        invariant clock.slept == old(clock.slept) + RETRY_SECS * (if done || (attempt == REENROLL_ATTEMPTS && attempt > 0) then attempt - 1 else attempt)
      {
        ghost var at := Node(volume.dir, Serving);
        attempt := attempt + 1;
        ghost var act, presented;
        done, act, presented := Reenroll();
        LifeStep(paths, n0, acts, at, act);
        acts := acts + [act];
        if !done && attempt < REENROLL_ATTEMPTS { clock.SleepSeconds(RETRY_SECS); }
      }
    }

    /** The startup decision of `run`: enroll, with retries, when the PKI is incomplete;
        otherwise renew if due, at best effort. What happens is a life of the node, which is
        up at the end unless every enrollment attempt failed. It tries as often as it may, and
        once only if nothing is refused. */
    method StartUp() returns (up: bool, ghost acts: seq<Act>, ghost now: Option<nat>)
      requires paths.Valid() && Wf(volume.dir)
      modifies volume, est, clock
      ensures Wf(volume.dir)
      ensures Life(paths, Node(old(volume.dir), Down), acts, Node(volume.dir, if up then Serving else Down))
      ensures !PkiPresent(paths, false, Current(old(volume.dir))) ==>
                && NoRenewal(acts) && 1 < |acts| <= 1 + BOOTSTRAP_ATTEMPTS
                && (!up ==> |acts| == 1 + BOOTSTRAP_ATTEMPTS)
                && Failures() >= old(Failures()) + |acts| - (if up then 2 else 1)
      ensures PkiPresent(paths, false, Current(old(volume.dir))) ==>
                && up && 1 <= |acts| <= 1 + REENROLL_ATTEMPTS
                && (|acts| == 1 ==> !MustRenew(Current(old(volume.dir)), paths.certFile, now, Failures() > old(Failures())))
                && (|acts| > 1 ==> now.Some? && Due(Current(old(volume.dir)), paths.certFile, now.value))
                && (|acts| > 1 ==> |acts| == 1 + REENROLL_ATTEMPTS || RenewedLast(acts))
                && (|acts| > 1 ==> Failures() >= old(Failures()) + |acts| - (if RenewedLast(acts) then 2 else 1))
      ensures clock.readings == old(clock.readings) + Reading(now)
      ensures clock.slept == old(clock.slept) + RETRY_SECS * (if |acts| > 1 then |acts| - 2 else 0)
    {
      ghost var n0 := Node(volume.dir, Down);
      acts, now := [], None;
      assert Reading(now) == [];
      LifeStep(paths, n0, [], n0, Start);
      acts := [] + [Start];
      var present := NodePkiPresent();
      if !present {
        up, acts := EnrollWithRetries(n0, acts);
      } else {
        up := true;
        var due;
        due, now := RenewalIsDue(volume, paths.certFile, clock);
        if due { acts := RenewWithRetries(n0, acts); }
      }
    }
  }

  /** The last of these acts is a renewal that wrote both files. */
  ghost predicate RenewedLast(acts: seq<Act>) {
    acts != [] && acts[|acts| - 1].Renew? && Done(acts[|acts| - 1].fates) == 2
  }
}
