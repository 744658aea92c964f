/** Keys in the TPM token: over all boots the certificate on disk stays with the key in the
    token, and the PIN file with the token's PIN. */
module TokenIdentity {
  import opened Storage
  import opened AtomicWrite
  import opened Pki
  import opened Pin

  /** `C_InitToken` wipes both; the token keeps its state through a power loss. */
  datatype Token = Token(pin: Option<string>, key: Option<nat>)

  /** Where the process is: in `provision_token`, in the rest of `open`, or past it. */
  datatype Phase =
    | Down
    | Initializing(pin: string) | SettingPin(pin: string) | WritingPin(pin: string)
    | LoggingIn(pin: string) | FindingKey
    | Bootstrapping | Serving

  datatype Node = Node(dir: PkiDir, token: Token, phase: Phase)

  /** How far `write_pin` got; its fsync may fail unnoticed. */
  datatype PinFate = NotCreated | NotWritten | Written(synced: bool)

  datatype Act =
    | OpenProvisioned(text: string)                    // the PIN file exists; `text` was read from it
    | OpenFirstTime(drawn: string)                     // it does not
    | InitToken(took: bool, ok: bool)                  // a refused call may still have taken effect
    | InitPin(took: bool, ok: bool)
    | WritePin(fate: PinFate)
    | LogIn(ok: bool)
    | EnsureKey(made: nat, took: bool, ok: bool)
    | Enroll(cert: Cert, caCerts: seq<string>, fates: seq<Fate>)
    | Renew(cert: Cert, fates: seq<Fate>)
    | Die
    | PowerLoss(keep: nat)

  function EnrollPlan(paths: Paths, cert: Cert, caCerts: seq<string>): seq<Assign<Content>> {
    [Assign(paths.certFile, CertPem(cert)), Assign(paths.clientCa, CaPem(Concat(caCerts)))]
  }

  function RenewPlan(paths: Paths, cert: Cert): seq<Assign<Content>> {
    [Assign(paths.certFile, CertPem(cert))]
  }

  function PinEvents(paths: Paths, pin: string, fate: PinFate): seq<Event<Content>> {
    match fate
    case NotCreated => [Create(paths.pinFile, false)]
    case NotWritten => [Create(paths.pinFile, true), Write(paths.pinFile, PinText(pin), false)]
    case Written(synced) =>
      [Create(paths.pinFile, true), Write(paths.pinFile, PinText(pin), true), Fsync(paths.pinFile, synced)]
  }

  ghost predicate Possible(paths: Paths, n: Node, act: Act) {
    match act
    case OpenProvisioned(text) =>
      n.phase.Down? && paths.pinFile in Current(n.dir) && Reads(Current(n.dir), paths.pinFile, PinText(text))
    case OpenFirstTime(drawn) => n.phase.Down? && paths.pinFile !in Current(n.dir) && IsPin(drawn)
    case InitToken(took, ok) => n.phase.Initializing? && (ok ==> took)
    case InitPin(took, ok) => n.phase.SettingPin? && (ok ==> took)
    case WritePin(_) => n.phase.WritingPin?
    case LogIn(ok) => n.phase.LoggingIn? && (ok ==> n.token.pin == Some(n.phase.pin))
    case EnsureKey(_, took, ok) => n.phase.FindingKey? && (ok && n.token.key.None? ==> took)
    case Enroll(cert, caCerts, fates) =>
      n.phase.Bootstrapping? && n.token.key == Some(cert.publicKey) && caCerts != [] && Series(EnrollPlan(paths, cert, caCerts), fates)
    case Renew(cert, fates) =>
      n.phase.Serving? && n.token.key == Some(cert.publicKey) && Series(RenewPlan(paths, cert), fates)
    case Die => true
    case PowerLoss(_) => true
  }

  ghost function After(paths: Paths, n: Node, act: Act): Node
    requires Possible(paths, n, act)
  {
    match act
    case OpenProvisioned(text) => n.(phase := LoggingIn(Trim(text)))
    case OpenFirstTime(drawn) => n.(phase := Initializing(drawn))
    case InitToken(took, ok) =>
      Node(n.dir, if took then Token(None, None) else n.token, if ok then SettingPin(n.phase.pin) else Down)
    case InitPin(took, ok) =>
      Node(n.dir, if took then n.token.(pin := Some(n.phase.pin)) else n.token, if ok then WritingPin(n.phase.pin) else Down)
    case WritePin(fate) =>
      Node(Replay(n.dir, PinEvents(paths, n.phase.pin, fate)), n.token, if fate.Written? then LoggingIn(n.phase.pin) else Down)
    case LogIn(ok) => n.(phase := if ok then FindingKey else Down)
    case EnsureKey(made, took, ok) =>
      Node(n.dir, if n.token.key.None? && took then n.token.(key := Some(made)) else n.token,
           if !ok then Down else if PkiPresent(paths, true, Current(n.dir)) then Serving else Bootstrapping)
    case Enroll(cert, caCerts, fates) =>
      Node(Replay(n.dir, SeriesEvents(EnrollPlan(paths, cert, caCerts), fates)), n.token,
           if Done(fates) == 2 then Serving else Bootstrapping)
    case Renew(cert, fates) => n.(dir := Replay(n.dir, SeriesEvents(RenewPlan(paths, cert), fates)))
    case Die => n.(phase := Down)
    case PowerLoss(keep) => Node(Do(n.dir, Crash(keep)), n.token, Down)
  }

  ghost predicate Life(paths: Paths, n: Node, acts: seq<Act>, n': Node)
    decreases |acts|
  {
    if acts == [] then n' == n
    else
      var last := acts[|acts| - 1];
      exists m :: Life(paths, n, acts[..|acts| - 1], m) && Possible(paths, m, last) && After(paths, m, last) == n'
  }

  lemma LifeStep(paths: Paths, n: Node, acts: seq<Act>, m: Node, act: Act)
    requires Life(paths, n, acts, m) && Possible(paths, m, act)
    ensures Life(paths, n, acts + [act], After(paths, m, act))
  {
    var all := acts + [act];
    assert all[..|all| - 1] == acts && all[|all| - 1] == act;
    assert Life(paths, n, all[..|all| - 1], m);
  }

  lemma {:induction false} LifeKeepsWf(paths: Paths, n: Node, acts: seq<Act>, n': Node)
    requires paths.Valid() && Wf(n.dir) && Life(paths, n, acts, n')
    ensures Wf(n'.dir)
    decreases |acts|
  {
    if acts != [] {
      var k := |acts| - 1;
      var act := acts[k];
      var m :| Life(paths, n, acts[..k], m) && Possible(paths, m, act) && After(paths, m, act) == n';
      LifeKeepsWf(paths, n, acts[..k], m);
      match act
      case WritePin(fate) => ReplayKeepsWf(m.dir, PinEvents(paths, m.phase.pin, fate));
      case Enroll(cert, caCerts, fates) => OrderedPublication(m.dir, EnrollPlan(paths, cert, caCerts), fates);
      case Renew(cert, fates) => OrderedPublication(m.dir, RenewPlan(paths, cert), fates);
      case PowerLoss(keep) => DoKeepsWf(m.dir, Crash(keep));
      case _ =>
    }
  }

  // ---- the invariant ----

  /** The certificate in `f`, if any, is for the token's key, and never without a PIN file. */
  ghost predicate CertIsTokens(paths: Paths, f: PkiFiles, token: Token) {
    paths.certFile in f ==>
      && paths.pinFile in f
      && f[paths.certFile].synced && f[paths.certFile].data.Whole? && f[paths.certFile].data.content.CertPem?
      && token.key == Some(f[paths.certFile].data.content.cert.publicKey)
  }

  /** The PIN file in `f`, if completely written, holds the token's PIN. */
  ghost predicate PinAgrees(paths: Paths, f: PkiFiles, token: Token) {
    paths.pinFile in f && f[paths.pinFile].data.Whole? ==>
      && f[paths.pinFile].data.content.PinText? && IsPin(f[paths.pinFile].data.content.pin)
      && token.pin == Some(f[paths.pinFile].data.content.pin)
  }

  ghost predicate Good(paths: Paths, f: PkiFiles, token: Token, now: PkiFiles) {
    && CertIsTokens(paths, f, token)
    && PinAgrees(paths, f, token)
    && (paths.pinFile in f ==> paths.pinFile in now)
  }

  ghost predicate PhaseInv(paths: Paths, n: Node) {
    match n.phase
    case Down => true
    case Initializing(pin) => IsPin(pin) && paths.pinFile !in Current(n.dir)
    case SettingPin(pin) => IsPin(pin) && paths.pinFile !in Current(n.dir)
    case WritingPin(pin) => IsPin(pin) && paths.pinFile !in Current(n.dir) && n.token.pin == Some(pin)
    case LoggingIn(pin) =>
      && paths.pinFile in Current(n.dir)
      && (Current(n.dir)[paths.pinFile].data.Whole? ==> n.token.pin == Some(pin))
    case FindingKey => paths.pinFile in Current(n.dir)
    case Bootstrapping => paths.pinFile in Current(n.dir)
    case Serving => paths.pinFile in Current(n.dir)
  }

  ghost predicate Inv(paths: Paths, n: Node) {
    && Wf(n.dir)
    && (forall f | f in Images(n.dir) :: Good(paths, f, n.token, Current(n.dir)))
    && PhaseInv(paths, n)
  }

  // ---- each act keeps it ----

  lemma OpenKeepsInv(paths: Paths, n: Node, act: Act)
    requires Inv(paths, n) && Possible(paths, n, act)
    requires act.OpenProvisioned? || act.OpenFirstTime?
    ensures Inv(paths, After(paths, n, act))
  {
    if act.OpenProvisioned? {
      assert Good(paths, Current(n.dir), n.token, Current(n.dir));
      if Current(n.dir)[paths.pinFile].data.Whole? {
        PinSurvivesTrim(act.text);
      }
    }
  }

  /** Without a PIN file in view there is none in any image, so no certificate to lose. */
  lemma TokenCallKeepsInv(paths: Paths, n: Node, act: Act)
    requires Inv(paths, n) && Possible(paths, n, act)
    requires act.InitToken? || act.InitPin? || act.LogIn? || act.EnsureKey?
    ensures Inv(paths, After(paths, n, act))
  {
    var n' := After(paths, n, act);
    forall f | f in Images(n'.dir) ensures Good(paths, f, n'.token, Current(n'.dir)) {
      assert Good(paths, f, n.token, Current(n.dir));
    }
  }

  lemma GoodAfterPinCall(paths: Paths, f': PkiFiles, f: PkiFiles, token: Token, before: PkiFiles, now: PkiFiles)
    requires paths.Valid() && Good(paths, f, token, before)
    requires DiffersIn(f', f, paths.pinFile, now)
    requires paths.pinFile in now ==> PinAgrees(paths, now, token)
    requires paths.pinFile in before ==> paths.pinFile in now
    ensures Good(paths, f', token, now)
  {
    if paths.certFile in f' {
      assert paths.certFile in f' - {paths.pinFile};
      assert paths.certFile in f && f'[paths.certFile] == f[paths.certFile];
    }
  }

  lemma PinCallKeepsGood(paths: Paths, d: PkiDir, e: Event<Content>, token: Token)
    requires paths.Valid() && Wf(d)
    requires (e.Create? || e.Write? || e.Fsync?) && e.name == paths.pinFile
    requires forall f | f in Images(d) :: Good(paths, f, token, Current(d))
    requires PinAgrees(paths, Current(Do(d, e)), token)
    requires paths.pinFile in Current(d) ==> paths.pinFile in Current(Do(d, e))
    ensures Wf(Do(d, e))
    ensures forall f | f in Images(Do(d, e)) :: Good(paths, f, token, Current(Do(d, e)))
  {
    DoKeepsWf(d, e);
    InPlaceCall(d, e);
    var before, now, images := Current(d), Current(Do(d, e)), Images(Do(d, e));
    forall f' | f' in images ensures Good(paths, f', token, now) {
      var f :| f in Images(d) && DiffersIn(f', f, paths.pinFile, now);
      GoodAfterPinCall(paths, f', f, token, before, now);
    }
  }

  lemma WritePinKeepsInv(paths: Paths, n: Node, fate: PinFate)
    requires paths.Valid() && Inv(paths, n) && Possible(paths, n, WritePin(fate))
    ensures Inv(paths, After(paths, n, WritePin(fate)))
  {
    var pin := n.phase.pin;
    var es := PinEvents(paths, pin, fate);
    var d0 := n.dir;
    PinCallKeepsGood(paths, d0, es[0], n.token);
    if fate.NotCreated? {
      assert Replay(d0, es) == d0;
    } else {
      var d1 := Do(d0, es[0]);
      assert paths.pinFile in Current(d1);
      PinCallKeepsGood(paths, d1, es[1], n.token);
      var d2 := Do(d1, es[1]);
      if fate.Written? {
        PinCallKeepsGood(paths, d2, es[2], n.token);
        ReplayThree(d0, es);
      } else {
        ReplayTwo(d0, es);
      }
    }
  }

  lemma ReplayTwo(d: PkiDir, es: seq<Event<Content>>)
    requires |es| == 2
    ensures Replay(d, es) == Do(Do(d, es[0]), es[1])
  {
    assert es[1..] == [es[1]];
    assert Replay(Do(d, es[0]), [es[1]]) == Do(Do(d, es[0]), es[1]);
  }

  lemma ReplayThree(d: PkiDir, es: seq<Event<Content>>)
    requires |es| == 3
    ensures Replay(d, es) == Do(Do(Do(d, es[0]), es[1]), es[2])
  {
    ReplayTwo(Do(d, es[0]), es[1..]);
  }

  lemma CertPartIsGood(paths: Paths, f: PkiFiles, token: Token, act: Act, j: nat)
    requires paths.Valid() && Good(paths, f, token, f) && paths.pinFile in f
    requires act.Enroll? || act.Renew?
    requires token.key == Some(act.cert.publicKey)
    requires j <= |CertPlan(paths, act)|
    ensures var g := Assigned(f, CertPlan(paths, act)[..j]); Good(paths, g, token, g) && paths.pinFile in g
  {
    var plan := CertPlan(paths, act);
    if j > 0 {
      AssignedStep(f, plan, j - 1);
      if j > 1 {
        AssignedStep(f[paths.certFile := Inode(Whole(CertPem(act.cert)), true)], plan[1..], 0);
      }
    }
  }

  function CertPlan(paths: Paths, act: Act): seq<Assign<Content>>
    requires act.Enroll? || act.Renew?
  {
    if act.Enroll? then EnrollPlan(paths, act.cert, act.caCerts) else RenewPlan(paths, act.cert)
  }

  lemma CertWritesKeepInv(paths: Paths, n: Node, act: Act)
    requires paths.Valid() && Inv(paths, n) && Possible(paths, n, act) && (act.Enroll? || act.Renew?)
    ensures Inv(paths, After(paths, n, act))
  {
    var n' := After(paths, n, act);
    var plan := CertPlan(paths, act);
    var v := Current(n.dir);
    OrderedPublication(n.dir, plan, act.fates);
    assert v in Images(n.dir) && Good(paths, v, n.token, v);
    CertPartIsGood(paths, v, n.token, act, Done(act.fates));
    forall f | f in Images(n'.dir) ensures Good(paths, f, n.token, Current(n'.dir)) {
      if f in Images(n.dir) {
        assert Good(paths, f, n.token, v);
      } else {
        var j :| 0 <= j <= Done(act.fates) && f == Assigned(v, plan[..j]);
        CertPartIsGood(paths, v, n.token, act, j);
      }
    }
  }

  lemma PowerLossKeepsInv(paths: Paths, n: Node, keep: nat)
    requires Inv(paths, n)
    ensures Inv(paths, After(paths, n, PowerLoss(keep)))
  {
    DoKeepsWf(n.dir, Crash(keep));
    CrashPicksImage(n.dir, keep);
    assert Good(paths, Resolve(n.dir.inodes, Kept(n.dir, keep)), n.token, Current(n.dir));
  }

  lemma {:induction false} InvHolds(paths: Paths, n: Node, acts: seq<Act>, n': Node)
    requires paths.Valid() && Inv(paths, n) && Life(paths, n, acts, n')
    ensures Inv(paths, n')
    decreases |acts|
  {
    if acts != [] {
      var k := |acts| - 1;
      var act := acts[k];
      var m :| Life(paths, n, acts[..k], m) && Possible(paths, m, act) && After(paths, m, act) == n';
      InvHolds(paths, n, acts[..k], m);
      match act
      case OpenProvisioned(_) => OpenKeepsInv(paths, m, act);
      case OpenFirstTime(_) => OpenKeepsInv(paths, m, act);
      case InitToken(_, _) => TokenCallKeepsInv(paths, m, act);
      case InitPin(_, _) => TokenCallKeepsInv(paths, m, act);
      case LogIn(_) => TokenCallKeepsInv(paths, m, act);
      case EnsureKey(_, _, _) => TokenCallKeepsInv(paths, m, act);
      case WritePin(fate) => WritePinKeepsInv(paths, m, fate);
      case Enroll(_, _, _) => CertWritesKeepInv(paths, m, act);
      case Renew(_, _) => CertWritesKeepInv(paths, m, act);
      case Die =>
      case PowerLoss(keep) => PowerLossKeepsInv(paths, m, keep);
    }
  }

  // ---- the results ----

  /** A node that was never enrolled: no certificate and no PIN file, in any image. What the
      token holds is open. */
  ghost predicate Blank(paths: Paths, n: Node) {
    && Wf(n.dir) && n.phase.Down?
    && forall f | f in Images(n.dir) :: paths.certFile !in f && paths.pinFile !in f
  }

  /** The identity never splits: over all boots, provisioning and enrollment attempts,
      renewals, deaths and power losses, a certificate in any image a crash can leave (and in
      view) is whole and is for the key that is in the token now. */
  lemma IdentityNeverSplits(paths: Paths, n: Node, acts: seq<Act>, n': Node, f: PkiFiles)
    requires paths.Valid() && Blank(paths, n) && Life(paths, n, acts, n')
    requires f in Images(n'.dir) && paths.certFile in f
    ensures exists cert :: Has(f, paths.certFile, CertPem(cert)) && n'.token.key == Some(cert.publicKey)
  {
    InvHolds(paths, n, acts, n');
    assert Good(paths, f, n'.token, Current(n'.dir));
    assert Has(f, paths.certFile, CertPem(f[paths.certFile].data.content.cert));
  }

  /** A completely written PIN file holds the token's present PIN. */
  lemma PinFileAgrees(paths: Paths, n: Node, acts: seq<Act>, n': Node, f: PkiFiles)
    requires paths.Valid() && Blank(paths, n) && Life(paths, n, acts, n')
    requires f in Images(n'.dir) && paths.pinFile in f && f[paths.pinFile].data.Whole?
    ensures n'.token.pin.Some? && f[paths.pinFile].data.content == PinText(n'.token.pin.value)
  {
    InvHolds(paths, n, acts, n');
    assert Good(paths, f, n'.token, Current(n'.dir));
  }

  /** So a process that finds such a file can log in: what it read, trimmed, is the PIN. */
  lemma LogInWorks(paths: Paths, n: Node, acts: seq<Act>, n': Node)
    requires paths.Valid() && Blank(paths, n) && Life(paths, n, acts, n')
    requires n'.phase.LoggingIn? && paths.pinFile in Current(n'.dir) && Current(n'.dir)[paths.pinFile].data.Whole?
    ensures Possible(paths, n', LogIn(true))
  {
    InvHolds(paths, n, acts, n');
  }

  // ---- a torn PIN file ----

  ghost predicate TornPin(paths: Paths, f: PkiFiles) {
    paths.pinFile in f && f[paths.pinFile].data.Torn?
  }

  /** What writing the PIN file adds: of the images from before, none had the file. */
  lemma PinWritten(paths: Paths, n: Node, fate: PinFate)
    requires paths.Valid() && Inv(paths, n) && n.phase.WritingPin?
    ensures var d := After(paths, n, WritePin(fate)).dir;
            && Wf(d)
            && (fate.NotCreated? ==> d == n.dir)
            && (!fate.NotCreated? ==> paths.pinFile in Current(d))
            && (fate.NotWritten? ==> Current(d)[paths.pinFile].data == Torn)
            && (fate.Written? ==> Current(d)[paths.pinFile] == Inode(Whole(PinText(n.phase.pin)), fate.synced))
            && forall f | f in Images(d) && paths.pinFile in f :: paths.pinFile in Current(d) && f[paths.pinFile] == Current(d)[paths.pinFile]
  {
    assert PinNowhere(paths, n.dir);
    if fate.NotCreated? {
      assert Replay(n.dir, PinEvents(paths, n.phase.pin, fate)) == n.dir;
    } else {
      PinCreated(paths, n.dir, n.phase.pin, fate);
    }
  }

  lemma PinCreated(paths: Paths, d: PkiDir, pin: string, fate: PinFate)
    requires paths.Valid() && PinNowhere(paths, d) && !fate.NotCreated?
    ensures var d' := Replay(d, PinEvents(paths, pin, fate));
            && Wf(d') && PinInView(paths, d')
            && Current(d')[paths.pinFile] == if fate.Written? then Inode(Whole(PinText(pin)), fate.synced) else Inode(Torn, false)
  {
    var es := PinEvents(paths, pin, fate);
    FirstPinInode(paths, d);
    SamePinInode(paths, Do(d, es[0]), es[1]);
    if fate.Written? {
      SamePinInode(paths, Do(Do(d, es[0]), es[1]), es[2]);
      ReplayThree(d, es);
    } else {
      ReplayTwo(d, es);
    }
  }

  ghost predicate PinNowhere(paths: Paths, d: PkiDir) {
    Wf(d) && forall f | f in Images(d) :: paths.pinFile !in f
  }

  /** In all versions the PIN file is this one inode. */
  ghost predicate OnePinInode(paths: Paths, d: PkiDir) {
    && Wf(d) && paths.pinFile in d.visible && d.visible[paths.pinFile] in d.inodes
    && forall v | Version(d, v) && paths.pinFile in v :: v[paths.pinFile] == d.visible[paths.pinFile]
  }

  ghost predicate PinInView(paths: Paths, d: PkiDir) {
    && paths.pinFile in Current(d)
    && forall f | f in Images(d) && paths.pinFile in f :: f[paths.pinFile] == Current(d)[paths.pinFile]
  }

  lemma OneInodeInView(paths: Paths, d: PkiDir)
    requires paths.Valid() && OnePinInode(paths, d)
    ensures PinInView(paths, d) && Current(d)[paths.pinFile] == d.inodes[d.visible[paths.pinFile]]
  {
    forall f | f in Images(d) && paths.pinFile in f ensures f[paths.pinFile] == Current(d)[paths.pinFile] {
      if f != Current(d) {
        var v :| v in d.older && Resolve(d.inodes, v) == f;
        assert Version(d, v);
      }
    }
  }

  lemma FirstPinInode(paths: Paths, d: PkiDir)
    requires paths.Valid() && PinNowhere(paths, d)
    ensures OnePinInode(paths, Do(d, Create(paths.pinFile, true)))
  {
    DoKeepsWf(d, Create(paths.pinFile, true));
    forall v | Version(d, v) ensures paths.pinFile !in v {
      assert Resolve(d.inodes, v) in Images(d);
    }
  }

  lemma SamePinInode(paths: Paths, d: PkiDir, e: Event<Content>)
    requires paths.Valid() && OnePinInode(paths, d) && (e.Write? || e.Fsync?) && e.name == paths.pinFile
    ensures OnePinInode(paths, Do(d, e)) && PinInView(paths, Do(d, e))
    ensures Current(Do(d, e))[paths.pinFile] == Do(d, e).inodes[d.visible[paths.pinFile]]
  {
    DoKeepsWf(d, e);
    assert forall v :: Version(Do(d, e), v) <==> Version(d, v);
    OneInodeInView(paths, Do(d, e));
  }

  /** What tears the file is exactly a refused write, or a sync that failed unnoticed: then, and
      only then, a power loss after `write_pin` can leave a torn PIN file. After a refused write
      it is there at once. */
  lemma WriteTearsExactly(paths: Paths, n: Node, fate: PinFate)
    requires paths.Valid() && Inv(paths, n) && n.phase.WritingPin?
    ensures var d := After(paths, n, WritePin(fate)).dir;
            && ((exists keep: nat :: TornPin(paths, Current(Do(d, Crash(keep))))) <==> fate == NotWritten || fate == Written(false))
            && (TornPin(paths, Current(d)) <==> fate == NotWritten)
  {
    var d := After(paths, n, WritePin(fate)).dir;
    PinWritten(paths, n, fate);
    assert fate.NotCreated? ==> PinNowhere(paths, d);
    assert Current(d) in Images(d);
    forall keep: nat ensures TornPin(paths, Current(Do(d, Crash(keep)))) ==> fate == NotWritten || fate == Written(false) {
      CrashPicksImage(d, keep);
    }
    if fate == NotWritten || fate == Written(false) {
      CrashPicksImage(d, |d.older|);
      assert TornPin(paths, Current(Do(d, Crash(|d.older|))));
    }
  }

  /** And it can come to that: any node that was never enrolled may provision its token, and lose
      power after the sync failed. */
  lemma TornPinIsReached(paths: Paths, n: Node, pin: string) returns (acts: seq<Act>, n': Node)
    requires paths.Valid() && Blank(paths, n) && IsPin(pin)
    ensures Life(paths, n, acts, n') && n'.phase.Down?
    ensures TornPin(paths, Current(n'.dir)) && Images(n'.dir) == {Current(n'.dir)}
  {
    assert Current(n.dir) in Images(n.dir);
    var m;
    acts, m := Provisioned(paths, n, pin);
    var d := After(paths, m, WritePin(Written(false))).dir;
    LifeStep(paths, n, acts, m, WritePin(Written(false)));
    PinWritten(paths, m, Written(false));
    CrashPicksImage(d, |d.older|);
    LifeStep(paths, n, acts + [WritePin(Written(false))], After(paths, m, WritePin(Written(false))), PowerLoss(|d.older|));
    acts := acts + [WritePin(Written(false))] + [PowerLoss(|d.older|)];
    n' := Node(Do(d, Crash(|d.older|)), m.token, Down);
  }

  lemma Provisioned(paths: Paths, n: Node, pin: string) returns (acts: seq<Act>, m: Node)
    requires paths.Valid() && Blank(paths, n) && IsPin(pin)
    ensures Life(paths, n, acts, m) && m == Node(n.dir, Token(Some(pin), None), WritingPin(pin))
    ensures Inv(paths, m)
  {
    assert Current(n.dir) in Images(n.dir);
    var a, b, c := OpenFirstTime(pin), InitToken(true, true), InitPin(true, true);
    LifeStep(paths, n, [], n, a);
    var n1 := n.(phase := Initializing(pin));
    LifeStep(paths, n, [] + [a], n1, b);
    var n2 := Node(n.dir, Token(None, None), SettingPin(pin));
    LifeStep(paths, n, [] + [a] + [b], n2, c);
    m := Node(n.dir, Token(Some(pin), None), WritingPin(pin));
    acts := [] + [a] + [b] + [c];
  }

  /** What follows from it: a node that is to open its provisioned token reads the right PIN, in
      every case, exactly if the file is whole. */
  lemma ReadsPinExactly(paths: Paths, n: Node, acts: seq<Act>, n': Node)
    requires paths.Valid() && Blank(paths, n) && Life(paths, n, acts, n')
    requires n'.phase.Down? && paths.pinFile in Current(n'.dir)
    ensures (forall text | Possible(paths, n', OpenProvisioned(text)) :: n'.token.pin == Some(Trim(text)))
            <==> Current(n'.dir)[paths.pinFile].data.Whole?
  {
    InvHolds(paths, n, acts, n');
    var f := Current(n'.dir);
    assert f in Images(n'.dir) && Good(paths, f, n'.token, f);
    if f[paths.pinFile].data.Whole? {
      forall text | Possible(paths, n', OpenProvisioned(text)) ensures n'.token.pin == Some(Trim(text)) {
        PinSurvivesTrim(text);
      }
    } else {
      TrimKeeps("A");
      TrimKeeps("B");
      assert Possible(paths, n', OpenProvisioned("A")) && Possible(paths, n', OpenProvisioned("B"));
      assert Trim("A") == "A" && Trim("B") == "B" && "A"[0] != "B"[0];
    }
  }

  predicate Reprovisions(act: Act) {
    act.OpenFirstTime? || act.InitToken? || act.InitPin? || act.WritePin?
  }

  /** Every image has a PIN file, a torn one if `torn`, and the token is as it was. */
  ghost predicate StuckOn(paths: Paths, n: Node, token: Token, torn: bool) {
    && Wf(n.dir) && (forall f | f in Images(n.dir) :: paths.pinFile in f && (torn ==> TornPin(paths, f)))
    && !n.phase.Initializing? && !n.phase.SettingPin? && !n.phase.WritingPin?
    && n.token.pin == token.pin && (token.key.Some? ==> n.token.key == token.key)
  }

  lemma CertWritesKeepPin(paths: Paths, n: Node, act: Act, token: Token, torn: bool)
    requires paths.Valid() && StuckOn(paths, n, token, torn) && Possible(paths, n, act) && (act.Enroll? || act.Renew?)
    ensures StuckOn(paths, After(paths, n, act), token, torn)
  {
    var plan, v := CertPlan(paths, act), Current(n.dir);
    OrderedPublication(n.dir, plan, act.fates);
    assert v in Images(n.dir);
    forall f | f in Images(After(paths, n, act).dir) ensures paths.pinFile in f && (torn ==> TornPin(paths, f)) {
      if f !in Images(n.dir) {
        var j :| 0 <= j <= Done(act.fates) && f == Assigned(v, plan[..j]);
        PinIsNotWritten(paths, v, act, j);
      }
    }
  }

  lemma PinIsNotWritten(paths: Paths, f: PkiFiles, act: Act, j: nat)
    requires paths.Valid() && paths.pinFile in f && (act.Enroll? || act.Renew?) && j <= |CertPlan(paths, act)|
    ensures var g := Assigned(f, CertPlan(paths, act)[..j]); paths.pinFile in g && g[paths.pinFile] == f[paths.pinFile]
  {
    var plan := CertPlan(paths, act);
    if j > 0 {
      AssignedStep(f, plan, j - 1);
      if j > 1 {
        AssignedStep(f[paths.certFile := Inode(Whole(CertPem(act.cert)), true)], plan[1..], 0);
      }
    }
  }

  lemma StuckStep(paths: Paths, n: Node, act: Act, token: Token, torn: bool)
    requires paths.Valid() && StuckOn(paths, n, token, torn) && Possible(paths, n, act)
    ensures StuckOn(paths, After(paths, n, act), token, torn) && !Reprovisions(act)
  {
    assert Current(n.dir) in Images(n.dir);
    match act
    case Enroll(_, _, _) => CertWritesKeepPin(paths, n, act, token, torn);
    case Renew(_, _) => CertWritesKeepPin(paths, n, act, token, torn);
    case PowerLoss(keep) =>
      DoKeepsWf(n.dir, Crash(keep));
      CrashPicksImage(n.dir, keep);
    case _ =>
  }

  lemma {:induction false} StaysStuck(paths: Paths, n: Node, acts: seq<Act>, n': Node, torn: bool)
    requires paths.Valid() && StuckOn(paths, n, n.token, torn) && Life(paths, n, acts, n')
    ensures StuckOn(paths, n', n.token, torn)
    ensures forall act | act in acts :: !Reprovisions(act)
    decreases |acts|
  {
    if acts != [] {
      var before, act := acts[..|acts| - 1], acts[|acts| - 1];
      var m :| Life(paths, n, before, m) && Possible(paths, m, act) && After(paths, m, act) == n';
      StaysStuck(paths, n, before, m, torn);
      StuckStep(paths, m, act, n.token, torn);
      assert forall x | x in acts :: x in before || x == act;
    }
  }

  /** A torn PIN file that no power loss can take back is never repaired: however often the node
      is started, it does not initialize the token or rewrite the file, and PIN and key of the
      token stay. */
  lemma TornPinIsFinal(paths: Paths, n: Node, acts: seq<Act>, n': Node)
    requires paths.Valid() && Wf(n.dir) && n.phase.Down? && (forall f | f in Images(n.dir) :: TornPin(paths, f))
    requires Life(paths, n, acts, n')
    ensures StuckOn(paths, n', n.token, true)
    ensures forall act | act in acts :: !Reprovisions(act)
  {
    StaysStuck(paths, n, acts, n', true);
  }

  ghost predicate CanReprovision(paths: Paths, n: Node) {
    exists acts, n' | Life(paths, n, acts, n') :: exists act | act in acts :: Reprovisions(act)
  }

  /** And whether a file is torn or not: a node that is down can ever set up its token again
      exactly if a power loss can still take the creation of the PIN file back, or there is no
      such file. */
  lemma ReprovisionsExactly(paths: Paths, n: Node)
    requires paths.Valid() && Wf(n.dir) && n.phase.Down?
    ensures CanReprovision(paths, n) <==> exists f | f in Images(n.dir) :: paths.pinFile !in f
  {
    if f :| f in Images(n.dir) && paths.pinFile !in f {
      var keep := EveryImageCanRemain(n.dir, f);
      var drawn: string := seq(PIN_LENGTH, i => 'A');
      LifeStep(paths, n, [], n, PowerLoss(keep));
      var n1 := Node(Do(n.dir, Crash(keep)), n.token, Down);
      LifeStep(paths, n, [] + [PowerLoss(keep)], n1, OpenFirstTime(drawn));
      var acts := [] + [PowerLoss(keep)] + [OpenFirstTime(drawn)];
      assert OpenFirstTime(drawn) in acts && Reprovisions(OpenFirstTime(drawn));
    } else {
      forall acts, n' | Life(paths, n, acts, n') ensures forall act | act in acts :: !Reprovisions(act) {
        StaysStuck(paths, n, acts, n', false);
      }
    }
  }
}
