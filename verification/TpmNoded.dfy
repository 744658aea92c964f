/** noded's code for a TPM-resident key: provisioning, opening, enrollment, renewal. Every method
    fails only after its surroundings refused something, which their records show. */
module TpmNoded {
  import opened Storage
  import opened Host
  import opened AtomicWrite
  import opened Pki
  import opened Volumes
  import opened Pin
  import opened TokenIdentity

  datatype TokenCall =
    | Loaded(ok: bool)                             // the library
    | Initialized(ok: bool)                        // C_Initialize
    | SlotsWithToken(slots: Option<seq<nat>>)
    | AllSlots(slots: Option<seq<nat>>)
    | InitializedToken(slot: nat, ok: bool)        // C_InitToken
    | OpenedSession(slot: nat, ok: bool)
    | LoggedInSo(ok: bool)
    | SetUserPin(pin: string, ok: bool)            // C_InitPIN
    | LoggedOut(ok: bool)
    | LoggedIn(pin: string, ok: bool)
    | LookedUpKey(ok: bool)
    | GeneratedKey(ok: bool)
    | Signed(key: nat, ok: bool)

  predicate TokenFailed(c: TokenCall) {
    match c
    case SlotsWithToken(slots) => slots.None?
    case AllSlots(slots) => slots.None? || slots.value == []
    case _ => !c.ok
  }

  /** The PKCS#11 module. Any call may be refused. */
  class Pkcs11 {
    var token: Token
    ghost var calls: seq<TokenCall>
    ghost var failures: nat       // how many of them failed

    constructor (found: Token)
      ensures token == found && calls == [] && failures == 0
    {
      token, calls, failures := found, [], 0;
    }

    ghost method Record(c: TokenCall)
      modifies `calls, `failures
      ensures calls == old(calls) + [c]
      ensures failures == old(failures) + if TokenFailed(c) then 1 else 0
    {
      calls := calls + [c];
      if TokenFailed(c) { failures := failures + 1; }
    }

    method Load() returns (ok: bool)
      modifies `calls, `failures
      ensures calls == old(calls) + [Loaded(ok)]
      ensures failures == old(failures) + if ok then 0 else 1
    {
      ok := *;
      Record(Loaded(ok));
    }

    method Initialize() returns (ok: bool)
      modifies `calls, `failures
      ensures calls == old(calls) + [Initialized(ok)]
      ensures failures == old(failures) + if ok then 0 else 1
    {
      ok := *;
      Record(Initialized(ok));
    }

    method GetSlotsWithToken() returns (slots: Option<seq<nat>>)
      modifies `calls, `failures
      ensures calls == old(calls) + [SlotsWithToken(slots)]
      ensures failures == old(failures) + if slots.None? then 1 else 0
    {
      var answers: bool, list: seq<nat> := *, *;
      slots := if answers then Some(list) else None;
      Record(SlotsWithToken(slots));
    }

    method GetAllSlots() returns (slots: Option<seq<nat>>)
      modifies `calls, `failures
      ensures calls == old(calls) + [AllSlots(slots)]
      ensures failures == old(failures) + if slots.None? || slots.value == [] then 1 else 0
    {
      var answers: bool, list: seq<nat> := *, *;
      slots := if answers then Some(list) else None;
      Record(AllSlots(slots));
    }

    method CInitToken(slot: nat) returns (ok: bool, ghost took: bool)
      modifies this
      ensures ok ==> took
      ensures token == if took then Token(None, None) else old(token)
      ensures calls == old(calls) + [InitializedToken(slot, ok)]
      ensures failures == old(failures) + if ok then 0 else 1
    {
      ok := *;
      var effect: bool := *;
      effect := effect || ok;
      if effect { token := Token(None, None); }
      took := effect;
      Record(InitializedToken(slot, ok));
    }

    method OpenSession(slot: nat) returns (ok: bool)
      modifies `calls, `failures
      ensures calls == old(calls) + [OpenedSession(slot, ok)]
      ensures failures == old(failures) + if ok then 0 else 1
    {
      ok := *;
      Record(OpenedSession(slot, ok));
    }

    method LoginSo() returns (ok: bool)
      modifies `calls, `failures
      ensures calls == old(calls) + [LoggedInSo(ok)]
      ensures failures == old(failures) + if ok then 0 else 1
    {
      ok := *;
      Record(LoggedInSo(ok));
    }

    method CInitPin(pin: string) returns (ok: bool, ghost took: bool)
      modifies this
      ensures ok ==> took
      ensures token == if took then old(token).(pin := Some(pin)) else old(token)
      ensures calls == old(calls) + [SetUserPin(pin, ok)]
      ensures failures == old(failures) + if ok then 0 else 1
    {
      ok := *;
      var effect: bool := *;
      effect := effect || ok;
      if effect { token := token.(pin := Some(pin)); }
      took := effect;
      Record(SetUserPin(pin, ok));
    }

    method Logout() returns (ok: bool)
      modifies `calls, `failures
      ensures calls == old(calls) + [LoggedOut(ok)]
      ensures failures == old(failures) + if ok then 0 else 1
    {
      ok := *;
      Record(LoggedOut(ok));
    }

    /** Logs in with the user PIN. */
    method OpenProvider(pin: string) returns (ok: bool)
      modifies `calls, `failures
      ensures ok ==> token.pin == Some(pin)
      ensures calls == old(calls) + [LoggedIn(pin, ok)]
      ensures failures == old(failures) + if ok then 0 else 1
    {
      ok := *;
      ok := ok && token.pin == Some(pin);
      Record(LoggedIn(pin, ok));
    }

    method FindKey() returns (ok: bool, found: Option<nat>)
      modifies `calls, `failures
      ensures ok ==> found == token.key
      ensures calls == old(calls) + [LookedUpKey(ok)]
      ensures failures == old(failures) + if ok then 0 else 1
    {
      ok := *;
      found := if ok then token.key else None;
      Record(LookedUpKey(ok));
    }

    method GenerateKey() returns (ok: bool, ghost made: nat, ghost took: bool)
      requires token.key.None?
      modifies this
      ensures ok ==> took
      ensures token == if took then old(token).(key := Some(made)) else old(token)
      ensures calls == old(calls) + [GeneratedKey(ok)]
      ensures failures == old(failures) + if ok then 0 else 1
    {
      ok := *;
      var effect: bool, key: nat := *, *;
      effect := effect || ok;
      if effect { token := token.(key := Some(key)); }
      took, made := effect, key;
      Record(GeneratedKey(ok));
    }

    /** A certificate request, signed by the token's key. */
    method SignCsr(key: nat) returns (ok: bool)
      modifies `calls, `failures
      ensures calls == old(calls) + [Signed(key, ok)]
      ensures failures == old(failures) + if ok then 0 else 1
    {
      ok := *;
      Record(Signed(key, ok));
    }
  }

  /** The rule for the slot to set up: the first with a token, or else the first of all. */
  predicate SlotRule(calls: seq<TokenCall>, slot: nat) {
    && 3 <= |calls| <= 4 && calls[0] == Loaded(true) && calls[1] == Initialized(true)
    && calls[2].SlotsWithToken? && calls[2].slots.Some?
    && if |calls| == 3 then calls[2].slots.value != [] && slot == calls[2].slots.value[0]
       else calls[2].slots.value == [] && calls[3].AllSlots? && calls[3].slots.Some?
            && calls[3].slots.value != [] && slot == calls[3].slots.value[0]
  }

  function SetUpCalls(slot: nat, pin: string): seq<TokenCall> {
    [InitializedToken(slot, true), OpenedSession(slot, true), LoggedInSo(true), SetUserPin(pin, true), LoggedOut(true)]
  }

  /** What the EST server is asked, and answers, for the token's key. */
  function TokenEnrollDialog(caCerts: seq<string>, key: nat, cert: Cert): seq<EstCall> {
    [Built(Bearer, true), SentCas(Some(caCerts)), Answered(SimpleEnroll, key, Issued(cert))]
  }

  function TokenRenewDialog(cert: Content, key: nat, newCert: Cert): seq<EstCall> {
    [Built(TokenCert(cert), true), Answered(SimpleReenroll, key, Issued(newCert))]
  }

  class TpmNode {
    const paths: Paths
    const volume: Volume<Content>
    const module11: Pkcs11
    const est: EstServer
    const clock: Clock
    const rng: Rng

    constructor (paths: Paths, volume: Volume<Content>, module11: Pkcs11, est: EstServer, clock: Clock, rng: Rng)
      ensures this.paths == paths && this.volume == volume && this.module11 == module11
      ensures this.est == est && this.clock == clock && this.rng == rng
    {
      this.paths, this.volume, this.module11, this.est, this.clock, this.rng := paths, volume, module11, est, clock, rng;
    }

    ghost function State(phase: Phase): Node
      reads volume, module11
    {
      Node(volume.dir, module11.token, phase)
    }

    ghost function Failures(): nat
      reads volume, module11, est, clock
    {
      volume.failures + module11.failures + est.failures + clock.failures
    }

    /** `write_pin`: in place, and the fsync's failure is ignored. */
    method WritePin(pin: string) returns (ok: bool, ghost fate: PinFate)
      modifies volume
      ensures ok == fate.Written?
      ensures volume.dir == Replay(old(volume.dir), PinEvents(paths, pin, fate))
      ensures || (volume.calls == old(volume.calls) + [MakeDirs(false)] && fate.NotCreated?)
              || volume.calls == old(volume.calls) + ([MakeDirs(true)] + Touches(PinEvents(paths, pin, fate)))
      ensures volume.failures == old(volume.failures) + if fate == Written(true) then 0 else 1
    {
      ghost var c := volume.calls;
      fate := NotCreated;
      assert PinEvents(paths, pin, fate)[1..] == [];
      ok := volume.CreateDirAll();
      if !ok { return; }
      ok := volume.OpenTruncated(paths.pinFile);
      if ok {
        fate := NotWritten;
        ok := volume.WriteAll(paths.pinFile, PinText(pin));
        if ok {
          var synced := volume.SyncAll(paths.pinFile);
          fate := Written(synced);
          ReplayThree(old(volume.dir), PinEvents(paths, pin, fate));
        } else {
          ReplayTwo(old(volume.dir), PinEvents(paths, pin, fate));
        }
      }
      assert volume.calls == c + ([MakeDirs(true)] + Touches(PinEvents(paths, pin, fate)));
    }

    /** `read_pin` */
    method ReadPin() returns (pin: Option<string>, ghost text: string)
      requires paths.Valid()
      modifies volume`calls, volume`failures
      ensures pin.Some? ==>
                && paths.pinFile in Current(volume.dir) && Reads(Current(volume.dir), paths.pinFile, PinText(text))
                && pin.value == Trim(text)
      ensures pin.Some? && Current(volume.dir)[paths.pinFile].data.Whole? ==>
                && Current(volume.dir)[paths.pinFile].data.content.PinText?
                && pin.value == Trim(Current(volume.dir)[paths.pinFile].data.content.pin)
      ensures volume.failures >= old(volume.failures)
      ensures pin.None? ==> volume.failures > old(volume.failures) || !IsPinText(Current(volume.dir))
    {
      pin, text := None, "";
      var found := volume.ReadFile(paths.pinFile);
      if found.Some? && found.value.PinText? {
        pin, text := Some(Trim(found.value.pin)), found.value.pin;
      }
    }

    ghost predicate IsPinText(f: PkiFiles) {
      paths.pinFile in f && f[paths.pinFile].data.Whole? && f[paths.pinFile].data.content.PinText?
    }

    /** The first slot with a token, or else the first slot. */
    method FirstSlot() returns (slot: Option<nat>)
      modifies module11`calls, module11`failures
      ensures old(module11.calls) <= module11.calls && module11.failures >= old(module11.failures)
      ensures slot.Some? ==> SlotRule(module11.calls[|old(module11.calls)|..], slot.value)
      ensures slot.None? ==> module11.failures > old(module11.failures)
    {
      ghost var n := |module11.calls|;
      slot := None;
      var ok := module11.Load();
      if !ok { return; }
      ok := module11.Initialize();
      if !ok { return; }
      var slots := module11.GetSlotsWithToken();
      if slots.None? { return; }
      if slots.value == [] {
        slots := module11.GetAllSlots();
        if slots.None? || slots.value == [] { return; }
      }
      slot := Some(slots.value[0]);
    }

    /** `C_InitToken` and `C_InitPIN`; on any failure the process gives up. */
    method InitializeToken(slot: nat, pin: string, ghost n0: Node, ghost before: seq<Act>) returns (ok: bool, ghost acts: seq<Act>)
      requires Life(paths, n0, before, State(Initializing(pin)))
      modifies module11
      ensures Life(paths, n0, acts, State(if ok then WritingPin(pin) else Down))
      ensures ok ==> module11.calls == old(module11.calls) + SetUpCalls(slot, pin)
      ensures module11.failures == old(module11.failures) + if ok then 0 else 1
    {
      ghost var at := State(Initializing(pin));
      ghost var took;
      ok, took := module11.CInitToken(slot);
      LifeStep(paths, n0, before, at, InitToken(took, ok));
      acts := before + [InitToken(took, ok)];
      if !ok { return; }

      at := State(SettingPin(pin));
      ok := module11.OpenSession(slot);
      if ok { ok := module11.LoginSo(); }
      if ok {
        ok, took := module11.CInitPin(pin);
        LifeStep(paths, n0, acts, at, InitPin(took, ok));
        acts := acts + [InitPin(took, ok)];
        if !ok { return; }
        at := State(WritingPin(pin));
        ok := module11.Logout();
      }
      if !ok {
        LifeStep(paths, n0, acts, at, Die);
        acts := acts + [Die];
      }
    }

    method DrawPins() returns (soPin: string, userPin: string)
      modifies rng
      ensures IsPin(soPin) && IsPin(userPin)
      ensures DrawnFrom(rng.draws, |old(rng.draws)| + PIN_LENGTH, userPin)
    {
      soPin := RandomPin(rng);
      userPin := RandomPin(rng);
    }

    method StoreNewPin(slot: nat, pin: string, ghost n0: Node, ghost before: seq<Act>) returns (ok: bool, ghost acts: seq<Act>)
      requires paths.Valid() && Life(paths, n0, before, State(Initializing(pin)))
      modifies volume, module11
      ensures Life(paths, n0, acts, State(if ok then LoggingIn(pin) else Down))
      ensures Failures() >= old(Failures()) && (!ok ==> Failures() > old(Failures()))
      ensures ok ==> module11.calls == old(module11.calls) + SetUpCalls(slot, pin)
    {
      ok, acts := InitializeToken(slot, pin, n0, before);
      if !ok { return; }
      ghost var at := State(WritingPin(pin));
      ghost var fate;
      ok, fate := WritePin(pin);
      LifeStep(paths, n0, acts, at, Act.WritePin(fate));
      acts := acts + [Act.WritePin(fate)];
    }

    /** `provision_token`: the PIN it returns was drawn second, set in the token by the rule for the
        slot, and written to the file. */
    method ProvisionToken(ghost n0: Node, ghost before: seq<Act>) returns (pin: Option<string>, ghost acts: seq<Act>)
      requires paths.Valid() && paths.pinFile !in Current(volume.dir)
      requires Life(paths, n0, before, State(Down))
      modifies volume, module11, rng
      ensures Life(paths, n0, acts, State(if pin.Some? then LoggingIn(pin.value) else Down))
      ensures Failures() >= old(Failures()) && (pin.None? ==> Failures() > old(Failures()))
      ensures pin.Some? ==> IsSetUp(old(module11.calls), module11.calls, pin.value)
      ensures pin.Some? ==> DrawnFrom(rng.draws, |old(rng.draws)| + PIN_LENGTH, pin.value)
    {
      acts, pin := before, None;
      var soPin, userPin := DrawPins();
      var slot := FirstSlot();
      if slot.None? { return; }
      LifeStep(paths, n0, acts, State(Down), OpenFirstTime(userPin));
      ghost var ready := module11.calls;
      var ok;
      ok, acts := StoreNewPin(slot.value, userPin, n0, acts + [OpenFirstTime(userPin)]);
      if ok {
        pin := Some(userPin);
        SetUpBy(old(module11.calls), ready, slot.value, userPin);
      }
    }

    /** `ensure_key`: an existing key is reused. */
    method EnsureKey() returns (key: Option<nat>, ghost act: Act)
      modifies module11
      ensures act.EnsureKey? && act.ok == key.Some? && (act.ok && old(module11.token).key.None? ==> act.took)
      ensures module11.token == if old(module11.token).key.None? && act.took then old(module11.token).(key := Some(act.made)) else old(module11.token)
      ensures key.Some? ==> module11.token.key.Some? && key == module11.token.key
      ensures key.Some? && old(module11.token).key.Some? ==> key == old(module11.token).key
      ensures module11.failures == old(module11.failures) + if key.None? then 1 else 0
    {
      var ok, found := module11.FindKey();
      if !ok {
        return None, Act.EnsureKey(0, false, false);
      }
      if found.Some? {
        return found, Act.EnsureKey(0, false, true);
      }
      ghost var made, took;
      ok, made, took := module11.GenerateKey();
      key := if ok then module11.token.key else None;
      act := Act.EnsureKey(made, took, ok);
    }

    method PinToOpenWith(ghost n0: Node) returns (pin: Option<string>, ghost acts: seq<Act>)
      requires paths.Valid() && n0 == State(Down)
      modifies volume, module11, rng
      ensures Life(paths, n0, acts, State(if pin.Some? then LoggingIn(pin.value) else Down))
      ensures Failures() >= old(Failures())
      ensures pin.None? ==> Failures() > old(Failures()) || PinUnreadable(Current(n0.dir))
      ensures paths.pinFile in Current(n0.dir) ==> module11.token == n0.token && volume.dir == n0.dir
    {
      acts := [];
      if paths.pinFile in volume.dir.visible {
        ghost var text;
        pin, text := ReadPin();
        if pin.None? { return; }
        LifeStep(paths, n0, [], n0, OpenProvisioned(text));
        acts := [] + [OpenProvisioned(text)];
      } else {
        pin, acts := ProvisionToken(n0, []);
      }
    }

    /** A PIN file that is there, but is no text of a PIN, or torn. */
    ghost predicate PinUnreadable(f: PkiFiles) {
      paths.pinFile in f && !IsPinText(f)
    }

    /** `open`: the presence of the PIN file decides whether the token is set up or reused. It fails
        only if something was refused, a wrong PIN included, or the PIN file cannot be read as text. */
    method Open() returns (ok: bool, ghost acts: seq<Act>)
      requires paths.Valid()
      modifies volume, module11, rng
      ensures Life(paths, old(State(Down)), acts, State(
                if !ok then Down else if PkiPresent(paths, true, Current(volume.dir)) then Serving else Bootstrapping))
      ensures ok ==> module11.token.key.Some?
      ensures Failures() >= old(Failures())
      ensures !ok ==> Failures() > old(Failures()) || PinUnreadable(Current(old(volume.dir)))
    {
      ghost var n0 := State(Down);
      ok := false;
      var pin;
      pin, acts := PinToOpenWith(n0);
      if pin.None? { return; }
      ghost var at := State(LoggingIn(pin.value));
      ok := module11.OpenProvider(pin.value);
      LifeStep(paths, n0, acts, at, LogIn(ok));
      acts := acts + [LogIn(ok)];
      if !ok { return; }
      at := State(FindingKey);
      var key;
      ghost var act;
      key, act := EnsureKey();
      LifeStep(paths, n0, acts, at, act);
      acts := acts + [act];
      ok := key.Some?;
    }

    /** The CA certificates and the certificate for the token's key; None after a failure. */
    method RequestCert(key: nat) returns (issued: Option<(seq<string>, Cert)>)
      modifies est, module11`calls, module11`failures
      ensures issued.Some? ==>
                && issued.value.0 != [] && issued.value.1.publicKey == key
                && est.calls == old(est.calls) + TokenEnrollDialog(issued.value.0, key, issued.value.1)
                && module11.calls == old(module11.calls) + [Signed(key, true)]
      ensures est.failures >= old(est.failures) && module11.failures >= old(module11.failures)
      ensures issued.None? ==> est.failures + module11.failures > old(est.failures + module11.failures)
    {
      issued := None;
      var ok := est.Build(Bearer);
      if !ok { return; }
      var caCerts := est.CaCerts();
      if caCerts.None? || caCerts.value == [] { return; }
      ok := module11.SignCsr(key);
      if !ok { return; }
      var response := est.Enroll(SimpleEnroll, key);
      var cert := IssuedCert(response);
      if cert.Some? { issued := Some((caCerts.value, cert.value)); }
    }

    /** `write_cert_only` */
    method WriteCertOnly(cert: Cert) returns (ok: bool, ghost fates: seq<Fate>)
      requires paths.Valid() && Wf(volume.dir)
      modifies volume, est
      ensures Wf(volume.dir) && Series(RenewPlan(paths, cert), fates)
      ensures volume.dir == Replay(old(volume.dir), SeriesEvents(RenewPlan(paths, cert), fates))
      ensures ok == (Done(fates) == 1)
      ensures est.calls == old(est.calls) + [Encoded(fates != [])]
      ensures est.failures >= old(est.failures) && volume.failures >= old(volume.failures)
      ensures !ok ==> est.failures + volume.failures > old(est.failures + volume.failures)
    {
      fates := [];
      assert SeriesEvents(RenewPlan(paths, cert), fates) == [] && Replay(old(volume.dir), []) == old(volume.dir);
      ok := est.Encode();
      if !ok { return; }
      ghost var fate;
      ok, fate := volume.WriteAtomic(paths.certFile, CertPem(cert));
      ReplaySeriesSnoc(old(volume.dir), RenewPlan(paths, cert), [], fate);
      fates := [] + [fate];
    }

    /** The last part: the CA bundle, over the certificate. */
    method WriteBundle(cert: Cert, caCerts: seq<string>, ghost d0: PkiDir, ghost before: seq<Fate>)
      returns (ok: bool, ghost fates: seq<Fate>)
      requires paths.Valid() && Wf(volume.dir)
      requires Series(EnrollPlan(paths, cert, caCerts), before) && |before| == Done(before) == 1
      requires volume.dir == Replay(d0, SeriesEvents(EnrollPlan(paths, cert, caCerts), before))
      modifies volume, est
      ensures Wf(volume.dir) && Series(EnrollPlan(paths, cert, caCerts), fates) && fates != []
      ensures volume.dir == Replay(d0, SeriesEvents(EnrollPlan(paths, cert, caCerts), fates))
      ensures ok == (Done(fates) == 2)
      ensures old(est.calls) <= est.calls && (ok ==> est.calls == old(est.calls) + Encodings(|caCerts|))
      ensures ok ==> HasBundle(paths, Current(volume.dir), caCerts)
      ensures est.failures >= old(est.failures) && volume.failures >= old(volume.failures)
      ensures !ok ==> est.failures + volume.failures > old(est.failures + volume.failures)
    {
      ok, fates := false, before;
      var clientCaPem := EncodeBundle(est, caCerts);
      if clientCaPem.None? { return; }
      ghost var fate;
      ok, fate := volume.WriteAtomic(paths.clientCa, CaPem(clientCaPem.value));
      ReplaySeriesSnoc(d0, EnrollPlan(paths, cert, caCerts), before, fate);
      fates := before + [fate];
      BundleIsThere(paths, Current(volume.dir), clientCaPem.value, caCerts, ok);
    }

    /** `bootstrap_enroll` with a token: no key file is written. What is written is what the server
        sent: its certificate, for the token's key, and all of its CA certificates. */
    method BootstrapEnroll() returns (ok: bool, ghost act: Act)
      requires paths.Valid() && Wf(volume.dir) && module11.token.key.Some?
      modifies volume, est, module11`calls, module11`failures
      ensures Wf(volume.dir)
      ensures act.Enroll? && Possible(paths, old(State(Bootstrapping)), act)
      ensures State(if ok then Serving else Bootstrapping) == After(paths, old(State(Bootstrapping)), act)
      ensures act.fates != [] ==>
                && old(est.calls) + TokenEnrollDialog(act.caCerts, module11.token.key.value, act.cert) <= est.calls
                && module11.calls == old(module11.calls) + [Signed(module11.token.key.value, true)]
      ensures ok ==> est.calls == old(est.calls) + TokenEnrollDialog(act.caCerts, module11.token.key.value, act.cert)
                                  + [Encoded(true)] + Encodings(|act.caCerts|)
      ensures ok ==> HasBundle(paths, Current(volume.dir), act.caCerts)
      ensures Failures() >= old(Failures()) && (!ok ==> Failures() > old(Failures()))
    {
      var key := module11.token.key.value;
      ok, act := false, Enroll(Cert(key, 0, 0), [""], []);
      assert SeriesEvents(EnrollPlan(paths, act.cert, act.caCerts), []) == [] && Replay(old(volume.dir), []) == old(volume.dir);
      var issued := RequestCert(key);
      if issued.None? { return; }
      var caCerts, cert := issued.value.0, issued.value.1;
      ghost var fates;
      ok, fates := WriteCertOnly(cert);
      SeriesOfPrefix(RenewPlan(paths, cert), EnrollPlan(paths, cert, caCerts), fates);
      act := Enroll(cert, caCerts, fates);
      if !ok { return; }
      ok, fates := WriteBundle(cert, caCerts, old(volume.dir), fates);
      act := Enroll(cert, caCerts, fates);
    }

    method RequestRenewal(cert: Content, key: nat) returns (issued: Option<Cert>)
      modifies est, module11`calls, module11`failures
      ensures issued.Some? ==>
                && issued.value.publicKey == key
                && est.calls == old(est.calls) + TokenRenewDialog(cert, key, issued.value)
                && module11.calls == old(module11.calls) + [Signed(key, true)]
      ensures est.failures >= old(est.failures) && module11.failures >= old(module11.failures)
      ensures issued.None? ==> est.failures + module11.failures > old(est.failures + module11.failures)
    {
      issued := None;
      var ok := est.Build(TokenCert(cert));
      if !ok { return; }
      ok := module11.SignCsr(key);
      if !ok { return; }
      var response := est.Enroll(SimpleReenroll, key);
      issued := IssuedCert(response);
    }

    /** `reenroll` with a token: the same key, only the certificate is rewritten. It presents the
        certificate it read. */
    method Reenroll() returns (ok: bool, ghost act: Act, ghost presented: Auth)
      requires paths.Valid() && Wf(volume.dir) && module11.token.key.Some?
      modifies volume, est, module11`calls, module11`failures
      ensures Wf(volume.dir)
      ensures act.Renew? && Possible(paths, old(State(Serving)), act) && State(Serving) == After(paths, old(State(Serving)), act)
      ensures ok == (Done(act.fates) == 1)
      ensures act.fates != [] ==>
                && presented.TokenCert? && Reads(Current(old(volume.dir)), paths.certFile, presented.cert)
                && est.calls == old(est.calls) + TokenRenewDialog(presented.cert, module11.token.key.value, act.cert) + [Encoded(true)]
                && module11.calls == old(module11.calls) + [Signed(module11.token.key.value, true)]
      ensures Failures() >= old(Failures()) && (!ok ==> Failures() > old(Failures()))
    {
      var key := module11.token.key.value;
      ok, act, presented := false, Renew(Cert(key, 0, 0), []), Bearer;
      assert SeriesEvents(RenewPlan(paths, act.cert), []) == [] && Replay(old(volume.dir), []) == old(volume.dir);
      var chain := volume.ReadFile(paths.certFile);
      if chain.None? { return; }
      presented := TokenCert(chain.value);
      var issued := RequestRenewal(chain.value, key);
      if issued.None? { return; }
      ghost var fates;
      ok, fates := WriteCertOnly(issued.value);
      act := Renew(issued.value, fates);
    }

    method EnrollOnce(ghost n0: Node, ghost before: seq<Act>) returns (up: bool, ghost acts: seq<Act>)
      requires paths.Valid() && Wf(volume.dir) && module11.token.key.Some?
      requires Life(paths, n0, before, State(Bootstrapping))
      modifies volume, est, module11`calls, module11`failures
      ensures Wf(volume.dir)
      ensures Life(paths, n0, acts, State(if up then Serving else Bootstrapping))
      ensures before <= acts && |acts| == |before| + 1 && acts[|acts| - 1].Enroll? && acts[..|acts| - 1] == before
      ensures Failures() >= old(Failures()) + if up then 0 else 1
    {
      ghost var at := State(Bootstrapping);
      ghost var act;
      up, act := BootstrapEnroll();
      LifeStep(paths, n0, before, at, act);
      acts := before + [act];
    }

    method EnrollUntilUp(ghost n0: Node, ghost before: seq<Act>) returns (up: bool, ghost acts: seq<Act>)
      requires paths.Valid() && Wf(volume.dir) && module11.token.key.Some?
      requires Life(paths, n0, before, State(Bootstrapping))
      modifies volume, est, module11`calls, module11`failures, clock`slept
      ensures Life(paths, n0, acts, State(if up then Serving else Bootstrapping))
      ensures before <= acts && |before| < |acts| <= |before| + BOOTSTRAP_ATTEMPTS
      ensures Enrollments(acts, |before|)
      ensures !up ==> |acts| == |before| + BOOTSTRAP_ATTEMPTS
      ensures Failures() >= old(Failures()) + (|acts| - |before|) - (if up then 1 else 0)
      ensures clock.slept == old(clock.slept) + RETRY_SECS * (|acts| - |before| - 1)
    {
      var attempt := 0;
      up, acts := false, before;
      while !up && attempt < BOOTSTRAP_ATTEMPTS
        invariant attempt <= BOOTSTRAP_ATTEMPTS && Wf(volume.dir) && module11.token.key.Some? && (up ==> attempt > 0)
        invariant before <= acts && |acts| == |before| + attempt
        invariant Enrollments(acts, |before|)
        invariant Failures() >= old(Failures()) + attempt - (if up then 1 else 0)
        invariant Life(paths, n0, acts, Node(volume.dir, module11.token, if up then Serving else Bootstrapping))
        invariant clock.slept == old(clock.slept) + RETRY_SECS * (if up || (attempt == BOOTSTRAP_ATTEMPTS && attempt > 0) then attempt - 1 else attempt)
      {
        attempt := attempt + 1;
        up, acts := EnrollOnce(n0, acts);
        if !up && attempt < BOOTSTRAP_ATTEMPTS { clock.SleepSeconds(RETRY_SECS); }
      }
    }

    /** When every attempt failed the process ends. */
    method EnrollWithRetries(ghost n0: Node, ghost before: seq<Act>) returns (up: bool, ghost acts: seq<Act>)
      requires paths.Valid() && Wf(volume.dir) && module11.token.key.Some?
      requires Life(paths, n0, before, State(Bootstrapping))
      modifies volume, est, module11`calls, module11`failures, clock`slept
      ensures Life(paths, n0, acts, State(if up then Serving else Down)) && before <= acts
      ensures Enrollments(acts, |before|)
      ensures up ==> |before| < |acts| <= |before| + BOOTSTRAP_ATTEMPTS
      ensures !up ==> |acts| == |before| + BOOTSTRAP_ATTEMPTS + 1
      ensures Failures() >= old(Failures()) + (|acts| - |before|) - 1
      ensures clock.slept == old(clock.slept) + RETRY_SECS * (|acts| - |before| - (if up then 1 else 2))
    {
      up, acts := EnrollUntilUp(n0, before);
      if !up {
        LifeStep(paths, n0, acts, State(Bootstrapping), Die);
        assert (acts + [Die])[..|acts|] == acts;
        acts := acts + [Die];
      }
    }

    method RenewOnce(ghost n0: Node, ghost before: seq<Act>) returns (done: bool, ghost acts: seq<Act>)
      requires paths.Valid() && Wf(volume.dir) && module11.token.key.Some?
      requires Life(paths, n0, before, State(Serving))
      modifies volume, est, module11`calls, module11`failures
      ensures Wf(volume.dir) && Life(paths, n0, acts, State(Serving))
      ensures before <= acts && |acts| == |before| + 1 && acts[|acts| - 1].Renew? && acts[..|acts| - 1] == before
      ensures done == RenewedLast(acts)
      ensures Failures() >= old(Failures()) + if done then 0 else 1
    {
      ghost var at := State(Serving);
      ghost var act, presented;
      done, act, presented := Reenroll();
      LifeStep(paths, n0, before, at, act);
      acts := before + [act];
    }

    method RenewWithRetries(ghost n0: Node, ghost before: seq<Act>) returns (ghost acts: seq<Act>)
      requires paths.Valid() && Wf(volume.dir) && module11.token.key.Some?
      requires Life(paths, n0, before, State(Serving))
      modifies volume, est, module11`calls, module11`failures, clock`slept
      ensures Life(paths, n0, acts, State(Serving)) && before <= acts
      ensures Renewals(acts, |before|) && |before| < |acts| <= |before| + REENROLL_ATTEMPTS
      ensures |acts| == |before| + REENROLL_ATTEMPTS || RenewedLast(acts)
      ensures Failures() >= old(Failures()) + (|acts| - |before|) - (if RenewedLast(acts) then 1 else 0)
      ensures clock.slept == old(clock.slept) + RETRY_SECS * (|acts| - |before| - 1)
    {
      var attempt, done := 0, false;
      acts := before;
      while !done && attempt < REENROLL_ATTEMPTS
        invariant attempt <= REENROLL_ATTEMPTS && Wf(volume.dir) && module11.token.key.Some?
        invariant before <= acts && |acts| == |before| + attempt && Renewals(acts, |before|)
        invariant (done ==> attempt > 0) && (attempt > 0 ==> done == RenewedLast(acts))
        invariant Failures() >= old(Failures()) + attempt - (if done then 1 else 0)
        invariant Life(paths, n0, acts, State(Serving))
        invariant clock.slept == old(clock.slept) + RETRY_SECS * (if done || (attempt == REENROLL_ATTEMPTS && attempt > 0) then attempt - 1 else attempt)
      {
        attempt := attempt + 1;
        done, acts := RenewOnce(n0, acts);
        if !done && attempt < REENROLL_ATTEMPTS { clock.SleepSeconds(RETRY_SECS); }
      }
    }

    /** The startup of `run` with a token. It opens the token, which leads to `mid`; enrolls, with
        retries, when the PKI is incomplete; and otherwise renews if due, at best effort. All
        of it is one more stretch of the node's life, which is up at the end unless the token
        was not opened or every enrollment attempt failed. It tries as often as it may, and
        once only if nothing is refused. */
    method StartUp() returns (up: bool, ghost acts: seq<Act>, ghost opening: seq<Act>, ghost mid: Node, ghost now: Option<nat>)
      requires paths.Valid() && Wf(volume.dir)
      modifies volume, module11, est, clock, rng
      ensures Life(paths, old(State(Down)), acts, State(if up then Serving else Down))
      ensures Life(paths, old(State(Down)), opening, mid) && opening <= acts
      ensures Failures() >= old(Failures())
      ensures mid.phase.Down? ==> !up && acts == opening && (Failures() > old(Failures()) || PinUnreadable(Current(old(volume.dir))))
      ensures !mid.phase.Down? ==> mid.phase == if PkiPresent(paths, true, Current(mid.dir)) then Serving else Bootstrapping
      ensures mid.phase.Serving? ==>
                && up && Renewals(acts, |opening|) && |acts| <= |opening| + REENROLL_ATTEMPTS
                && (acts == opening ==> !MustRenew(Current(mid.dir), paths.certFile, now, Failures() > old(Failures())))
                && (acts != opening ==> now.Some? && Due(Current(mid.dir), paths.certFile, now.value))
                && (acts != opening ==> |acts| == |opening| + REENROLL_ATTEMPTS || RenewedLast(acts))
                && (acts != opening ==> Failures() >= old(Failures()) + (|acts| - |opening|) - (if RenewedLast(acts) then 1 else 0))
      ensures mid.phase.Bootstrapping? ==>
                && Enrollments(acts, |opening|) && (up ==> |opening| < |acts| <= |opening| + BOOTSTRAP_ATTEMPTS)
                && (!up ==> |acts| == |opening| + BOOTSTRAP_ATTEMPTS + 1)
                && Failures() >= old(Failures()) + (|acts| - |opening|) - 1
      ensures clock.slept == old(clock.slept)
                + RETRY_SECS * (if |acts| == |opening| then 0 else |acts| - |opening| - (if up then 1 else 2))
    {
      ghost var n0 := State(Down);
      now := None;
      up, opening := Open();
      acts := opening;
      mid := State(if !up then Down else if PkiPresent(paths, true, Current(volume.dir)) then Serving else Bootstrapping);
      if !up { return; }
      LifeKeepsWf(paths, n0, acts, mid);
      var present := paths.certFile in volume.dir.visible && paths.clientCa in volume.dir.visible;
      if !present {
        up, acts := EnrollWithRetries(n0, acts);
      } else {
        var due;
        due, now := RenewalIsDue(volume, paths.certFile, clock);
        if due { acts := RenewWithRetries(n0, acts); }
      }
    }
  }

  /** Calls that set up a token with this PIN, on the slot by the rule. */
  ghost predicate IsSetUp(before: seq<TokenCall>, after: seq<TokenCall>, pin: string) {
    exists found, slot: nat :: SlotRule(found, slot) && after == before + found + SetUpCalls(slot, pin)
  }

  lemma SetUpBy(before: seq<TokenCall>, ready: seq<TokenCall>, slot: nat, pin: string)
    requires before <= ready && SlotRule(ready[|before|..], slot)
    ensures IsSetUp(before, ready + SetUpCalls(slot, pin), pin)
  {
    assert ready == before + ready[|before|..];
  }

  ghost predicate DrawnFrom(draws: seq<nat>, from: nat, pin: string) {
    from <= |draws| && InCharset(draws[from..]) && pin == Drawn(draws[from..])
  }

  ghost predicate Renewals(acts: seq<Act>, from: nat) {
    |acts| <= from || (acts[|acts| - 1].Renew? && Renewals(acts[..|acts| - 1], from))
  }

  ghost predicate Enrollments(acts: seq<Act>, from: nat) {
    |acts| <= from || ((acts[|acts| - 1].Enroll? || acts[|acts| - 1].Die?) && Enrollments(acts[..|acts| - 1], from))
  }

  ghost predicate RenewedLast(acts: seq<Act>) {
    acts != [] && acts[|acts| - 1].Renew? && Done(acts[|acts| - 1].fates) == 1
  }
}
