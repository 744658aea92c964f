/** The certificate the running server presents, and the loop that renews it. */
module ServedCert {
  import opened Storage
  import opened Host
  import opened AtomicWrite
  import opened Renewal
  import opened Pki
  import opened Enrollment
  import opened Volumes
  import opened TokenIdentity
  import opened Noded
  import opened TpmNoded

  datatype KeySource = KeyFile | TokenKey(key: nat)

  /** A `CertifiedKey`: certificate and signing key, which nothing compares when it is built. */
  datatype Pair = Pair(cert: Cert, key: nat) {
    predicate Matches() { cert.publicKey == key }
  }

  datatype Server = Server(dir: PkiDir, served: Pair)

  /** A tick knows the time, if it read the clock, and whether anything failed in it. */
  datatype Tick =
    | Idle(now: Option<nat>, trouble: bool)
    | Renewal(now: Option<nat>, cert: Cert, key: nat, fates: seq<Fate>, reloaded: bool, trouble: bool)

  function Plan(paths: Paths, source: KeySource, cert: Cert, key: nat): seq<Assign<Content>> {
    if source.KeyFile? then RenewalPlan(paths, cert, key) else RenewPlan(paths, cert)
  }

  /** The pair that `build_certified_key` would read now. */
  ghost predicate OnDisk(paths: Paths, source: KeySource, f: PkiFiles, pair: Pair) {
    && Reads(f, paths.certFile, CertPem(pair.cert))
    && (if source.KeyFile? then Reads(f, paths.keyFile, KeyPem(pair.key)) else pair.key == source.key)
  }

  /** Both files of the pair are whole. */
  ghost predicate WholePair(paths: Paths, source: KeySource, f: PkiFiles) {
    && IsCert(f, paths.certFile)
    && (source.KeyFile? ==> paths.keyFile in f && f[paths.keyFile].data.Whole? && f[paths.keyFile].data.content.KeyPem?)
  }

  /** A renewal is tried when the certificate on disk is due, and a tick does without one only
      if it is not, or is no certificate, or something failed. Only a failure keeps a renewal
      from writing everything, and then from being reloaded. A reload takes what is on disk. */
  ghost predicate TickStep(paths: Paths, source: KeySource, s: Server, tick: Tick, s': Server) {
    match tick
    case Idle(now, trouble) =>
      s' == s && !MustRenew(Current(s.dir), paths.certFile, now, trouble)
    case Renewal(now, cert, key, fates, reloaded, trouble) =>
      var plan := Plan(paths, source, cert, key);
      && now.Some? && Due(Current(s.dir), paths.certFile, now.value)
      && cert.publicKey == key && (source.TokenKey? ==> key == source.key)
      && Series(plan, fates)
      && s'.dir == Replay(s.dir, SeriesEvents(plan, fates))
      && (reloaded ==> Done(fates) == |plan|)
      && (!reloaded ==> trouble)
      && if reloaded then OnDisk(paths, source, Current(s'.dir), s'.served) else s'.served == s.served
  }

  ghost predicate Ticking(paths: Paths, source: KeySource, s: Server, ticks: seq<Tick>, s': Server)
    decreases |ticks|
  {
    if ticks == [] then s' == s
    else
      var before, last := ticks[..|ticks| - 1], ticks[|ticks| - 1];
      exists m :: Ticking(paths, source, s, before, m) && TickStep(paths, source, m, last, s')
  }

  lemma TickingStep(paths: Paths, source: KeySource, s: Server, ticks: seq<Tick>, m: Server, tick: Tick, s': Server)
    requires Ticking(paths, source, s, ticks, m) && TickStep(paths, source, m, tick, s')
    ensures Ticking(paths, source, s, ticks + [tick], s')
  {
    var all := ticks + [tick];
    assert all[..|all| - 1] == ticks && all[|all| - 1] == tick;
    assert Ticking(paths, source, s, all[..|all| - 1], m);
  }

  /** What a renewal leaves in the two files. */
  lemma RenewalOnDisk(paths: Paths, source: KeySource, d: PkiDir, cert: Cert, key: nat, fates: seq<Fate>)
    requires paths.Valid() && Wf(d) && Series(Plan(paths, source, cert, key), fates)
    ensures var plan := Plan(paths, source, cert, key);
            var d' := Replay(d, SeriesEvents(plan, fates));
            && Wf(d')
            && (Done(fates) == 0 ==> Current(d') == Current(d))
            && (Done(fates) > 0 ==> Has(Current(d'), paths.certFile, CertPem(cert)))
            && (Done(fates) == |plan| && source.KeyFile? ==> Has(Current(d'), paths.keyFile, KeyPem(key)))
  {
    var plan := Plan(paths, source, cert, key);
    OrderedPublication(d, plan, fates);
    AssignedStep(Current(d), plan, 0);
    assert plan[..0] == [] && plan[..|plan|] == plan;
    if source.KeyFile? {
      RenewalParts(paths, Current(d), cert, key);
      assert Done(fates) == 0 || Done(fates) == 1 || Done(fates) == 2;
    }
  }

  lemma ReloadTakesNewPair(paths: Paths, source: KeySource, s: Server, tick: Tick, s': Server)
    requires paths.Valid() && Wf(s.dir) && TickStep(paths, source, s, tick, s')
    ensures Wf(s'.dir)
    ensures tick.Renewal? && tick.reloaded ==>
              && s'.served == Pair(tick.cert, tick.key)
              && WholePair(paths, source, Current(s'.dir)) && OnDisk(paths, source, Current(s'.dir), s'.served)
  {
    if tick.Renewal? {
      RenewalOnDisk(paths, source, s.dir, tick.cert, tick.key, tick.fates);
    }
  }

  /** Only a failure comes between a due certificate and its successor being served. */
  lemma DueTickServes(paths: Paths, source: KeySource, s: Server, tick: Tick, s': Server)
    requires paths.Valid() && Wf(s.dir) && TickStep(paths, source, s, tick, s')
    requires MustRenew(Current(s.dir), paths.certFile, tick.now, tick.trouble)
    ensures tick.Renewal? && s'.served == Pair(tick.cert, tick.key)
    ensures WholePair(paths, source, Current(s'.dir)) && OnDisk(paths, source, Current(s'.dir), s'.served)
  {
    ReloadTakesNewPair(paths, source, s, tick, s');
  }

  /** However many ticks, and whatever the EST server, the writes and the reloads do: the
      served certificate and key match, and are the first pair or the pair of a renewal that
      wrote everything and was reloaded. Nothing is asked of the pair on disk at the start. */
  lemma {:induction false} ServedPairMatches(paths: Paths, source: KeySource, s: Server, ticks: seq<Tick>, s': Server)
    requires paths.Valid() && Wf(s.dir) && s.served.Matches() && Ticking(paths, source, s, ticks, s')
    ensures Wf(s'.dir) && s'.served.Matches()
    ensures s'.served == s.served || exists i | 0 <= i < |ticks| ::
              ticks[i].Renewal? && ticks[i].reloaded && s'.served == Pair(ticks[i].cert, ticks[i].key)
    decreases |ticks|
  {
    if ticks != [] {
      var k := |ticks| - 1;
      var m :| Ticking(paths, source, s, ticks[..k], m) && TickStep(paths, source, m, ticks[k], s');
      ServedPairMatches(paths, source, s, ticks[..k], m);
      ReloadTakesNewPair(paths, source, m, ticks[k], s');
      if ticks[k].Renewal? && ticks[k].reloaded {
        assert s'.served == Pair(ticks[k].cert, ticks[k].key);
      } else if s'.served != s.served {
        var i :| 0 <= i < k && ticks[..k][i].Renewal? && ticks[..k][i].reloaded && s'.served == Pair(ticks[..k][i].cert, ticks[..k][i].key);
        assert ticks[i] == ticks[..k][i];
      }
    }
  }

  /** The served pair and the pair on disk part ways when a renewal stops between its two
      writes: one tick leads there from any node that serves what is on disk. */
  lemma DiskCanDisagree(paths: Paths, s: Server, cert: Cert, key: nat) returns (tick: Tick, s': Server)
    requires paths.Valid() && Wf(s.dir) && Agrees(paths, Current(s.dir))
    requires OnDisk(paths, KeyFile, Current(s.dir), s.served)
    requires cert.publicKey == key != s.served.key
    ensures tick.Renewal? && Ticking(paths, KeyFile, s, [tick], s')
    ensures s'.served.Matches() && !Agrees(paths, Current(s'.dir))
  {
    var fates := [Renamed(None), Stopped(0, true)];
    tick := Renewal(Some(s.served.cert.notAfter), cert, key, fates, false, true);
    s' := Server(Replay(s.dir, SeriesEvents(RenewalPlan(paths, cert, key), fates)), s.served);
    RenewalInView(paths, s.dir, cert, key, fates);
    TickingStep(paths, KeyFile, s, [], s, tick, s');
    assert [] + [tick] == [tick];
  }

  // ---- how long the served certificate lasts ----

  /** The renewal put its certificate on disk, and the server did not take it up. */
  predicate Halfway(tick: Tick) {
    tick.Renewal? && Done(tick.fates) > 0 && !tick.reloaded
  }

  /** "Will retry next tick", after a renewal that failed: the next tick without a failure does
      so if and only if the failed one wrote no certificate, or the one it wrote is itself due. */
  lemma RetriesExactly(paths: Paths, source: KeySource, s: Server, tick: Tick, m: Server, next: Tick, s': Server)
    requires paths.Valid() && Wf(s.dir) && IsCert(Current(s.dir), paths.certFile)
    requires TickStep(paths, source, s, tick, m) && tick.Renewal? && !tick.reloaded
    requires TickStep(paths, source, m, next, s') && !next.trouble && next.now.Some?
    requires next.now.value >= tick.now.value
    ensures next.Renewal? <==> !Halfway(tick) || NeedsRenewal(tick.cert.notBefore, tick.cert.notAfter, next.now.value)
  {
    RenewalOnDisk(paths, source, s.dir, tick.cert, tick.key, tick.fates);
    var cert := Current(s.dir)[paths.certFile].data.content.cert;
    DueIsMonotone(cert.notBefore, cert.notAfter, tick.now.value, next.now.value);
  }

  /** At none of these ticks is the certificate due, and none fails. */
  ghost predicate CalmFor(cert: Cert, ticks: seq<Tick>) {
    forall tick | tick in ticks :: !tick.trouble && tick.now.Some? && !NeedsRenewal(cert.notBefore, cert.notAfter, tick.now.value)
  }

  /** So the old pair is served until the certificate that nobody serves is due, although
      nothing fails any more. */
  lemma {:induction false} HalfwayStays(paths: Paths, source: KeySource, s: Server, tick: Tick, m: Server, ticks: seq<Tick>, s': Server)
    requires paths.Valid() && Wf(s.dir) && TickStep(paths, source, s, tick, m) && Halfway(tick)
    requires Ticking(paths, source, m, ticks, s') && CalmFor(tick.cert, ticks)
    ensures s' == m && s'.served == s.served
    decreases |ticks|
  {
    RenewalOnDisk(paths, source, s.dir, tick.cert, tick.key, tick.fates);
    if ticks != [] {
      var k := |ticks| - 1;
      var before :| Ticking(paths, source, m, ticks[..k], before) && TickStep(paths, source, before, ticks[k], s');
      HalfwayStays(paths, source, s, tick, m, ticks[..k], before);
      assert ticks[k] in ticks;
    }
  }

  /** After a tick at `now`, and another without any failure, a certificate is served that has
      expired by then. */
  ghost predicate ServedExpired(paths: Paths, s: Server, now: nat, ticks: seq<Tick>, s': Server) {
    && |ticks| == 2 && Ticking(paths, KeyFile, s, ticks, s')
    && ticks[0].now == Some(now) && !ticks[1].trouble && ticks[1].now.Some?
    && s'.served == s.served && ticks[1].now.value >= s'.served.cert.notAfter
  }

  /** That goes on past its expiry: from any server whose certificate on disk is due, one
      failed write and then a calm tick lead there. */
  lemma ServesExpired(paths: Paths, s: Server, now: nat, cert: Cert, key: nat) returns (ticks: seq<Tick>, s': Server)
    requires paths.Valid() && Wf(s.dir) && Due(Current(s.dir), paths.certFile, now)
    requires cert.publicKey == key
    requires !NeedsRenewal(cert.notBefore, cert.notAfter, s.served.cert.notAfter + now)
    ensures ServedExpired(paths, s, now, ticks, s')
  {
    var fates := [Renamed(None), Stopped(0, true)];
    var first := Renewal(Some(now), cert, key, fates, false, true);
    var second := Idle(Some(s.served.cert.notAfter + now), false);
    s' := Server(Replay(s.dir, SeriesEvents(RenewalPlan(paths, cert, key), fates)), s.served);
    assert TickStep(paths, KeyFile, s, first, s');
    RenewalOnDisk(paths, KeyFile, s.dir, cert, key, fates);
    assert TickStep(paths, KeyFile, s', second, s');
    TickingStep(paths, KeyFile, s, [], s, first, s');
    assert [] + [first] == [first];
    TickingStep(paths, KeyFile, s, [first], s', second, s');
    ticks := [first] + [second];
  }

  /** The number of ticks at the end, in a row, in which something failed. */
  function Troubled(ticks: seq<Tick>): nat {
    if ticks == [] || !ticks[|ticks| - 1].trouble then 0 else 1 + Troubled(ticks[..|ticks| - 1])
  }

  /** The certificate outlasts `reach`, and is due that long before it expires. */
  predicate Outlasts(cert: Cert, now: nat, reach: nat) {
    cert.notAfter > now + reach && Window(cert.notBefore, cert.notAfter) > reach
  }

  /** The server serves what is on disk. */
  ghost predicate InStep(paths: Paths, source: KeySource, s: Server) {
    WholePair(paths, source, Current(s.dir)) && OnDisk(paths, source, Current(s.dir), s.served)
  }

  /** Ticks at these times, by a clock that was right whenever it was read. */
  predicate Timed(ticks: seq<Tick>, times: seq<nat>, start: nat, gap: nat) {
    && |times| == |ticks|
    && (forall i | 0 <= i < |ticks| :: ticks[i].now.Some? ==> ticks[i].now.value == times[i])
    && (forall i | 0 <= i < |times| :: times[i] <= TimeBefore(times, i, start) + gap)
  }

  function TimeBefore(times: seq<nat>, i: nat, start: nat): nat
    requires i <= |times|
  {
    if i == 0 then start else times[i - 1]
  }

  /** No renewal stays halfway, new certificates outlast the reach when they come, and no more
      than `k` ticks in a row fail. */
  ghost predicate Fair(ticks: seq<Tick>, times: seq<nat>, k: nat, reach: nat) {
    && |times| == |ticks|
    && (forall i | 0 <= i < |ticks| :: !Halfway(ticks[i]))
    && (forall i | 0 <= i < |ticks| :: ticks[i].Renewal? && ticks[i].reloaded ==> Outlasts(ticks[i].cert, times[i], reach))
    && (forall i | 0 <= i <= |ticks| :: Troubled(ticks[..i]) <= k)
  }

  ghost predicate TickFair(tick: Tick, t: nat, before: nat, gap: nat, reach: nat) {
    && !Halfway(tick) && (tick.now.Some? ==> tick.now.value == t) && t <= before + gap
    && (tick.Renewal? && tick.reloaded ==> Outlasts(tick.cert, t, reach))
  }

  lemma FairBefore(ticks: seq<Tick>, times: seq<nat>, start: nat, gap: nat, k: nat, reach: nat)
    requires ticks != [] && Timed(ticks, times, start, gap) && Fair(ticks, times, k, reach)
    ensures var n := |ticks| - 1; Timed(ticks[..n], times[..n], start, gap) && Fair(ticks[..n], times[..n], k, reach)
    ensures var n := |ticks| - 1; TickFair(ticks[n], times[n], TimeBefore(times[..n], n, start), gap, reach)
    ensures Troubled(ticks) <= k
  {
    var n := |ticks| - 1;
    assert ticks[..|ticks|] == ticks;
    var b := ticks[..n];
    assert times[..n] == times[..|b|];
    forall i | 0 <= i <= n ensures Troubled(b[..i]) <= k {
      assert b[..i] == ticks[..i];
    }
    forall i | 0 <= i < n ensures times[..n][i] <= TimeBefore(times[..n], i, start) + gap {
      assert TimeBefore(times[..n], i, start) == TimeBefore(times, i, start);
    }
  }

  /** With `j` of at most `k` failing ticks used up, it lasts until the next of those left. */
  predicate Lasts(cert: Cert, now: nat, gap: nat, k: nat, j: nat)
    requires j <= k
  {
    Window(cert.notBefore, cert.notAfter) > Times(k + 1, gap) && cert.notAfter > now + Times(k + 1 - j, gap)
  }

  /** With ticks at most `gap` apart and at most `k` failing in a row, no renewal left halfway,
      and certificates whose last third is longer than k + 1 gaps, the served certificate is
      unexpired at every tick, and until the next. */
  lemma ServedStaysValid(paths: Paths, source: KeySource, s: Server, ticks: seq<Tick>, s': Server,
                         times: seq<nat>, start: nat, gap: nat, k: nat)
    requires paths.Valid() && Wf(s.dir) && InStep(paths, source, s) && Ticking(paths, source, s, ticks, s')
    requires Timed(ticks, times, start, gap) && Fair(ticks, times, k, Times(k + 1, gap))
    requires Outlasts(s.served.cert, start, Times(k + 1, gap))
    ensures InStep(paths, source, s') && s'.served.cert.notAfter > TimeBefore(times, |ticks|, start) + gap
  {
    ServedLasts(paths, source, s, ticks, s', times, start, gap, k);
    SlackLeft(k, Troubled(ticks), gap);
  }

  lemma {:induction false} ServedLasts(paths: Paths, source: KeySource, s: Server, ticks: seq<Tick>, s': Server,
                                       times: seq<nat>, start: nat, gap: nat, k: nat)
    requires paths.Valid() && Wf(s.dir) && InStep(paths, source, s) && Ticking(paths, source, s, ticks, s')
    requires Timed(ticks, times, start, gap) && Fair(ticks, times, k, Times(k + 1, gap))
    requires Lasts(s.served.cert, start, gap, k, 0)
    ensures Wf(s'.dir) && InStep(paths, source, s') && Troubled(ticks) <= k
    ensures Lasts(s'.served.cert, TimeBefore(times, |ticks|, start), gap, k, Troubled(ticks))
    decreases |ticks|
  {
    if ticks != [] {
      var n := |ticks| - 1;
      var m :| Ticking(paths, source, s, ticks[..n], m) && TickStep(paths, source, m, ticks[n], s');
      FairBefore(ticks, times, start, gap, k, Times(k + 1, gap));
      ServedLasts(paths, source, s, ticks[..n], m, times[..n], start, gap, k);
      LastsAfterTick(paths, source, m, ticks[n], s', TimeBefore(times[..n], n, start), times[n], gap, k, Troubled(ticks[..n]));
    }
  }

  lemma SlackLeft(k: nat, j: nat, gap: nat)
    requires j <= k
    ensures Times(k + 1 - j, gap) == Times(k - j, gap) + gap
    ensures Times(k - j, gap) <= Times(k + 1, gap)
  {
    TimesGrow(k - j, k + 1, gap);
  }

  lemma {:induction false} TimesGrow(m: nat, n: nat, gap: nat)
    requires m <= n
    ensures Times(m, gap) <= Times(n, gap)
  {
    if m < n { TimesGrow(m, n - 1, gap); }
  }

  lemma LastsAfterTick(paths: Paths, source: KeySource, s: Server, tick: Tick, s': Server,
                       before: nat, t: nat, gap: nat, k: nat, j: nat)
    requires paths.Valid() && Wf(s.dir) && InStep(paths, source, s) && TickStep(paths, source, s, tick, s')
    requires TickFair(tick, t, before, gap, Times(k + 1, gap)) && j <= k
    requires Lasts(s.served.cert, before, gap, k, j)
    ensures Wf(s'.dir) && InStep(paths, source, s')
    ensures !tick.trouble ==> Lasts(s'.served.cert, t, gap, k, 0)
    ensures tick.trouble && j < k ==> Lasts(s'.served.cert, t, gap, k, j + 1)
  {
    ReloadTakesNewPair(paths, source, s, tick, s');
    SlackLeft(k, j, gap);
    if tick.Renewal? {
      RenewalOnDisk(paths, source, s.dir, tick.cert, tick.key, tick.fates);
    } else if !tick.trouble {
      DueFrom(s.served.cert.notBefore, s.served.cert.notAfter, t);
    }
  }

  // ---- the code ----

  /** The number of ticks in which something failed. */
  function Troubles(ticks: seq<Tick>): nat {
    if ticks == [] then 0 else Troubles(ticks[..|ticks| - 1]) + if ticks[|ticks| - 1].trouble then 1 else 0
  }

  /** The times that the ticks read. */
  function Readings(ticks: seq<Tick>): seq<nat> {
    if ticks == [] then [] else Readings(ticks[..|ticks| - 1]) + Reading(ticks[|ticks| - 1].now)
  }

  lemma OneMoreTick(ticks: seq<Tick>, tick: Tick)
    ensures Troubles(ticks + [tick]) == Troubles(ticks) + if tick.trouble then 1 else 0
    ensures Readings(ticks + [tick]) == Readings(ticks) + Reading(tick.now)
  {
    var all := ticks + [tick];
    assert all[..|all| - 1] == ticks && all[|all| - 1] == tick;
  }

  class ReloadableCert {
    const paths: Paths
    const volume: Volume<Content>
    const keySource: KeySource
    const crypto: Library            // the crypto provider, and the lock around the pair
    var current: Pair

    constructor (paths: Paths, volume: Volume<Content>, keySource: KeySource, crypto: Library, loaded: Pair)
      ensures this.paths == paths && this.volume == volume && this.keySource == keySource
      ensures this.crypto == crypto && current == loaded
    {
      this.paths, this.volume, this.keySource, this.crypto, current := paths, volume, keySource, crypto, loaded;
    }

    ghost function Failures(): nat
      reads volume, crypto
    {
      volume.failures + crypto.failures
    }

    /** `build_certified_key`: what is on disk, unless something fails or a file is not what it
        should be. */
    method BuildCertifiedKey() returns (pair: Option<Pair>)
      modifies volume`calls, volume`failures, crypto
      ensures pair.Some? ==> OnDisk(paths, keySource, Current(volume.dir), pair.value)
      ensures volume.failures >= old(volume.failures) && crypto.failures >= old(crypto.failures)
      ensures pair.None? ==> Failures() > old(Failures()) || !WholePair(paths, keySource, Current(volume.dir))
    {
      pair := None;
      var cert := volume.ReadFile(paths.certFile);
      if cert.None? || !cert.value.CertPem? { return; }
      match keySource
      case KeyFile =>
        var key := volume.ReadFile(paths.keyFile);
        if key.None? || !key.value.KeyPem? { return; }
        var installed := crypto.Call();
        if !installed { return; }
        var loaded := crypto.Call();
        if loaded { pair := Some(Pair(cert.value.cert, key.value.key)); }
      case TokenKey(key) =>
        pair := Some(Pair(cert.value.cert, key));
    }

    method Reload() returns (ok: bool)
      modifies this, volume`calls, volume`failures, crypto
      ensures ok ==> OnDisk(paths, keySource, Current(volume.dir), current)
      ensures !ok ==> current == old(current)
      ensures volume.failures >= old(volume.failures) && crypto.failures >= old(crypto.failures)
      ensures !ok ==> Failures() > old(Failures()) || !WholePair(paths, keySource, Current(volume.dir))
    {
      var pair := BuildCertifiedKey();
      ok := pair.Some?;
      if ok { ok := crypto.Call(); }
      if ok { current := pair.value; }
    }
  }

  /** One round of `renewal_loop` with a key file. */
  method RenewalTick(node: Noded, resolver: ReloadableCert) returns (ghost tick: Tick)
    requires node.paths.Valid() && Wf(node.volume.dir)
    requires resolver.paths == node.paths && resolver.volume == node.volume && resolver.keySource.KeyFile?
    modifies node.volume, node.est, node.clock`readings, node.clock`failures, resolver, resolver.crypto
    ensures Wf(node.volume.dir)
    ensures TickStep(node.paths, KeyFile, Server(old(node.volume.dir), old(resolver.current)), tick, Server(node.volume.dir, resolver.current))
    ensures node.clock.readings == old(node.clock.readings) + Reading(tick.now)
    ensures node.Failures() >= old(node.Failures()) && resolver.crypto.failures >= old(resolver.crypto.failures)
    ensures tick.trouble ==> node.Failures() + resolver.crypto.failures > old(node.Failures() + resolver.crypto.failures)
  {
    ghost var f0 := node.Failures() + resolver.crypto.failures;
    var due;
    ghost var now;
    due, now := RenewalIsDue(node.volume, node.paths.certFile, node.clock);
    if !due { return Idle(now, node.Failures() + resolver.crypto.failures > f0); }
    ghost var act, presented;
    var ok;
    ok, act, presented := node.Reenroll();
    if ok {
      RenewalOnDisk(node.paths, KeyFile, old(node.volume.dir), act.cert, act.key, act.fates);
      ok := resolver.Reload();
    }
    tick := Renewal(now, act.cert, act.key, act.fates, ok, node.Failures() + resolver.crypto.failures > f0);
  }

  /** `renewal_loop` with a key file, for as many ticks as one likes. Every tick in trouble had a
      failure of its own. */
  method RenewalLoop(node: Noded, resolver: ReloadableCert, intervalSecs: nat, ticks: nat) returns (ghost log: seq<Tick>)
    requires node.paths.Valid() && Wf(node.volume.dir)
    requires resolver.paths == node.paths && resolver.volume == node.volume && resolver.keySource.KeyFile?
    requires resolver.current.Matches()
    modifies node.volume, node.est, node.clock, resolver, resolver.crypto
    ensures |log| == ticks
    ensures Ticking(node.paths, KeyFile, Server(old(node.volume.dir), old(resolver.current)), log, Server(node.volume.dir, resolver.current))
    ensures resolver.current.Matches()
    ensures node.clock.readings == old(node.clock.readings) + Readings(log)
    ensures node.clock.slept == old(node.clock.slept) + Times(ticks, if intervalSecs == 0 then 1 else intervalSecs)
    ensures Troubles(log) <= node.Failures() + resolver.crypto.failures - old(node.Failures() + resolver.crypto.failures)
  {
    log := [];
    ghost var s0 := Server(node.volume.dir, resolver.current);
    var interval := if intervalSecs == 0 then 1 else intervalSecs;
    for n := 0 to ticks
      invariant |log| == n && Wf(node.volume.dir)
      invariant Ticking(node.paths, KeyFile, s0, log, Server(node.volume.dir, resolver.current))
      invariant node.clock.readings == old(node.clock.readings) + Readings(log)
      invariant node.clock.slept == old(node.clock.slept) + Times(n, interval)
      invariant Troubles(log) <= node.Failures() + resolver.crypto.failures - old(node.Failures() + resolver.crypto.failures)
    {
      node.clock.SleepSeconds(interval);
      ghost var s := Server(node.volume.dir, resolver.current);
      ghost var tick := RenewalTick(node, resolver);
      TickingStep(node.paths, KeyFile, s0, log, s, tick, Server(node.volume.dir, resolver.current));
      OneMoreTick(log, tick);
      log := log + [tick];
    }
    ServedPairMatches(node.paths, KeyFile, s0, log, Server(node.volume.dir, resolver.current));
  }

  /** One round of `renewal_loop` with a token key. */
  method RenewalTickTpm(node: TpmNode, resolver: ReloadableCert) returns (ghost tick: Tick)
    requires node.paths.Valid() && Wf(node.volume.dir)
    requires resolver.paths == node.paths && resolver.volume == node.volume
    requires resolver.keySource.TokenKey? && node.module11.token.key == Some(resolver.keySource.key)
    modifies node.volume, node.est, node.module11`calls, node.module11`failures
    modifies node.clock`readings, node.clock`failures, resolver, resolver.crypto
    ensures Wf(node.volume.dir)
    ensures TickStep(node.paths, resolver.keySource, Server(old(node.volume.dir), old(resolver.current)), tick, Server(node.volume.dir, resolver.current))
    ensures node.clock.readings == old(node.clock.readings) + Reading(tick.now)
    ensures node.Failures() >= old(node.Failures()) && resolver.crypto.failures >= old(resolver.crypto.failures)
    ensures tick.trouble ==> node.Failures() + resolver.crypto.failures > old(node.Failures() + resolver.crypto.failures)
  {
    ghost var f0 := node.Failures() + resolver.crypto.failures;
    var due;
    ghost var now;
    due, now := RenewalIsDue(node.volume, node.paths.certFile, node.clock);
    if !due { return Idle(now, node.Failures() + resolver.crypto.failures > f0); }
    ghost var act, presented;
    var ok;
    ok, act, presented := node.Reenroll();
    if ok {
      RenewalOnDisk(node.paths, resolver.keySource, old(node.volume.dir), act.cert, act.cert.publicKey, act.fates);
      ok := resolver.Reload();
    }
    tick := Renewal(now, act.cert, act.cert.publicKey, act.fates, ok, node.Failures() + resolver.crypto.failures > f0);
  }

  /** `renewal_loop` with a token key: the key stays, the certificate is exchanged. */
  method RenewalLoopTpm(node: TpmNode, resolver: ReloadableCert, intervalSecs: nat, ticks: nat) returns (ghost log: seq<Tick>)
    requires node.paths.Valid() && Wf(node.volume.dir)
    requires resolver.paths == node.paths && resolver.volume == node.volume
    requires resolver.keySource.TokenKey? && node.module11.token.key == Some(resolver.keySource.key)
    requires resolver.current.Matches()
    modifies node.volume, node.est, node.module11`calls, node.module11`failures, node.clock, resolver, resolver.crypto
    ensures |log| == ticks
    ensures Ticking(node.paths, resolver.keySource, Server(old(node.volume.dir), old(resolver.current)), log, Server(node.volume.dir, resolver.current))
    ensures resolver.current.Matches()
    ensures node.clock.readings == old(node.clock.readings) + Readings(log)
    ensures node.clock.slept == old(node.clock.slept) + Times(ticks, if intervalSecs == 0 then 1 else intervalSecs)
    ensures Troubles(log) <= node.Failures() + resolver.crypto.failures - old(node.Failures() + resolver.crypto.failures)
  {
    log := [];
    ghost var s0 := Server(node.volume.dir, resolver.current);
    var interval := if intervalSecs == 0 then 1 else intervalSecs;
    for n := 0 to ticks
      invariant |log| == n && Wf(node.volume.dir)
      invariant Ticking(node.paths, resolver.keySource, s0, log, Server(node.volume.dir, resolver.current))
      invariant node.clock.readings == old(node.clock.readings) + Readings(log)
      invariant node.clock.slept == old(node.clock.slept) + Times(n, interval)
      invariant Troubles(log) <= node.Failures() + resolver.crypto.failures - old(node.Failures() + resolver.crypto.failures)
    {
      node.clock.SleepSeconds(interval);
      ghost var s := Server(node.volume.dir, resolver.current);
      ghost var tick := RenewalTickTpm(node, resolver);
      TickingStep(node.paths, resolver.keySource, s0, log, s, tick, Server(node.volume.dir, resolver.current));
      OneMoreTick(log, tick);
      log := log + [tick];
    }
    ServedPairMatches(node.paths, resolver.keySource, s0, log, Server(node.volume.dir, resolver.current));
  }
}
