/** The node's PKI files and the EST server that issues its certificates. */
module Pki {
  import opened Storage
  import opened Host
  import opened Volumes
  import opened Renewal

  /** A certificate as far as noded looks into it; keys are told apart by number. */
  datatype Cert = Cert(publicKey: nat, notBefore: nat, notAfter: nat)

  datatype Content =
    | CertPem(cert: Cert)
    | KeyPem(key: nat)
    | CaPem(bundle: string)
    | PinText(pin: string)

  type PkiFiles = Files<Content>
  type PkiDir = Dir<Content>

  /** File names of the PKI, all in one directory. */
  datatype Paths = Paths(certFile: string, keyFile: string, clientCa: string, pinFile: string) {
    ghost predicate Valid() {
      && !IsTemp(certFile) && !IsTemp(keyFile) && !IsTemp(clientCa) && !IsTemp(pinFile)
      && certFile != keyFile && certFile != clientCa && certFile != pinFile
      && keyFile != clientCa && keyFile != pinFile && clientCa != pinFile
    }
  }

  /** `node_pki_present`: with a token there is no key file to look for. */
  ghost predicate PkiPresent(paths: Paths, tpm: bool, f: PkiFiles) {
    paths.certFile in f && (tpm || paths.keyFile in f) && paths.clientCa in f
  }

  /** How often enrollment and renewal are tried at startup. */
  const BOOTSTRAP_ATTEMPTS: nat := 30
  const REENROLL_ATTEMPTS: nat := 6

  /** The pause between two of these attempts. */
  const RETRY_SECS: nat := 5

  /** The file is a whole certificate. */
  ghost predicate IsCert(f: PkiFiles, certFile: string) {
    certFile in f && f[certFile].data.Whole? && f[certFile].data.content.CertPem?
  }

  /** The certificate file is due for renewal, or is torn and could be anything. */
  ghost predicate Due(f: PkiFiles, certFile: string, now: nat) {
    && certFile in f
    && (f[certFile].data.Whole? ==>
          && f[certFile].data.content.CertPem?
          && NeedsRenewal(f[certFile].data.content.cert.notBefore, f[certFile].data.content.cert.notAfter, now))
  }

  /** `cert_needs_renewal`: None when the file cannot be read or parsed, or the clock fails. A
      whole certificate, read without a failure, is judged at the time that the clock gave. */
  method CertNeedsRenewal(volume: Volume<Content>, certFile: string, clock: Clock) returns (due: Option<bool>, ghost now: Option<nat>)
    modifies volume`calls, volume`failures, clock`readings, clock`failures
    ensures due.Some? ==> now.Some? && certFile in Current(volume.dir)
    ensures due.Some? && due.value ==> Due(Current(volume.dir), certFile, now.value)
    ensures due.Some? && !due.value && IsCert(Current(volume.dir), certFile) ==> !Due(Current(volume.dir), certFile, now.value)
    ensures due.None? && IsCert(Current(volume.dir), certFile) ==>
              volume.failures + clock.failures > old(volume.failures + clock.failures)
    ensures clock.readings == old(clock.readings) + Reading(now)
    ensures volume.failures >= old(volume.failures) && clock.failures >= old(clock.failures)
  {
    due, now := None, None;
    assert Reading(now) == [];
    var pem := volume.ReadFile(certFile);
    if pem.Some? && pem.value.CertPem? {
      var cert := pem.value.cert;
      var read := clock.Now();
      now := read;
      if read.Some? { due := Some(NeedsRenewal(cert.notBefore, cert.notAfter, read.value)); }
    }
  }

  /** There is a whole certificate, nothing failed, and by the time read it is due. */
  ghost predicate MustRenew(f: PkiFiles, certFile: string, now: Option<nat>, failed: bool) {
    IsCert(f, certFile) && !failed && (now.Some? ==> Due(f, certFile, now.value))
  }

  /** Whether startup, or a tick of the renewal loop, renews: a due certificate, and one that is
      whole and due is not missed unless something failed. */
  method RenewalIsDue(volume: Volume<Content>, certFile: string, clock: Clock) returns (due: bool, ghost now: Option<nat>)
    modifies volume`calls, volume`failures, clock`readings, clock`failures
    ensures due ==> now.Some? && Due(Current(volume.dir), certFile, now.value)
    ensures !due ==> !MustRenew(Current(volume.dir), certFile, now,
                       volume.failures + clock.failures > old(volume.failures + clock.failures))
    ensures volume.failures >= old(volume.failures) && clock.failures >= old(clock.failures)
    ensures clock.readings == old(clock.readings) + Reading(now)
  {
    var answer;
    answer, now := CertNeedsRenewal(volume, certFile, clock);
    due := answer.Some? && answer.value;
  }

  // ---- the CA bundle ----

  /** `client_ca_pem`, certificate by certificate. */
  function Concat(pems: seq<string>): string {
    if pems == [] then "" else Concat(pems[..|pems| - 1]) + pems[|pems| - 1]
  }

  /** The length of the first `i` texts together. */
  function LengthOf(pems: seq<string>, i: nat): nat
    requires i <= |pems|
  {
    if i == 0 then 0 else LengthOf(pems, i - 1) + |pems[i - 1]|
  }

  /** The text has all of these, each in its place, and nothing else. */
  ghost predicate IsBundle(text: string, pems: seq<string>) {
    && |text| == LengthOf(pems, |pems|)
    && forall i | 0 <= i < |pems| :: PieceOf(text, pems, i)
  }

  ghost predicate PieceOf(text: string, pems: seq<string>, i: nat)
    requires i < |pems|
  {
    LengthOf(pems, i + 1) <= |text| && text[LengthOf(pems, i)..LengthOf(pems, i + 1)] == pems[i]
  }

  lemma {:induction false} LengthOfPrefix(pems: seq<string>, n: nat, i: nat)
    requires i <= n <= |pems|
    ensures LengthOf(pems[..n], i) == LengthOf(pems, i)
  {
    if i > 0 { LengthOfPrefix(pems, n, i - 1); }
  }

  lemma {:induction false} LengthsGrow(pems: seq<string>, i: nat, j: nat)
    requires i <= j <= |pems|
    ensures LengthOf(pems, i) <= LengthOf(pems, j)
  {
    if i < j { LengthsGrow(pems, i, j - 1); }
  }

  lemma {:induction false} ConcatIsBundle(pems: seq<string>)
    ensures IsBundle(Concat(pems), pems)
  {
    if pems != [] {
      var n := |pems| - 1;
      ConcatIsBundle(pems[..n]);
      LengthOfPrefix(pems, n, n);
      forall i | 0 <= i < |pems| ensures PieceOf(Concat(pems), pems, i) {
        if i < n {
          assert PieceOf(Concat(pems[..n]), pems[..n], i);
          LengthOfPrefix(pems, n, i);
          LengthOfPrefix(pems, n, i + 1);
          LengthsGrow(pems, i, i + 1);
        }
      }
    }
  }

  /** The CA file is whole, and has all these certificates, in order, and nothing else. */
  ghost predicate HasBundle(paths: Paths, f: PkiFiles, caCerts: seq<string>) {
    exists text | IsBundle(text, caCerts) :: Has(f, paths.clientCa, CaPem(text))
  }

  lemma BundleIsThere(paths: Paths, f: PkiFiles, text: string, caCerts: seq<string>, written: bool)
    requires IsBundle(text, caCerts) && (written ==> Has(f, paths.clientCa, CaPem(text)))
    ensures written ==> HasBundle(paths, f, caCerts)
  {
  }

  // ---- the EST server, and the client library before it ----

  datatype Response =
    | Refusal                      // any transport, HTTP or parse error
    | Pending(retryAfter: nat)     // 202: manual approval
    | Issued(cert: Cert)

  /** `issued_cert`: only an issued certificate gets through. */
  function IssuedCert(response: Response): Option<Cert> {
    match response
    case Issued(cert) => Some(cert)
    case _ => None
  }

  /** How noded authenticates to the EST server. */
  datatype Auth = Bearer | NodeCert(cert: Content, key: Content) | TokenCert(cert: Content)

  datatype Operation = SimpleEnroll | SimpleReenroll

  datatype EstCall =
    | Built(auth: Auth, ok: bool)                    // the EST CA file read, the client built
    | SentCas(certs: Option<seq<string>>)
    | MadeKey(key: Option<nat>)                      // a fresh key and a request signed with it
    | Answered(op: Operation, publicKey: nat, response: Response)
    | Encoded(ok: bool)                              // a certificate as PEM

  predicate EstFailed(c: EstCall) {
    match c
    case Built(_, ok) => !ok
    case SentCas(certs) => certs.None? || certs.value == []
    case MadeKey(key) => key.None?
    case Answered(_, _, response) => !response.Issued?
    case Encoded(ok) => !ok
  }

  class EstServer {
    ghost var calls: seq<EstCall>
    ghost var failures: nat       // how many of them failed

    constructor ()
      ensures calls == [] && failures == 0
    {
      calls, failures := [], 0;
    }

    ghost method Record(c: EstCall)
      modifies this
      ensures calls == old(calls) + [c]
      ensures failures == old(failures) + if EstFailed(c) then 1 else 0
    {
      calls := calls + [c];
      if EstFailed(c) { failures := failures + 1; }
    }

    method Build(auth: Auth) returns (ok: bool)
      modifies this
      ensures calls == old(calls) + [Built(auth, ok)]
      ensures failures == old(failures) + if ok then 0 else 1
    {
      ok := *;
      Record(Built(auth, ok));
    }

    method CaCerts() returns (certs: Option<seq<string>>)
      modifies this
      ensures calls == old(calls) + [SentCas(certs)]
      ensures failures == old(failures) + if certs.None? || certs.value == [] then 1 else 0
    {
      var answers: bool, list: seq<string> := *, *;
      certs := if answers then Some(list) else None;
      Record(SentCas(certs));
    }

    method GenerateCsr() returns (key: Option<nat>)
      modifies this
      ensures calls == old(calls) + [MadeKey(key)]
      ensures failures == old(failures) + if key.None? then 1 else 0
    {
      var made: bool, k: nat := *, *;
      key := if made then Some(k) else None;
      Record(MadeKey(key));
    }

    /** The issued certificate is for the key that signed the request; see section 4.2 of RFC 7030. */
    method Enroll(op: Operation, publicKey: nat) returns (response: Response)
      modifies this
      ensures response.Issued? ==> response.cert.publicKey == publicKey
      ensures calls == old(calls) + [Answered(op, publicKey, response)]
      ensures failures == old(failures) + if response.Issued? then 0 else 1
    {
      var answers: bool, pending: bool := *, *;
      var from: nat, until: nat := *, *;
      response := if !answers then Refusal else if pending then Pending(until) else Issued(Cert(publicKey, from, until));
      Record(Answered(op, publicKey, response));
    }

    method Encode() returns (ok: bool)
      modifies this
      ensures calls == old(calls) + [Encoded(ok)]
      ensures failures == old(failures) + if ok then 0 else 1
    {
      ok := *;
      Record(Encoded(ok));
    }
  }

  /** `n` certificates encoded without a failure. */
  function Encodings(n: nat): seq<EstCall> {
    seq(n, i => Encoded(true))
  }

  /** `client_ca_pem`: each certificate encoded and appended in turn. */
  method EncodeBundle(est: EstServer, caCerts: seq<string>) returns (pem: Option<string>)
    modifies est
    ensures pem.Some? ==> pem.value == Concat(caCerts) && IsBundle(pem.value, caCerts)
    ensures pem.Some? ==> est.calls == old(est.calls) + Encodings(|caCerts|)
    ensures old(est.calls) <= est.calls
    ensures est.failures >= old(est.failures) && (pem.None? ==> est.failures > old(est.failures))
  {
    var text := "";
    for i := 0 to |caCerts|
      invariant text == Concat(caCerts[..i])
      invariant est.calls == old(est.calls) + Encodings(i) && est.failures == old(est.failures)
    {
      var encoded := est.Encode();
      if !encoded { return None; }
      assert Encodings(i) + [Encoded(true)] == Encodings(i + 1);
      assert caCerts[..i + 1][..i] == caCerts[..i];
      text := text + caCerts[i];
    }
    assert caCerts[..|caCerts|] == caCerts;
    ConcatIsBundle(caCerts);
    pem := Some(text);
  }
}
