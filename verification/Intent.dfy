/** The declarative join intent and its validation. Strings stand for their bytes. */
module Intent {
  import opened Storage

  datatype NodeIntent = NodeIntent(
    apiServer: string,
    clusterCa: string,
    bootstrapToken: string,
    clusterDns: seq<string>,
    clusterDomain: string,
    nodeLabels: seq<string>,
    nodeTaints: seq<string>)

  /** The library parsers validation relies on. */
  datatype Parsers = Parsers(isIp: string -> bool, isIpv6: string -> bool, isPem: string -> bool) {
    /** All that is assumed of them: an address is written in hex digits, ':' and '.'; see
        section 2.2 of RFC 4291. */
    ghost predicate Sound() {
      forall s :: (isIp(s) ==> AddressText(s)) && (isIpv6(s) ==> AddressText(s))
    }
  }

  predicate AddressChar(c: char) {
    '0' <= c <= '9' || 'a' <= c <= 'f' || 'A' <= c <= 'F' || c == ':' || c == '.'
  }

  predicate AddressText(s: string) {
    s != "" && forall i | 0 <= i < |s| :: AddressChar(s[i])
  }

  datatype IntentError =
    | NotHttps | NotBracketed | Unclosed | NotIpv6 | TrailingData
    | BadToken | BadCa | NoDns | BadDns(entry: string) | BadDomain

  function FindChar(s: string, c: char): (at: Option<nat>)
    ensures at.None? ==> c !in s
    ensures at.Some? ==> at.value < |s| && s[at.value] == c && c !in s[..at.value]
  {
    if s == "" then None
    else if s[0] == c then Some(0)
    else
      var rest := FindChar(s[1..], c);
      if rest.None? then None
      else
        assert s[..rest.value + 1] == [s[0]] + s[1..][..rest.value];
        Some(rest.value + 1)
  }

  lemma FindCharIs(s: string, c: char, k: nat)
    requires k < |s| && s[k] == c && c !in s[..k]
    ensures FindChar(s, c) == Some(k)
  {
    assert c in s;
  }

  const HTTPS := "https://"

  /** `validate_api_server`; None when accepted. */
  function ApiServerError(p: Parsers, url: string): Option<IntentError> {
    if !(HTTPS <= url) then Some(NotHttps)
    else
      var rest := url[|HTTPS|..];
      if rest == "" || rest[0] != '[' then Some(NotBracketed)
      else
        var close := FindChar(rest, ']');
        if close.None? then Some(Unclosed)
        else if !p.isIpv6(rest[1..close.value]) then Some(NotIpv6)
        else
          var tail := rest[close.value + 1..];
          if tail != "" && tail[0] != ':' then Some(TrailingData) else None
  }

  ghost predicate ServerShape(p: Parsers, url: string, host: string, tail: string) {
    && url == HTTPS + "[" + host + "]" + tail
    && ']' !in host && p.isIpv6(host)
    && (tail != "" ==> tail[0] == ':')
  }

  ghost predicate AcceptableServer(p: Parsers, url: string) {
    exists host, tail :: ServerShape(p, url, host, tail)
  }

  lemma AcceptedHasShape(p: Parsers, url: string)
    requires ApiServerError(p, url) == None
    ensures AcceptableServer(p, url)
  {
    var rest := url[|HTTPS|..];
    var close := FindChar(rest, ']').value;
    assert url == HTTPS + rest;
    assert rest == "[" + rest[1..close] + "]" + rest[close + 1..];
    assert url == HTTPS + "[" + rest[1..close] + "]" + rest[close + 1..];
    assert ']' !in rest[1..close] by {
      assert forall i | 1 <= i < close :: rest[i] == rest[..close][i];
    }
    assert ServerShape(p, url, rest[1..close], rest[close + 1..]);
  }

  /** What is accepted: https, a bracketed IPv6 literal, and nothing or `:` and anything at all. */
  lemma ApiServerLanguage(p: Parsers, url: string)
    ensures ApiServerError(p, url) == None <==> AcceptableServer(p, url)
  {
    if ApiServerError(p, url) == None {
      AcceptedHasShape(p, url);
    }
    if AcceptableServer(p, url) {
      var host, tail :| ServerShape(p, url, host, tail);
      AcceptedServer(p, host, tail);
    }
  }

  lemma AcceptedServer(p: Parsers, host: string, tail: string)
    requires ']' !in host && p.isIpv6(host) && (tail != "" ==> tail[0] == ':')
    ensures ApiServerError(p, HTTPS + "[" + host + "]" + tail) == None
  {
    var url := HTTPS + "[" + host + "]" + tail;
    var rest := "[" + host + "]" + tail;
    assert url == HTTPS + rest && url[|HTTPS|..] == rest;
    assert rest[..|host| + 1] == "[" + host;
    FindCharIs(rest, ']', |host| + 1);
    assert rest[1..|host| + 1] == host && rest[|host| + 2..] == tail;
  }

  // ---- the bootstrap token ----

  predicate LowerAlnum(c: char) {
    'a' <= c <= 'z' || '0' <= c <= '9'
  }

  predicate AlnumOfLength(s: string, n: nat) {
    |s| == n && forall i | 0 <= i < |s| :: LowerAlnum(s[i])
  }

  /** `valid_bootstrap_token`, by the first '.'. */
  predicate ValidBootstrapToken(token: string) {
    var dot := FindChar(token, '.');
    dot.Some? && AlnumOfLength(token[..dot.value], 6) && AlnumOfLength(token[dot.value + 1..], 16)
  }

  predicate TokenShape(token: string) {
    |token| == 23 && token[6] == '.' && forall i | 0 <= i < 23 && i != 6 :: LowerAlnum(token[i])
  }

  /** It accepts 23 bytes with '.' at index 6 and lower-case letters or digits elsewhere, and
      nothing else. */
  lemma TokenLanguage(token: string)
    ensures ValidBootstrapToken(token) <==> TokenShape(token)
  {
    var dot := FindChar(token, '.');
    if TokenShape(token) {
      assert '.' !in token[..6] by {
        assert !LowerAlnum('.');
      }
      FindCharIs(token, '.', 6);
      assert forall i | 0 <= i < 6 :: token[..6][i] == token[i];
      assert forall i | 0 <= i < 16 :: token[7..][i] == token[i + 7];
    }
    if ValidBootstrapToken(token) {
      assert dot.value == 6 && |token| == 23;
      forall i | 0 <= i < 23 && i != 6 ensures LowerAlnum(token[i]) {
        if i < 6 { assert token[..6][i] == token[i]; } else { assert token[7..][i - 7] == token[i]; }
      }
    }
  }

  // ---- the whole intent ----

  predicate DomainChar(c: char) {
    'a' <= c <= 'z' || 'A' <= c <= 'Z' || '0' <= c <= '9' || c == '.' || c == '-'
  }

  function FirstBadDns(p: Parsers, dns: seq<string>): (bad: Option<string>)
    ensures bad.None? <==> forall i | 0 <= i < |dns| :: p.isIp(dns[i])
  {
    if dns == [] then None
    else if !p.isIp(dns[0]) then Some(dns[0])
    else
      assert forall i | 1 <= i < |dns| :: dns[i] == dns[1..][i - 1];
      FirstBadDns(p, dns[1..])
  }

  /** `NodeIntent::validate`: the first failed check, or None. */
  function Validate(p: Parsers, intent: NodeIntent): Option<IntentError> {
    var server := ApiServerError(p, intent.apiServer);
    if server.Some? then server
    else if !ValidBootstrapToken(intent.bootstrapToken) then Some(BadToken)
    else if !p.isPem(intent.clusterCa) then Some(BadCa)
    else if intent.clusterDns == [] then Some(NoDns)
    else
      var bad := FirstBadDns(p, intent.clusterDns);
      if bad.Some? then Some(BadDns(bad.value))
      else if intent.clusterDomain == "" || exists i | 0 <= i < |intent.clusterDomain| :: !DomainChar(intent.clusterDomain[i])
      then Some(BadDomain)
      else None
  }

  predicate Validated(p: Parsers, intent: NodeIntent) {
    Validate(p, intent) == None
  }

  /** The whole of validation, without the order of its checks. */
  lemma ValidatedExactly(p: Parsers, intent: NodeIntent)
    ensures Validated(p, intent) <==>
            && AcceptableServer(p, intent.apiServer)
            && TokenShape(intent.bootstrapToken)
            && p.isPem(intent.clusterCa)
            && intent.clusterDns != [] && (forall i | 0 <= i < |intent.clusterDns| :: p.isIp(intent.clusterDns[i]))
            && intent.clusterDomain != "" && (forall i | 0 <= i < |intent.clusterDomain| :: DomainChar(intent.clusterDomain[i]))
  {
    ApiServerLanguage(p, intent.apiServer);
    TokenLanguage(intent.bootstrapToken);
  }
}
