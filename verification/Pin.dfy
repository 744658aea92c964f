/** The token's user PIN: how it is drawn, and read back through `trim`. */
module Pin {
  import opened Host

  const CHARSET_LENGTH: nat := 62

  /** The letters A to Z, a to z and the digits 0 to 9, in this order. */
  function Charset(i: nat): char
    requires i < CHARSET_LENGTH
  {
    if i < 26 then 'A' + i as char else if i < 52 then 'a' + (i - 26) as char else '0' + (i - 52) as char
  }

  const PIN_LENGTH: nat := 24

  /** Unicode's White_Space property, which `str::trim` goes by. */
  predicate IsWhitespace(c: char) {
    var u := c as int;
    || 9 <= u <= 13 || u == 0x20 || u == 0x85 || u == 0xA0 || u == 0x1680
    || 0x2000 <= u <= 0x200A || u == 0x2028 || u == 0x2029 || u == 0x202F || u == 0x205F || u == 0x3000
  }

  function TrimStart(s: string): string {
    if s != [] && IsWhitespace(s[0]) then TrimStart(s[1..]) else s
  }

  function TrimEnd(s: string): string {
    if s != [] && IsWhitespace(s[|s| - 1]) then TrimEnd(s[..|s| - 1]) else s
  }

  function Trim(s: string): string {
    TrimEnd(TrimStart(s))
  }

  predicate IsPinChar(c: char) {
    'A' <= c <= 'Z' || 'a' <= c <= 'z' || '0' <= c <= '9'
  }

  predicate IsPin(s: string) {
    |s| == PIN_LENGTH && forall i | 0 <= i < |s| :: IsPinChar(s[i])
  }

  lemma CharsetIsAlphanumeric(i: nat)
    requires i < CHARSET_LENGTH
    ensures IsPinChar(Charset(i))
  {
  }

  lemma TrimStartShortens(s: string)
    ensures |TrimStart(s)| <= |s|
    ensures |TrimStart(s)| == |s| <==> TrimStart(s) == s
  {
  }

  lemma TrimEndShortens(s: string)
    ensures |TrimEnd(s)| <= |s|
    ensures |TrimEnd(s)| == |s| <==> TrimEnd(s) == s
  {
  }

  /** Writing a text and reading it back through `trim` gives the same text exactly when it
      has no white space at either end. */
  lemma {:induction false} TrimKeeps(s: string)
    ensures Trim(s) == s <==> s == [] || (!IsWhitespace(s[0]) && !IsWhitespace(s[|s| - 1]))
  {
    TrimStartShortens(s);
    TrimEndShortens(TrimStart(s));
    if s != [] && IsWhitespace(s[0]) {
      TrimStartShortens(s[1..]);
    } else if s != [] && IsWhitespace(s[|s| - 1]) {
      TrimEndShortens(s[..|s| - 1]);
    }
  }

  /** A PIN survives: its alphabet has no white space. */
  lemma PinSurvivesTrim(s: string)
    requires IsPin(s)
    ensures Trim(s) == s
  {
    TrimKeeps(s);
    assert IsPinChar(s[0]) && IsPinChar(s[|s| - 1]);
  }

  ghost predicate InCharset(draws: seq<nat>) {
    forall i | 0 <= i < |draws| :: draws[i] < CHARSET_LENGTH
  }

  /** The letters drawn. */
  ghost function Drawn(draws: seq<nat>): string
    requires InCharset(draws)
  {
    if draws == [] then "" else Drawn(draws[..|draws| - 1]) + [Charset(draws[|draws| - 1])]
  }

  lemma DrawnAt(draws: seq<nat>, i: nat)
    requires InCharset(draws)
    ensures |Drawn(draws)| == |draws|
    ensures i < |draws| ==> Drawn(draws)[i] == Charset(draws[i])
  {
  }

  lemma DrawnSnoc(draws: seq<nat>, draw: nat)
    requires InCharset(draws) && draw < CHARSET_LENGTH
    ensures InCharset(draws + [draw]) && Drawn(draws + [draw]) == Drawn(draws) + [Charset(draw)]
  {
    assert (draws + [draw])[..|draws|] == draws;
  }

  lemma CharsetAgain(c: char) returns (i: nat)
    requires IsPinChar(c)
    ensures i < CHARSET_LENGTH && Charset(i) == c
  {
    i := if c >= 'a' then 26 + (c - 'a') as nat else if c >= 'A' then (c - 'A') as nat else 52 + (c - '0') as nat;
  }

  lemma CharsetInjective(i: nat, j: nat)
    requires i < CHARSET_LENGTH && j < CHARSET_LENGTH && Charset(i) == Charset(j)
    ensures i == j
  {
  }

  /** Every PIN can come of it. */
  lemma {:induction false} EveryPinIsDrawn(pin: string) returns (draws: seq<nat>)
    requires forall i | 0 <= i < |pin| :: IsPinChar(pin[i])
    ensures InCharset(draws) && Drawn(draws) == pin
  {
    draws := [];
    if pin != "" {
      var before := EveryPinIsDrawn(pin[..|pin| - 1]);
      var last := CharsetAgain(pin[|pin| - 1]);
      DrawnSnoc(before, last);
      draws := before + [last];
    }
  }

  /** And from one sequence of draws alone; so even draws give even PINs. */
  lemma DrawnOnce(a: seq<nat>, b: seq<nat>)
    requires InCharset(a) && InCharset(b) && Drawn(a) == Drawn(b)
    ensures a == b
  {
    DrawnAt(a, 0);
    DrawnAt(b, 0);
    forall i | 0 <= i < |a| ensures a[i] == b[i] {
      DrawnAt(a, i);
      DrawnAt(b, i);
      CharsetInjective(a[i], b[i]);
    }
  }

  /** `random_pin`: letter for letter what is drawn from the generator. */
  method RandomPin(rng: Rng) returns (pin: string)
    modifies rng
    ensures IsPin(pin)
    ensures |rng.draws| == |old(rng.draws)| + PIN_LENGTH && old(rng.draws) <= rng.draws
    ensures InCharset(rng.draws[|old(rng.draws)|..]) && pin == Drawn(rng.draws[|old(rng.draws)|..])
  {
    pin := "";
    ghost var d := |rng.draws|;
    for n := 0 to PIN_LENGTH
      invariant |pin| == n && |rng.draws| == d + n && old(rng.draws) <= rng.draws
      invariant forall i | 0 <= i < n :: IsPinChar(pin[i])
      invariant InCharset(rng.draws[d..]) && pin == Drawn(rng.draws[d..])
    {
      ghost var before := rng.draws[d..];
      var draw := rng.Below(CHARSET_LENGTH);
      CharsetIsAlphanumeric(draw);
      DrawnSnoc(before, draw);
      assert rng.draws[d..] == before + [draw];
      pin := pin + [Charset(draw)];
    }
  }
}
