/** When a certificate is due for renewal. Times are in nanoseconds since the epoch;
    `Duration` division by three rounds down to a whole nanosecond. */
module Renewal {

  function SaturatingSub(a: nat, b: nat): nat {
    if a >= b then a - b else 0
  }

  function NeedsRenewal(notBefore: nat, notAfter: nat, now: nat): bool {
    if now >= notAfter then true
    else
      var lifetime := SaturatingSub(notAfter, notBefore);
      var remaining := SaturatingSub(notAfter, now);
      remaining < lifetime / 3
  }

  /** Length of the window before expiry in which renewal is due. */
  function Window(notBefore: nat, notAfter: nat): nat {
    SaturatingSub(notAfter, notBefore) / 3
  }

  /** Due from one instant on, for ever: there is a first due time. */
  lemma DueFrom(notBefore: nat, notAfter: nat, now: nat)
    ensures NeedsRenewal(notBefore, notAfter, now) <==>
            now > notAfter - Window(notBefore, notAfter) || now >= notAfter
  {
  }

  lemma DueIsMonotone(notBefore: nat, notAfter: nat, now: nat, later: nat)
    requires now <= later && NeedsRenewal(notBefore, notAfter, now)
    ensures NeedsRenewal(notBefore, notAfter, later)
  {
  }

  /** "Past two thirds of the lifetime" is what the code decides, except at the one instant
      where rounding down the third makes it wait: a third of the lifetime is not whole and
      exactly its whole part remains. */
  lemma TwoThirdsRule(notBefore: nat, notAfter: nat, now: nat)
    requires notBefore <= now < notAfter
    ensures NeedsRenewal(notBefore, notAfter, now) <==>
            3 * (now - notBefore) > 2 * (notAfter - notBefore)
            && !((notAfter - notBefore) % 3 != 0 && notAfter - now == (notAfter - notBefore) / 3)
  {
    var third := (notAfter - notBefore) / 3;
    assert notAfter - notBefore == 3 * third + (notAfter - notBefore) % 3;
  }

  /** A check that is due while the certificate is still valid. */
  predicate InTime(notBefore: nat, notAfter: nat, t: nat) {
    NeedsRenewal(notBefore, notAfter, t) && t < notAfter
  }

  function CountInTime(notBefore: nat, notAfter: nat, checks: seq<nat>): nat {
    if checks == [] then 0
    else (if InTime(notBefore, notAfter, checks[0]) then 1 else 0) + CountInTime(notBefore, notAfter, checks[1..])
  }

  /** Times of successive checks, each after the one before by at most `gap`. */
  predicate Paced(checks: seq<nat>, gap: nat) {
    forall i | 0 < i < |checks| :: checks[i - 1] < checks[i] <= checks[i - 1] + gap
  }

  lemma PacedTail(checks: seq<nat>, gap: nat)
    requires |checks| > 1 && Paced(checks, gap)
    ensures Paced(checks[1..], gap)
  {
    var rest := checks[1..];
    forall i | 0 < i < |rest| ensures rest[i - 1] < rest[i] <= rest[i - 1] + gap {
      assert rest[i - 1] == checks[i] && rest[i] == checks[i + 1];
    }
  }

  /** Once inside the window, every gap that still fits before expiry brings one more check. */
  lemma {:induction false} InsideWindow(notBefore: nat, notAfter: nat, checks: seq<nat>, gap: nat, left: nat)
    requires checks != [] && Paced(checks, gap) && checks[|checks| - 1] >= notAfter
    requires checks[0] > notAfter - Window(notBefore, notAfter)
    requires checks[0] + left * gap < notAfter
    ensures CountInTime(notBefore, notAfter, checks) >= left + 1
    decreases |checks|
  {
    assert InTime(notBefore, notAfter, checks[0]) by {
      assert left * gap >= 0;
      DueFrom(notBefore, notAfter, checks[0]);
    }
    if left > 0 {
      assert left * gap == (left - 1) * gap + gap && (left - 1) * gap >= 0;
      PacedTail(checks, gap);
      InsideWindow(notBefore, notAfter, checks[1..], gap, left - 1);
    }
  }

  /** A loop that starts no later than the window opens and leaves at most `gap` between
      checks makes at least (W - 1) / gap checks that are due and still before expiry, with
      W a third of the lifetime, rounded down. With no lifetime to speak of (or an expiry
      before the start) there is no such check, and the certificate expires first. */
  lemma {:induction false} RenewalCoverage(notBefore: nat, notAfter: nat, checks: seq<nat>, gap: nat)
    requires checks != [] && Paced(checks, gap) && gap > 0
    requires checks[0] <= notAfter - Window(notBefore, notAfter)
    requires checks[|checks| - 1] >= notAfter
    ensures Window(notBefore, notAfter) > 0 ==>
              CountInTime(notBefore, notAfter, checks) >= (Window(notBefore, notAfter) - 1) / gap
    ensures Window(notBefore, notAfter) == 0 ==> CountInTime(notBefore, notAfter, checks) == 0
    decreases |checks|
  {
    var w := Window(notBefore, notAfter);
    DueFrom(notBefore, notAfter, checks[0]);
    if |checks| > 1 {
      PacedTail(checks, gap);
      if checks[1] <= notAfter - w {
        RenewalCoverage(notBefore, notAfter, checks[1..], gap);
      } else if w > 0 {
        var n := (w - 1) / gap;
        if n > 0 {
          Quotient(w - 1, gap);
          InsideWindow(notBefore, notAfter, checks[1..], gap, n - 1);
        }
      } else {
        NeverInTime(notBefore, notAfter, checks[1..]);
      }
    }
  }

  lemma PacedCons(t: nat, rest: seq<nat>, gap: nat)
    requires rest != [] && Paced(rest, gap) && t < rest[0] <= t + gap
    ensures Paced([t] + rest, gap)
  {
    var all := [t] + rest;
    forall k | 0 < k < |all| ensures all[k - 1] < all[k] <= all[k - 1] + gap {
      if k > 1 { assert all[k - 1] == rest[k - 2] && all[k] == rest[k - 1]; }
    }
  }

  /** Checks exactly `gap` apart, from inside the window until expiry; `m` are before expiry. */
  lemma {:induction false} SlowestChecks(notBefore: nat, notAfter: nat, from: nat, gap: nat, m: nat) returns (checks: seq<nat>)
    requires gap > 0 && from > notAfter - Window(notBefore, notAfter)
    requires from + m * gap >= notAfter && (m > 0 ==> from + (m - 1) * gap < notAfter)
    ensures checks != [] && checks[0] == from && checks[|checks| - 1] >= notAfter && Paced(checks, gap)
    ensures CountInTime(notBefore, notAfter, checks) == m
    decreases m
  {
    DueFrom(notBefore, notAfter, from);
    if m == 0 {
      checks := [from];
    } else {
      assert from + m * gap == from + gap + (m - 1) * gap && (m - 1) * gap >= 0;
      assert m > 1 ==> from + (m - 1) * gap == from + gap + (m - 2) * gap;
      var rest := SlowestChecks(notBefore, notAfter, from + gap, gap, m - 1);
      PacedCons(from, rest, gap);
      checks := [from] + rest;
      assert checks[1..] == rest;
    }
  }

  lemma Quotient(a: nat, b: nat)
    requires b > 0
    ensures var q := a / b; q * b <= a < q * b + b && (q - 1) * b == q * b - b
  {
  }

  /** And the bound is the best one: some loop of that pace makes no more checks in time. */
  lemma CoverageIsTight(notBefore: nat, notAfter: nat, gap: nat) returns (checks: seq<nat>)
    requires gap > 0 && Window(notBefore, notAfter) > 0
    ensures checks != [] && Paced(checks, gap)
    ensures checks[0] <= notAfter - Window(notBefore, notAfter) && checks[|checks| - 1] >= notAfter
    ensures CountInTime(notBefore, notAfter, checks) == (Window(notBefore, notAfter) - 1) / gap
  {
    var w := Window(notBefore, notAfter);
    var m, open := (w - 1) / gap, notAfter - w;
    Quotient(w - 1, gap);
    var rest := SlowestChecks(notBefore, notAfter, open + gap, gap, m);
    PacedCons(open, rest, gap);
    DueFrom(notBefore, notAfter, open);
    checks := [open] + rest;
    assert checks[1..] == rest;
  }

  lemma {:induction false} NeverInTime(notBefore: nat, notAfter: nat, checks: seq<nat>)
    requires Window(notBefore, notAfter) == 0
    ensures CountInTime(notBefore, notAfter, checks) == 0
    decreases |checks|
  {
    if checks != [] {
      NeverInTime(notBefore, notAfter, checks[1..]);
    }
  }
}
