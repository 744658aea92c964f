/** What noded asks of its surroundings besides files: libraries, the clock, random numbers. Each
    keeps a record of what it was asked and how it answered, which only it extends. */
module Host {
  import opened Storage

  /** Calls that fail or not, and have no other result that matters here. */
  class Library {
    ghost var answers: seq<bool>
    ghost var failures: nat

    constructor ()
      ensures answers == [] && failures == 0
    {
      answers, failures := [], 0;
    }

    method Call() returns (ok: bool)
      modifies this
      ensures answers == old(answers) + [ok]
      ensures failures == old(failures) + if ok then 0 else 1
    {
      ok := *;
      answers := answers + [ok];
      if !ok { failures := failures + 1; }
    }
  }

  /** `n` times as long. */
  function Times(n: nat, length: nat): nat {
    if n == 0 then 0 else length + Times(n - 1, length)
  }

  /** The time just read, if it was. */
  function Reading(now: Option<nat>): seq<nat> {
    if now.Some? then [now.value] else []
  }

  /** Nanoseconds since the epoch; it fails if it is set before that. */
  class Clock {
    ghost var readings: seq<nat>
    ghost var slept: nat          // seconds, in all
    ghost var failures: nat

    constructor ()
      ensures readings == [] && slept == 0 && failures == 0
    {
      readings, slept, failures := [], 0, 0;
    }

    method Now() returns (now: Option<nat>)
      modifies `readings, `failures
      ensures readings == old(readings) + Reading(now)
      ensures failures == old(failures) + if now.None? then 1 else 0
    {
      var valid: bool, t: nat := *, *;
      now := if valid then Some(t) else None;
      readings := readings + Reading(now);
      if now.None? { failures := failures + 1; }
    }

    method SleepSeconds(secs: nat)
      modifies `slept
      ensures slept == old(slept) + secs
    {
      slept := slept + secs;
    }
  }

  /** A generator of numbers below a bound. */
  class Rng {
    ghost var draws: seq<nat>

    constructor ()
      ensures draws == []
    {
      draws := [];
    }

    method Below(bound: nat) returns (draw: nat)
      requires bound > 0
      modifies this
      ensures draw < bound && draws == old(draws) + [draw]
    {
      var any: nat :| 0 <= any;
      draw := any % bound;
      draws := draws + [draw];
    }
  }
}
