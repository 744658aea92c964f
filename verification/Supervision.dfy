/** initd's service supervision as an automaton over what it observes and does.

    A log is accepted when `start_services`, `await_ready` and `supervise` can produce it;
    which markers exist, which spawns fail and which children exit is up to the environment. */
module Supervision {
  import opened Storage

  datatype RestartPolicy = Never | Always

  datatype Service = Service(
    name: string,
    restart: RestartPolicy,
    readyWhen: Option<string>,
    readyTimeoutSecs: nat,
    startWhen: Option<string>)

  datatype WaitResult = StillRunning | Exited | WaitError

  /** Times are in milliseconds. */
  datatype Obs =
    | Gate(slot: nat, seen: bool)                       // does the start marker exist
    | Spawn(slot: nat, child: Option<nat>, now: nat)    // None: it failed
    | Ready(slot: nat, seen: bool, now: nat)            // one poll of the ready marker
    | Wait(slot: nat, pid: nat, result: WaitResult)     // try_wait
    | Sleep                                             // between two ticks

  /** What a slot holds. */
  datatype Child = Deferred | Live(pid: nat)

  datatype Cause = StartFailed(slot: nat) | RequiredExited(slot: nat) | WaitFailed(slot: nat) | RespawnFailed(slot: nat)

  datatype Phase =
    | Starting(slot: nat)                                      // start_services: at its gate
    | Launching(slot: nat)                                     // start_services: about to spawn
    | Awaiting(slot: nat, deadline: nat, earliest: nat)        // await_ready
    | Visiting(slot: nat)                                      // supervise
    | Kicking(slot: nat)                                       // supervise: about to start a deferred service
    | Respawning(slot: nat)                                    // supervise: about to restart
    | Ended(cause: Cause)

  datatype State = State(phase: Phase, children: seq<Child>)

  const READY_POLL_INTERVAL: nat := 200

  function StartAt(cfg: seq<Service>, i: nat): Phase {
    if i >= |cfg| then Visiting(0) else if cfg[i].startWhen.Some? then Starting(i) else Launching(i)
  }

  function Init(cfg: seq<Service>): State {
    State(StartAt(cfg, 0), [])
  }

  /** The state after `e`, or None if the code would not do `e` there. */
  function Next(cfg: seq<Service>, s: State, e: Obs): Option<State> {
    match s.phase
    case Starting(i) =>
      if i < |cfg| && e.Gate? && e.slot == i then
        Some(if e.seen then s.(phase := Launching(i)) else State(StartAt(cfg, i + 1), s.children + [Deferred]))
      else None
    case Launching(i) =>
      if i < |cfg| && e.Spawn? && e.slot == i then
        if e.child.None? then Some(s.(phase := Ended(StartFailed(i))))
        else if cfg[i].readyWhen.Some? then
          Some(State(Awaiting(i, e.now + 1000 * cfg[i].readyTimeoutSecs, e.now), s.children + [Live(e.child.value)]))
        else Some(State(StartAt(cfg, i + 1), s.children + [Live(e.child.value)]))
      else None
    case Awaiting(i, deadline, earliest) =>
      if e.Ready? && e.slot == i && e.now >= earliest then
        if e.seen || e.now >= deadline then Some(s.(phase := StartAt(cfg, i + 1)))
        else Some(s.(phase := Awaiting(i, deadline, e.now + READY_POLL_INTERVAL)))
      else None
    case Visiting(i) =>
      if i >= |cfg| || i >= |s.children| then
        if e.Sleep? then Some(s.(phase := Visiting(0))) else None
      else if s.children[i].Deferred? then
        if e.Gate? && e.slot == i && cfg[i].startWhen.Some? then
          Some(s.(phase := if e.seen then Kicking(i) else Visiting(i + 1)))
        else None
      else if e.Wait? && e.slot == i && e.pid == s.children[i].pid then
        match e.result
        case StillRunning => Some(s.(phase := Visiting(i + 1)))
        case WaitError => Some(s.(phase := Ended(WaitFailed(i))))
        case Exited => Some(s.(phase := if cfg[i].restart.Always? then Respawning(i) else Ended(RequiredExited(i))))
      else None
    case Kicking(i) =>
      if e.Spawn? && e.slot == i && i < |s.children| then
        Some(State(Visiting(i + 1), if e.child.Some? then s.children[i := Live(e.child.value)] else s.children))
      else None
    case Respawning(i) =>
      if e.Spawn? && e.slot == i && i < |s.children| then
        if e.child.None? then Some(s.(phase := Ended(RespawnFailed(i))))
        else Some(State(Visiting(i + 1), s.children[i := Live(e.child.value)]))
      else None
    case Ended(_) => None
  }

  function Run(cfg: seq<Service>, log: seq<Obs>): Option<State> {
    if log == [] then Some(Init(cfg))
    else
      var before := Run(cfg, log[..|log| - 1]);
      if before.None? then None else Next(cfg, before.value, log[|log| - 1])
  }

  predicate Accepted(cfg: seq<Service>, log: seq<Obs>) {
    Run(cfg, log).Some?
  }

  lemma RunSnoc(cfg: seq<Service>, log: seq<Obs>, e: Obs)
    requires Accepted(cfg, log)
    ensures Run(cfg, log + [e]) == Next(cfg, Run(cfg, log).value, e)
  {
    assert (log + [e])[..|log|] == log;
  }

  lemma {:induction false} PrefixAccepted(cfg: seq<Service>, log: seq<Obs>, t: nat)
    requires Accepted(cfg, log) && t <= |log|
    ensures Accepted(cfg, log[..t])
    ensures t < |log| ==> Run(cfg, log[..t + 1]) == Next(cfg, Run(cfg, log[..t]).value, log[t])
  {
    if t == |log| {
      assert log[..t] == log;
    } else {
      var before := log[..|log| - 1];
      if t < |before| {
        PrefixAccepted(cfg, before, t);
        assert before[..t] == log[..t] && before[..t + 1] == log[..t + 1];
      } else {
        assert before == log[..t] && log[..t + 1] == log;
      }
    }
  }

  // ---- shape of reachable states ----

  ghost predicate Shape(cfg: seq<Service>, s: State) {
    var n, c := |cfg|, s.children;
    && |c| <= n
    && (forall i | 0 <= i < |c| && c[i].Deferred? :: cfg[i].startWhen.Some?)
    && match s.phase
       case Starting(i) => i < n && |c| == i && cfg[i].startWhen.Some?
       case Launching(i) => i < n && |c| == i
       case Awaiting(i, _, _) => i < n && |c| == i + 1 && c[i].Live? && cfg[i].readyWhen.Some?
       case Visiting(i) => i <= n && |c| == n
       case Kicking(i) => i < n && |c| == n && c[i].Deferred?
       case Respawning(i) => i < n && |c| == n && c[i].Live? && cfg[i].restart.Always?
       case Ended(StartFailed(i)) => i < n && |c| == i
       case Ended(WaitFailed(i)) => i < n && |c| == n && c[i].Live?
       case Ended(RequiredExited(i)) => i < n && |c| == n && c[i].Live? && cfg[i].restart.Never?
       case Ended(RespawnFailed(i)) => i < n && |c| == n && c[i].Live? && cfg[i].restart.Always?
  }

  lemma ShapeStep(cfg: seq<Service>, s: State, e: Obs)
    requires Shape(cfg, s) && Next(cfg, s, e).Some?
    ensures Shape(cfg, Next(cfg, s, e).value)
  {
  }

  lemma {:induction false} ShapeHolds(cfg: seq<Service>, log: seq<Obs>)
    requires Accepted(cfg, log)
    ensures Shape(cfg, Run(cfg, log).value)
  {
    if log != [] {
      ShapeHolds(cfg, log[..|log| - 1]);
      ShapeStep(cfg, Run(cfg, log[..|log| - 1]).value, log[|log| - 1]);
    }
  }

  // ---- conservation ----

  function Spawns(log: seq<Obs>, i: nat): nat {
    if log == [] then 0
    else
      var e := log[|log| - 1];
      Spawns(log[..|log| - 1], i) + (if e.Spawn? && e.slot == i && e.child.Some? then 1 else 0)
  }

  function Exits(log: seq<Obs>, i: nat): nat {
    if log == [] then 0
    else
      var e := log[|log| - 1];
      Exits(log[..|log| - 1], i) + (if e.Wait? && e.slot == i && e.result.Exited? then 1 else 0)
  }

  /** Reaped and not (or not yet) replaced. */
  predicate Gone(s: State, i: nat) {
    s.phase == Respawning(i) || s.phase == Ended(RespawnFailed(i)) || s.phase == Ended(RequiredExited(i))
  }

  predicate HasChild(s: State, i: nat) {
    i < |s.children| && s.children[i].Live?
  }

  /** Every service that was started has had one spawn more than exits, so exactly one live
      child, save in the instant between an exit and its restart or the end of the loop; a
      service not yet started has had neither; a `Never` service is spawned at most once. */
  lemma {:induction false} SpawnsBalanceExits(cfg: seq<Service>, log: seq<Obs>, i: nat)
    requires Accepted(cfg, log)
    ensures var s := Run(cfg, log).value;
            && Spawns(log, i) == Exits(log, i) + (if HasChild(s, i) && !Gone(s, i) then 1 else 0)
            && (!HasChild(s, i) ==> Spawns(log, i) == 0)
            && (i < |cfg| && cfg[i].restart.Never? ==> Spawns(log, i) <= 1)
            && (i < |cfg| && cfg[i].restart.Never? && HasChild(s, i) ==> Spawns(log, i) == 1)
  {
    if log != [] {
      SpawnsBalanceExits(cfg, log[..|log| - 1], i);
      ShapeHolds(cfg, log[..|log| - 1]);
    }
  }

  /** A child once set is never unset, and slots keep their place. */
  lemma {:induction false} ChildrenStay(cfg: seq<Service>, log: seq<Obs>, t: nat, i: nat)
    requires Accepted(cfg, log) && t <= |log| && Accepted(cfg, log[..t])
    ensures var s, s' := Run(cfg, log[..t]).value, Run(cfg, log).value;
            |s.children| <= |s'.children| && (HasChild(s, i) ==> HasChild(s', i))
  {
    if t == |log| {
      assert log[..t] == log;
    } else {
      var before := log[..|log| - 1];
      assert before[..t] == log[..t];
      ChildrenStay(cfg, before, t, i);
      ShapeHolds(cfg, before);
    }
  }

  // ---- which child is watched ----

  /** The child of the last spawn of service `i` that succeeded. */
  function LastSpawned(log: seq<Obs>, i: nat): Option<nat> {
    if log == [] then None
    else
      var e := log[|log| - 1];
      if e.Spawn? && e.slot == i && e.child.Some? then e.child else LastSpawned(log[..|log| - 1], i)
  }

  /** A slot holds the child that was spawned last for its service, and none before. */
  lemma {:induction false} SlotHoldsLastSpawned(cfg: seq<Service>, log: seq<Obs>, i: nat)
    requires Accepted(cfg, log)
    ensures var s := Run(cfg, log).value;
            LastSpawned(log, i) == if HasChild(s, i) then Some(s.children[i].pid) else None
  {
    if log != [] {
      SlotHoldsLastSpawned(cfg, log[..|log| - 1], i);
      ShapeHolds(cfg, log[..|log| - 1]);
    }
  }

  /** So every wait is for the child that was spawned last, and after an exit there is no
      other wait for that service before its next spawn. */
  lemma WaitsForLastSpawned(cfg: seq<Service>, log: seq<Obs>, t: nat)
    requires Accepted(cfg, log) && t < |log| && log[t].Wait?
    ensures LastSpawned(log[..t], log[t].slot) == Some(log[t].pid)
    ensures log[t].result.Exited? && t + 1 < |log| ==> log[t + 1].Spawn? && log[t + 1].slot == log[t].slot
  {
    PrefixAccepted(cfg, log, t);
    PrefixAccepted(cfg, log, t + 1);
    ShapeHolds(cfg, log[..t]);
    SlotHoldsLastSpawned(cfg, log[..t], log[t].slot);
    if log[t].result.Exited? && t + 1 < |log| {
      PrefixAccepted(cfg, log, t + 2);
    }
  }

  // ---- start gates ----

  /** Before a gated service is started, the last thing observed was its marker. */
  ghost predicate GateJustSeen(cfg: seq<Service>, log: seq<Obs>, s: State) {
    match s.phase
    case Launching(i) => i < |cfg| && cfg[i].startWhen.Some? ==> log != [] && log[|log| - 1] == Gate(i, true)
    case Kicking(i) => log != [] && log[|log| - 1] == Gate(i, true)
    case _ => true
  }

  lemma GateJustSeenHolds(cfg: seq<Service>, log: seq<Obs>)
    requires Accepted(cfg, log)
    ensures GateJustSeen(cfg, log, Run(cfg, log).value)
  {
    if log != [] {
      ShapeHolds(cfg, log[..|log| - 1]);
    }
  }

  /** The first attempt to start a gated service comes straight after seeing its marker. */
  lemma FirstStartSeesMarker(cfg: seq<Service>, log: seq<Obs>, t: nat)
    requires Accepted(cfg, log) && t < |log| && log[t].Spawn?
    requires log[t].slot < |cfg| && cfg[log[t].slot].startWhen.Some?
    requires Spawns(log[..t], log[t].slot) == 0
    ensures t > 0 && log[t - 1] == Gate(log[t].slot, true)
  {
    PrefixAccepted(cfg, log, t);
    PrefixAccepted(cfg, log, t + 1);
    ShapeHolds(cfg, log[..t]);
    GateJustSeenHolds(cfg, log[..t]);
    SpawnsBalanceExits(cfg, log[..t], log[t].slot);
    if Run(cfg, log[..t]).value.phase.Respawning? {
      RespawnFollowsExit(cfg, log[..t]);
      ExitCounts(log[..t], log[t].slot);
      assert false;
    }
  }

  lemma RespawnFollowsExit(cfg: seq<Service>, log: seq<Obs>)
    requires Accepted(cfg, log) && Run(cfg, log).value.phase.Respawning?
    ensures log != [] && ExitOf(log[|log| - 1], Run(cfg, log).value.phase.slot)
  {
  }

  predicate ExitOf(e: Obs, i: nat) {
    e.Wait? && e.slot == i && e.result.Exited?
  }

  lemma ExitCounts(log: seq<Obs>, i: nat)
    requires log != [] && ExitOf(log[|log| - 1], i)
    ensures Exits(log, i) > 0
  {
  }

  /** And a marker that was seen is always acted on at once: a failed deferred start is tried
      again at every visit at which the marker is still there. */
  lemma SeenMarkerIsActedOn(cfg: seq<Service>, log: seq<Obs>, t: nat)
    requires Accepted(cfg, log) && t + 1 < |log| && log[t].Gate? && log[t].seen
    ensures log[t + 1].Spawn? && log[t + 1].slot == log[t].slot
  {
    PrefixAccepted(cfg, log, t);
    PrefixAccepted(cfg, log, t + 1);
    PrefixAccepted(cfg, log, t + 2);
  }

  // ---- start order ----

  /** Slot `j` was spawned at `u`, and after that its ready marker was seen or its time was up. */
  ghost predicate ReadySettled(cfg: seq<Service>, log: seq<Obs>, j: nat, u: nat) {
    && j < |cfg| && u < |log| && log[u].Spawn? && log[u].slot == j && log[u].child.Some?
    && (cfg[j].readyWhen.Some? ==> exists w | u < w < |log| ::
          log[w].Ready? && log[w].slot == j && (log[w].seen || log[w].now >= log[u].now + 1000 * cfg[j].readyTimeoutSecs))
  }

  /** Slot `j` is dealt with: left for later because its marker was not there, or started. */
  ghost predicate Settled(cfg: seq<Service>, log: seq<Obs>, j: nat) {
    || Gate(j, false) in log
    || exists u: nat :: ReadySettled(cfg, log, j, u)
  }

  /** The spawn whose readiness is being awaited, with its deadline. */
  ghost predicate SpawnedForAwait(cfg: seq<Service>, log: seq<Obs>, s: State) {
    s.phase.Awaiting? && s.phase.slot < |cfg| ==>
      exists u | 0 <= u < |log| ::
        && log[u].Spawn? && log[u].slot == s.phase.slot && log[u].child.Some?
        && s.phase.deadline == log[u].now + 1000 * cfg[s.phase.slot].readyTimeoutSecs
  }

  ghost predicate EarlierSettled(cfg: seq<Service>, log: seq<Obs>, s: State) {
    forall j | 0 <= j < |s.children| && s.phase != Awaiting(j, AwaitDeadline(s), AwaitEarliest(s)) :: Settled(cfg, log, j)
  }

  function AwaitDeadline(s: State): nat {
    if s.phase.Awaiting? then s.phase.deadline else 0
  }

  function AwaitEarliest(s: State): nat {
    if s.phase.Awaiting? then s.phase.earliest else 0
  }

  lemma SettledGrows(cfg: seq<Service>, log: seq<Obs>, e: Obs, j: nat)
    requires Settled(cfg, log, j)
    ensures Settled(cfg, log + [e], j)
  {
    var all := log + [e];
    if Gate(j, false) !in log {
      var u: nat :| ReadySettled(cfg, log, j, u);
      assert all[u] == log[u];
      if cfg[j].readyWhen.Some? {
        var w :| u < w < |log| && log[w].Ready? && log[w].slot == j && (log[w].seen || log[w].now >= log[u].now + 1000 * cfg[j].readyTimeoutSecs);
        assert all[w] == log[w];
      }
      assert ReadySettled(cfg, all, j, u);
    }
  }

  lemma SpawnSettles(cfg: seq<Service>, log: seq<Obs>, e: Obs)
    requires e.Spawn? && e.child.Some? && e.slot < |cfg|
    ensures cfg[e.slot].readyWhen.None? ==> Settled(cfg, log + [e], e.slot)
    ensures (log + [e])[|log|] == e
  {
    if cfg[e.slot].readyWhen.None? {
      assert ReadySettled(cfg, log + [e], e.slot, |log|);
    }
  }

  lemma PollSettles(cfg: seq<Service>, log: seq<Obs>, s: State, e: Obs)
    requires s.phase.Awaiting? && s.phase.slot < |cfg| && SpawnedForAwait(cfg, log, s)
    requires e.Ready? && e.slot == s.phase.slot && (e.seen || e.now >= s.phase.deadline)
    ensures Settled(cfg, log + [e], e.slot)
  {
    var all := log + [e];
    var u :| 0 <= u < |log| && log[u].Spawn? && log[u].slot == s.phase.slot && log[u].child.Some?
      && s.phase.deadline == log[u].now + 1000 * cfg[s.phase.slot].readyTimeoutSecs;
    assert all[u] == log[u] && all[|log|] == e;
    assert ReadySettled(cfg, all, e.slot, u);
  }

  lemma SpawnedForAwaitGrows(cfg: seq<Service>, log: seq<Obs>, s: State, e: Obs, s': State)
    requires Shape(cfg, s) && SpawnedForAwait(cfg, log, s) && Next(cfg, s, e) == Some(s')
    ensures SpawnedForAwait(cfg, log + [e], s')
  {
    var all := log + [e];
    if s'.phase.Awaiting? {
      if s.phase.Awaiting? {
        var u :| 0 <= u < |log| && log[u].Spawn? && log[u].slot == s.phase.slot && log[u].child.Some?
          && s.phase.deadline == log[u].now + 1000 * cfg[s.phase.slot].readyTimeoutSecs;
        assert all[u] == log[u];
      } else {
        assert all[|log|] == e;
      }
    }
  }

  lemma {:induction false} EarlierSettledHolds(cfg: seq<Service>, log: seq<Obs>)
    requires Accepted(cfg, log)
    ensures SpawnedForAwait(cfg, log, Run(cfg, log).value) && EarlierSettled(cfg, log, Run(cfg, log).value)
  {
    if log != [] {
      var before, e := log[..|log| - 1], log[|log| - 1];
      var s, s' := Run(cfg, before).value, Run(cfg, log).value;
      assert before + [e] == log;
      EarlierSettledHolds(cfg, before);
      ShapeHolds(cfg, before);
      SpawnedForAwaitGrows(cfg, before, s, e, s');
      forall j | 0 <= j < |s'.children| && s'.phase != Awaiting(j, AwaitDeadline(s'), AwaitEarliest(s'))
        ensures Settled(cfg, log, j)
      {
        if j < |s.children| && s.phase != Awaiting(j, AwaitDeadline(s), AwaitEarliest(s)) {
          SettledGrows(cfg, before, e, j);
        } else if s.phase.Awaiting? {
          PollSettles(cfg, before, s, e);
        } else if e.Spawn? {
          SpawnSettles(cfg, before, e);
        } else {
          assert e == Gate(j, false) && e in log;
        }
      }
    }
  }

  /** Every spawn in `start_services` comes after each earlier service was left for later, or
      was spawned and then had its ready marker seen or its timeout run out. */
  lemma StartOrder(cfg: seq<Service>, log: seq<Obs>, t: nat, j: nat)
    requires Accepted(cfg, log) && t < |log| && log[t].Spawn?
    requires Accepted(cfg, log[..t]) && Run(cfg, log[..t]).value.phase.Launching?
    requires j < log[t].slot
    ensures Settled(cfg, log[..t], j)
  {
    PrefixAccepted(cfg, log, t);
    PrefixAccepted(cfg, log, t + 1);
    ShapeHolds(cfg, log[..t]);
    EarlierSettledHolds(cfg, log[..t]);
  }

  // ---- bounded readiness wait ----

  function Polls(log: seq<Obs>, i: nat): nat {
    if log == [] then 0
    else
      var e := log[|log| - 1];
      Polls(log[..|log| - 1], i) + (if e.Ready? && e.slot == i then 1 else 0)
  }

  /** While awaiting, each poll so far has used up one interval of the timeout. */
  ghost predicate PollsPaced(cfg: seq<Service>, s: State, i: nat, polls: nat) {
    i < |cfg| ==>
      var timeout := 1000 * cfg[i].readyTimeoutSecs;
      if i >= |s.children| then polls == 0
      else if s.phase.Awaiting? && s.phase.slot == i then
        && s.phase.deadline - timeout + READY_POLL_INTERVAL * polls <= s.phase.earliest
        && (polls > 0 ==> s.phase.earliest < s.phase.deadline + READY_POLL_INTERVAL)
      else polls <= 5 * cfg[i].readyTimeoutSecs + 1
  }

  lemma {:induction false} PollsPacedHolds(cfg: seq<Service>, log: seq<Obs>, i: nat)
    requires Accepted(cfg, log)
    ensures PollsPaced(cfg, Run(cfg, log).value, i, Polls(log, i))
  {
    if log != [] {
      PollsPacedHolds(cfg, log[..|log| - 1], i);
      ShapeHolds(cfg, log[..|log| - 1]);
    }
  }

  /** `await_ready` polls at most 5 T + 1 times for a timeout of T seconds, however long each
      sleep really takes; and at least once before going on. */
  lemma ReadinessWaitIsBounded(cfg: seq<Service>, log: seq<Obs>, i: nat)
    requires Accepted(cfg, log) && i < |cfg|
    ensures Polls(log, i) <= 5 * cfg[i].readyTimeoutSecs + 1
  {
    PollsPacedHolds(cfg, log, i);
    ShapeHolds(cfg, log);
  }

  lemma {:induction false} ReadinessIsPolled(cfg: seq<Service>, log: seq<Obs>, i: nat)
    requires Accepted(cfg, log) && i < |cfg| && cfg[i].readyWhen.Some?
    requires var s := Run(cfg, log).value; i < |s.children| && !(s.phase.Awaiting? && s.phase.slot == i)
    requires Gate(i, false) !in log
    ensures Polls(log, i) >= 1
  {
    if log != [] {
      var before, e := log[..|log| - 1], log[|log| - 1];
      var s := Run(cfg, before).value;
      ShapeHolds(cfg, before);
      assert forall x | x in before :: x in log;
      if i < |s.children| && !(s.phase.Awaiting? && s.phase.slot == i) {
        ReadinessIsPolled(cfg, before, i);
      }
    }
  }

  // ---- how it ends ----

  /** The last observation is one that `supervise` gives up on. */
  predicate GivesUp(cfg: seq<Service>, log: seq<Obs>, cause: Cause) {
    && log != []
    && var last := log[|log| - 1];
       match cause
       case WaitFailed(i) => last.Wait? && last.slot == i && last.result.WaitError?
       case RequiredExited(i) => i < |cfg| && cfg[i].restart.Never? && ExitOf(last, i)
       case RespawnFailed(i) =>
         |log| > 1 && ExitOf(log[|log| - 2], i) && last.Spawn? && last.slot == i && last.child.None?
       case StartFailed(_) => false
  }

  lemma ExitThenRespawning(cfg: seq<Service>, log: seq<Obs>, i: nat)
    requires Accepted(cfg, log) && log != [] && ExitOf(log[|log| - 1], i)
    ensures Run(cfg, log).value.phase == Respawning(i) || Run(cfg, log).value.phase.Ended?
  {
    ShapeHolds(cfg, log[..|log| - 1]);
  }

  lemma StepEndsExactly(cfg: seq<Service>, s: State, e: Obs, cause: Cause)
    requires Shape(cfg, s) && (s.phase.Visiting? || s.phase.Kicking? || s.phase.Respawning?)
    requires Next(cfg, s, e).Some?
    ensures Next(cfg, s, e).value.phase == Ended(cause) <==>
              match cause
              case WaitFailed(i) => e.Wait? && e.slot == i && e.result.WaitError?
              case RequiredExited(i) => i < |cfg| && cfg[i].restart.Never? && ExitOf(e, i)
              case RespawnFailed(i) => s.phase == Respawning(i) && e.Spawn? && e.slot == i && e.child.None?
              case StartFailed(_) => false
  {
  }

  /** Once `start_services` is through, the loop is at its end exactly when the last thing was
      the exit of a `Never` service, a failed wait or a failed restart, and for that cause. A
      failed start of a deferred service does not end it. */
  lemma SuperviseEndsExactly(cfg: seq<Service>, before: seq<Obs>, e: Obs, cause: Cause)
    requires Accepted(cfg, before) && Accepted(cfg, before + [e])
    requires var phase := Run(cfg, before).value.phase; phase.Visiting? || phase.Kicking? || phase.Respawning?
    ensures Run(cfg, before + [e]).value.phase == Ended(cause) <==> GivesUp(cfg, before + [e], cause)
  {
    var log, s := before + [e], Run(cfg, before).value;
    RunSnoc(cfg, before, e);
    ShapeHolds(cfg, before);
    StepEndsExactly(cfg, s, e, cause);
    if cause.RespawnFailed? {
      if s.phase.Respawning? {
        RespawnFollowsExit(cfg, before);
      }
      if before != [] && ExitOf(before[|before| - 1], cause.slot) {
        ExitThenRespawning(cfg, before, cause.slot);
      }
      assert before != [] ==> log[|log| - 2] == before[|before| - 1];
    }
  }

  // ---- every service is visited every tick ----

  function Visits(log: seq<Obs>, i: nat): nat {
    if log == [] then 0
    else
      var e := log[|log| - 1];
      Visits(log[..|log| - 1], i) + (if (e.Gate? || e.Wait?) && e.slot == i then 1 else 0)
  }

  ghost predicate Visited(s: State, i: nat, visits: nat) {
    match s.phase
    case Visiting(p) => visits == if i < p then 1 else 0
    case Kicking(p) => visits == if i <= p then 1 else 0
    case Respawning(p) => visits == if i <= p then 1 else 0
    case Ended(_) => true
    case _ => false
  }

  lemma VisitStep(cfg: seq<Service>, s: State, e: Obs, i: nat, visits: nat)
    requires Shape(cfg, s) && Next(cfg, s, e).Some? && i < |cfg| && !e.Sleep? && Visited(s, i, visits)
    ensures Visited(Next(cfg, s, e).value, i, visits + if (e.Gate? || e.Wait?) && e.slot == i then 1 else 0)
  {
  }

  lemma {:induction false} VisitsSoFar(cfg: seq<Service>, before: seq<Obs>, tick: seq<Obs>, i: nat)
    requires Accepted(cfg, before + tick) && i < |cfg|
    requires Accepted(cfg, before) && Run(cfg, before).value.phase == Visiting(0)
    requires Sleep !in tick
    ensures Visited(Run(cfg, before + tick).value, i, Visits(tick, i))
    decreases |tick|
  {
    if tick == [] {
      assert before + tick == before;
    } else {
      var rest := tick[..|tick| - 1];
      assert (before + tick)[..|before + tick| - 1] == before + rest;
      assert forall x | x in rest :: x in tick;
      assert tick[|tick| - 1] in tick;
      VisitsSoFar(cfg, before, rest, i);
      ShapeHolds(cfg, before + rest);
      VisitStep(cfg, Run(cfg, before + rest).value, tick[|tick| - 1], i, Visits(rest, i));
    }
  }

  /** A whole tick, from one sleep to the next, looks at every service exactly once: at the
      marker of a deferred one, at the child of a started one. */
  lemma EveryTickVisitsAll(cfg: seq<Service>, before: seq<Obs>, tick: seq<Obs>, i: nat)
    requires Accepted(cfg, before + tick + [Sleep]) && i < |cfg|
    requires Accepted(cfg, before) && Run(cfg, before).value.phase == Visiting(0)
    requires Sleep !in tick
    ensures Visits(tick, i) == 1
  {
    var log := before + tick + [Sleep];
    assert log[..|log| - 1] == before + tick;
    VisitsSoFar(cfg, before, tick, i);
    ShapeHolds(cfg, before + tick);
  }
}
