/** initd's service code: it keeps one slot per configured service and updates the slots in
    place. What it observes and does is always a log that the automaton accepts. */
module Initd {
  import opened Storage
  import opened Supervision

  /** `child` is None until the service has been started. */
  datatype RunningService = RunningService(spec: Service, child: Option<nat>)

  function Slot(r: RunningService): Child {
    if r.child.None? then Deferred else Live(r.child.value)
  }

  function Children(running: seq<RunningService>): seq<Child> {
    seq(|running|, i requires 0 <= i < |running| => Slot(running[i]))
  }

  /** What a spawn in `supervise` leads to, with the new child in its slot. */
  lemma LaunchStep(services: seq<Service>, log: seq<Obs>, running: seq<RunningService>, i: nat, child: Option<nat>, now: nat)
    requires i < |services| == |running|
    requires Run(services, log) == Some(State(Kicking(i), Children(running)))
          || Run(services, log) == Some(State(Respawning(i), Children(running)))
    ensures Run(services, log + [Spawn(i, child, now)])
         == Some(State(
              if child.Some? || Run(services, log).value.phase.Kicking? then Visiting(i + 1) else Ended(RespawnFailed(i)),
              Children(if child.Some? then running[i := running[i].(child := child)] else running)))
  {
    RunSnoc(services, log, Spawn(i, child, now));
    if child.Some? {
      assert Children(running[i := running[i].(child := child)]) == Children(running)[i := Live(child.value)];
    }
  }

  lemma PollStep(services: seq<Service>, c: seq<Child>, slot: nat, deadline: nat, earliest: nat, seen: bool, now: nat)
    requires slot < |services| && now >= earliest
    ensures Next(services, State(Awaiting(slot, deadline, earliest), c), Ready(slot, seen, now))
         == Some(State(
              if seen || now >= deadline then StartAt(services, slot + 1) else Awaiting(slot, deadline, now + READY_POLL_INTERVAL),
              c))
  {
  }

  class Init {
    const services: seq<Service>
    var running: seq<RunningService>
    var clock: nat
    ghost var log: seq<Obs>
    ghost var sleeps: nat          // how often it slept between two ticks

    constructor (services: seq<Service>)
      ensures this.services == services && running == [] && log == [] && sleeps == 0
    {
      this.services, running, log := services, [], [];
      clock, sleeps := 0, 0;
    }

    /** The log leads the automaton to this phase, over the slots as they are. */
    ghost predicate Leads(phase: Phase)
      reads this
    {
      Run(services, log) == Some(State(phase, Children(running)))
    }

    /** And slot `i` holds the i-th configured service. */
    ghost predicate In(phase: Phase)
      reads this
    {
      && Leads(phase)
      && |running| <= |services|
      && forall i | 0 <= i < |running| :: running[i].spec == services[i]
    }

    // ---- the environment ----

    method StartMarkerExists(slot: nat) returns (seen: bool)
      modifies `log
      ensures log == old(log) + [Gate(slot, seen)]
    {
      seen := *;
      log := log + [Gate(slot, seen)];
    }

    method SpawnService(slot: nat) returns (child: Option<nat>)
      modifies `log, `clock
      ensures clock >= old(clock)
      ensures log == old(log) + [Spawn(slot, child, clock)]
    {
      var ok: bool, pid: nat := *, *;
      var elapsed: nat :| 0 <= elapsed;
      child := if ok then Some(pid) else None;
      clock := clock + elapsed;
      log := log + [Spawn(slot, child, clock)];
    }

    /** `marker.exists()`, and the time right after. */
    method PollReadyMarker(slot: nat) returns (seen: bool)
      modifies `log, `clock
      ensures clock >= old(clock)
      ensures log == old(log) + [Ready(slot, seen, clock)]
    {
      seen := *;
      var elapsed: nat :| 0 <= elapsed;
      clock := clock + elapsed;
      log := log + [Ready(slot, seen, clock)];
    }

    method TryWait(slot: nat, child: nat) returns (result: WaitResult)
      modifies `log
      ensures log == old(log) + [Wait(slot, child, result)]
    {
      var ok: bool, exited: bool := *, *;
      result := if !ok then WaitError else if exited then Exited else StillRunning;
      log := log + [Wait(slot, child, result)];
    }

    method PauseAtLeast(ms: nat)
      modifies `clock
      ensures clock >= old(clock) + ms
    {
      var more: nat :| 0 <= more;
      clock := clock + ms + more;
    }

    method SleepASecond()
      modifies `log, `clock, `sleeps
      ensures log == old(log) + [Sleep] && clock >= old(clock) + 1000 && sleeps == old(sleeps) + 1
    {
      PauseAtLeast(1000);
      log, sleeps := log + [Sleep], sleeps + 1;
    }

    // ---- the code ----

    /** One look at the ready marker, and then at the clock. */
    method Poll(slot: nat, deadline: nat, ghost earliest: nat) returns (settled: bool)
      requires slot < |services| && Leads(Awaiting(slot, deadline, earliest)) && earliest <= clock
      modifies `log, `clock
      ensures clock >= old(clock)
      ensures settled ==> Leads(StartAt(services, slot + 1))
      ensures !settled ==> Leads(Awaiting(slot, deadline, clock + READY_POLL_INTERVAL)) && clock < deadline
    {
      ghost var before := log;
      var seen := PollReadyMarker(slot);
      PollStep(services, Children(running), slot, deadline, earliest, seen, clock);
      RunSnoc(services, before, Ready(slot, seen, clock));
      settled := seen || clock >= deadline;
    }

    /** `await_ready`: polls until the marker is there or the deadline has passed. */
    method AwaitReady(slot: nat, timeoutSecs: nat)
      requires slot < |services| && services[slot].readyWhen.Some? && timeoutSecs == services[slot].readyTimeoutSecs
      requires Leads(Awaiting(slot, clock + 1000 * timeoutSecs, clock))
      modifies `log, `clock
      ensures Leads(StartAt(services, slot + 1))
      ensures Polls(log, slot) <= 5 * timeoutSecs + 1
    {
      var deadline := clock + 1000 * timeoutSecs;
      ghost var earliest: nat := clock;
      while true
        invariant Leads(Awaiting(slot, deadline, earliest)) && earliest <= clock
        decreases deadline - clock
      {
        var settled := Poll(slot, deadline, earliest);
        if settled { break; }
        earliest := clock + READY_POLL_INTERVAL;
        PauseAtLeast(READY_POLL_INTERVAL);
      }
      WaitIsBounded(slot);
    }

    lemma WaitIsBounded(slot: nat)
      requires slot < |services| && Leads(StartAt(services, slot + 1))
      ensures Polls(log, slot) <= 5 * services[slot].readyTimeoutSecs + 1
    {
      ReadinessWaitIsBounded(services, log, slot);
    }

    lemma ChildrenAppend(r: RunningService)
      ensures Children(running + [r]) == Children(running) + [Slot(r)]
    {
    }

    /** Defers slot `i` when its start marker is missing. */
    method Defers(i: nat) returns (deferred: bool)
      requires i < |services| && |running| == i && In(StartAt(services, i))
      modifies this
      ensures deferred ==> |running| == i + 1 && In(StartAt(services, i + 1))
      ensures !deferred ==> |running| == i && In(Launching(i))
    {
      deferred := false;
      if services[i].startWhen.Some? {
        ghost var before := log;
        var seen := StartMarkerExists(i);
        RunSnoc(services, before, Gate(i, seen));
        if !seen {
          ChildrenAppend(RunningService(services[i], None));
          running := running + [RunningService(services[i], None)];
          deferred := true;
        }
      }
    }

    method StartNow(i: nat) returns (ok: bool)
      requires i < |services| && |running| == i && In(Launching(i))
      modifies this
      ensures ok ==> |running| == i + 1 && In(StartAt(services, i + 1))
      ensures !ok ==> In(Ended(StartFailed(i)))
    {
      ghost var before := log;
      var child := SpawnService(i);
      RunSnoc(services, before, Spawn(i, child, clock));
      ok := child.Some?;
      if ok {
        ChildrenAppend(RunningService(services[i], child));
        running := running + [RunningService(services[i], child)];
        if services[i].readyWhen.Some? {
          AwaitReady(i, services[i].readyTimeoutSecs);
        }
      }
    }

    /** `start_services`: in order; a service whose start marker is missing is left for later. */
    method StartServices() returns (ok: bool)
      requires running == [] && log == []
      modifies this
      ensures ok ==> In(Visiting(0)) && |running| == |services|
      ensures !ok ==> exists i :: In(Ended(StartFailed(i)))
    {
      assert Children(running) == [];
      for i := 0 to |services|
        invariant |running| == i && In(StartAt(services, i))
      {
        var deferred := Defers(i);
        if deferred { continue; }
        ok := StartNow(i);
        if !ok { return; }
      }
      ok := true;
    }

    /** Spawns for slot `i` and keeps the child in its slot. */
    method Launch(i: nat) returns (ok: bool)
      requires i < |services| == |running| && (In(Kicking(i)) || In(Respawning(i)))
      modifies `running, `log, `clock
      ensures |running| == |services|
      ensures forall j | 0 <= j < |running| && j != i :: running[j] == old(running[j])
      ensures old(running[i].child.Some?) ==> running[i].child.Some?
      ensures In(if ok || old(In(Kicking(i))) then Visiting(i + 1) else Ended(RespawnFailed(i)))
    {
      ghost var before := log;
      var child := SpawnService(i);
      LaunchStep(services, before, running, i, child, clock);
      ok := child.Some?;
      if ok { running := running[i := running[i].(child := child)]; }
    }

    /** One visit of `supervise` to slot `i`. */
    method Visit(i: nat) returns (end: Option<Cause>)
      requires i < |services| == |running| && In(Visiting(i))
      modifies `running, `log, `clock
      ensures |running| == |services|
      ensures forall j | 0 <= j < |running| && j != i :: running[j] == old(running[j])
      ensures old(running[i].child.Some?) ==> running[i].child.Some?
      ensures end.None? ==> In(Visiting(i + 1))
      ensures end.Some? ==> In(Ended(end.value)) && !end.value.StartFailed?
    {
      ghost var before := log;
      ShapeHolds(services, log);
      end := None;
      if running[i].child.None? {
        var ready := true;
        if services[i].startWhen.Some? {
          ready := StartMarkerExists(i);
          RunSnoc(services, before, Gate(i, ready));
        }
        if ready {
          // A failed start is tried again at the next tick.
          var started := Launch(i);
        }
      } else {
        var result := TryWait(i, running[i].child.value);
        RunSnoc(services, before, Wait(i, running[i].child.value, result));
        match result
        case StillRunning =>
        case WaitError => end := Some(WaitFailed(i));
        case Exited =>
          if running[i].spec.restart.Always? {
            var restarted := Launch(i);
            end := if restarted then None else Some(RespawnFailed(i));
          } else {
            end := Some(RequiredExited(i));
          }
      }
    }

    lemma HoldsLastSpawned(phase: Phase)
      requires In(phase)
      ensures forall i | 0 <= i < |running| :: running[i].child == LastSpawned(log, i)
    {
      forall i | 0 <= i < |running| ensures running[i].child == LastSpawned(log, i) {
        SlotHoldsLastSpawned(services, log, i);
        assert Children(running)[i] == Slot(running[i]);
      }
    }

    /** `supervise`, watched for any number of ticks: it goes on, or ends by an error; either way
        each slot has the child of its service's last spawn. */
    method Supervise(ticks: nat) returns (end: Option<Cause>)
      requires |running| == |services| && In(Visiting(0))
      modifies this
      ensures |running| == |services|
      ensures forall i | 0 <= i < |running| :: running[i].spec == services[i] && (old(running[i].child.Some?) ==> running[i].child.Some?)
      ensures end.None? ==> In(Visiting(0)) && sleeps == old(sleeps) + ticks
      ensures end.Some? ==> In(Ended(end.value)) && !end.value.StartFailed?
      ensures forall i | 0 <= i < |running| :: running[i].child == LastSpawned(log, i)
    {
      ghost var running0 := running;
      for t := 0 to ticks
        invariant |running| == |services| && In(Visiting(0)) && sleeps == old(sleeps) + t
        invariant forall j | 0 <= j < |running| :: running0[j].child.Some? ==> running[j].child.Some?
      {
        for i := 0 to |services|
          invariant |running| == |services| && In(Visiting(i)) && sleeps == old(sleeps) + t
          invariant forall j | 0 <= j < |running| :: running0[j].child.Some? ==> running[j].child.Some?
        {
          end := Visit(i);
          if end.Some? {
            HoldsLastSpawned(Ended(end.value));
            return;
          }
        }
        ghost var before := log;
        SleepASecond();
        RunSnoc(services, before, Sleep);
      }
      end := None;
      HoldsLastSpawned(Visiting(0));
    }
  }
}
