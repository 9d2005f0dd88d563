/** The worker pool never outgrows the demand it has met. */
module PoolGrowth {
  import opened Collections
  import opened EngineTypes
  import opened Workers
  import opened Coordinator
  import opened EngineInvariants
  import opened EngineSystem

  /** The workers that the work under way needs. */
  function Demand(c: Coord): nat {
    if |c.active| == 0 && c.maintenanceActive then 1 else |c.active|
  }

  /** Nothing under way was given up, and no worker was added beyond what is now needed. */
  predicate GrowsBy(c: Coord, d: Coord) {
    && |c.active| <= |d.active| && (c.maintenanceActive ==> d.maintenanceActive)
    && (d.pool.workers <= c.pool.workers || d.pool.workers <= Demand(d))
  }

  lemma DispatchGrows(env: Env, c: Coord, key: KeyHash)
    ensures GrowsBy(c, DispatchIfIdle(env, c, key))
  {
    assert key !in c.active ==> |c.active + {key}| == |c.active| + 1;
  }

  lemma {:induction false} AvailableGrows(env: Env, c: Coord)
    requires ValidEnv(env)
    ensures GrowsBy(c, DispatchAvailable(env, c))
    decreases |QueueIds(c.queues)|
  {
    hide DispatchIfIdle, QueueIds;
    if |c.active| < env.limit && Ready(c) != {} {
      var key := env.choose(c.picks, Ready(c));
      var picked := c.(picks := c.picks + 1);
      DispatchShrinks(env, picked, key);
      DispatchGrows(env, picked, key);
      AvailableGrows(env, DispatchIfIdle(env, picked, key));
    }
  }

  lemma MaintenanceGrows(env: Env, c: Coord, id: nat, mark: nat)
    ensures GrowsBy(c, DispatchMaintenance(env, c.(maintenanceActive := true), id, mark))
  {
  }

  lemma {:induction false} AdvanceGrows(env: Env, c: Coord)
    requires ValidEnv(env)
    ensures GrowsBy(c, Advance(env, c))
    decreases |c.pending|
  {
    hide DispatchIfIdle, DispatchMaintenance, Honour, Busy;
    if !c.maintenanceActive && c.pending != [] {
      var rest := c.(pending := c.pending[1..]);
      match c.pending[0]
      case PendingMaintenance(id, mark) =>
        MaintenanceGrows(env, rest, id, mark);
      case PendingSubmission(op) =>
        DispatchKeepsPending(env, Enqueue(rest, op), op.key);
        DispatchGrows(env, Enqueue(rest, op), op.key);
        AdvanceGrows(env, DispatchIfIdle(env, Enqueue(rest, op), op.key));
      case PendingFlush(id, mark) =>
        if !Busy(c) {
          HonourKeeps(rest, id, mark);
          AdvanceGrows(env, Respond(Honour(rest, id, mark), FlushReply(id, Ok(()))));
        }
      case PendingClose(_) =>
    }
  }

  lemma HonourKeeps(c: Coord, id: nat, mark: nat)
    ensures var d := Honour(c, id, mark);
            && d.active == c.active && d.pool == c.pool
            && d.maintenanceActive == c.maintenanceActive && d.pending == c.pending
  {
  }

  lemma ReleaseGrows(env: Env, c: Coord, key: KeyHash)
    requires ValidEnv(env)
    ensures GrowsBy(c.(active := c.active - {key}), Release(env, c, key))
  {
    hide DispatchIfIdle, DispatchAvailable;
    var freed := c.(active := c.active - {key});
    DispatchGrows(env, freed, key);
    AvailableGrows(env, DispatchIfIdle(env, freed, key));
  }

  predicate Justified(c: Coord, d: Coord) {
    d.pool.workers <= c.pool.workers || d.pool.workers <= Demand(d)
  }

  lemma StopGrows(env: Env, c: Coord, d: Coord)
    requires Justified(c, d)
    ensures Justified(c, StopIfClosed(env, d))
  {
  }

  lemma FinishGrows(env: Env, c: Coord, d: Coord)
    requires ValidEnv(env) && Justified(c, d)
    ensures Justified(c, StopIfClosed(env, Advance(env, d)))
  {
    hide StopIfClosed, Advance;
    AdvanceGrows(env, d);
    StopGrows(env, c, Advance(env, d));
  }

  lemma SubmissionGrows(env: Env, c: Coord, op: Op)
    requires ValidEnv(env)
    ensures Justified(c, OnSubmission(env, c, op))
  {
    hide DispatchIfIdle, DispatchAvailable, StopIfClosed;
    var queued := Enqueue(c.(order := c.order + [op]), op);
    var begun := DispatchIfIdle(env, queued, op.key);
    DispatchGrows(env, queued, op.key);
    AvailableGrows(env, begun);
    StopGrows(env, c, DispatchAvailable(env, begun));
  }

  lemma HandleGrows(env: Env, c: Coord)
    requires ValidEnv(env) && c.channel != []
    ensures Justified(c, Handle(env, c))
  {
    hide Advance, Release, StopIfClosed, OnSubmission;
    var rest := c.(channel := c.channel[1..]);
    match c.channel[0]
    case Submission(op) =>
      SubmissionGrows(env, rest, op);
    case Completion(key, outcome) =>
      ReleaseGrows(env, rest, key);
      var r := Release(env, rest, key);
      FinishGrows(env, c,
        if outcome.Some? then Respond(r, OpReply(outcome.value.0, Delivered(outcome.value.1))) else r);
    case Maintenance(id) =>
      FinishGrows(env, c, rest.(pending := rest.pending + [PendingMaintenance(id, |rest.order|)]));
    case MaintenanceCompletion(report) =>
      var r := rest.(maintenanceActive := false);
      FinishGrows(env, c,
        if report.Some? then Respond(r, MaintenanceReply(report.value.0, Some(report.value.1))) else r);
    case Flush(id) =>
      FinishGrows(env, c, rest.(pending := rest.pending + [PendingFlush(id, |rest.order|)]));
    case Close(id) =>
      FinishGrows(env, c,
        match c.lifecycle
        case Open => rest.(lifecycle := Closing, pending := rest.pending + [PendingClose(id)])
        case Closing => rest.(pending := rest.pending + [PendingClose(id)])
        case Closed => Respond(rest, CloseReply(id, Ok(())))
        case ShutdownFailed => Respond(rest, CloseReply(id, Err(ShutdownFailure)))
        case Failed => Respond(rest, CloseReply(id, Err(ShutdownFailure))));
  }

  /** The largest demand met along a run. */
  function Peak(env: Env, s: System, run: seq<Step>): nat
    requires ValidEnv(env) && Legal(env, s, run)
    decreases |run|
  {
    if run == [] then Demand(s.c)
    else
      var later := Peak(env, Next(env, s, run[0]), run[1..]);
      if later < Demand(s.c) then Demand(s.c) else later
  }

  lemma StepGrows(env: Env, s: System, step: Step)
    requires ValidEnv(env) && Enabled(s, step)
    ensures Justified(s.c, Next(env, s, step).c)
  {
    hide Handle, Call, Decide, Apply, Put, Get, Without, CompletionOf;
    if step.Coordinate? {
      HandleGrows(env, s.c);
    } else if step.Submit? || step.RequestMaintenance? || step.RequestFlush? || step.RequestClose? {
      CallSplits(s, step);
    }
  }

  lemma {:induction false} WorkersWithinPeak(env: Env, s: System, run: seq<Step>)
    requires ValidEnv(env) && Legal(env, s, run)
    ensures var t := Outcome(env, s, run); t.c.pool.workers <= s.c.pool.workers || t.c.pool.workers <= Peak(env, s, run)
    decreases |run|
  {
    hide Next, Enabled, Demand;
    if run != [] {
      StepGrows(env, s, run[0]);
      WorkersWithinPeak(env, Next(env, s, run[0]), run[1..]);
      PeakCoversStart(env, Next(env, s, run[0]), run[1..]);
    }
  }

  lemma PeakCoversStart(env: Env, s: System, run: seq<Step>)
    requires ValidEnv(env) && Legal(env, s, run)
    ensures Demand(s.c) <= Peak(env, s, run)
  {
  }

  /** On every run of a new store, the pool has no more workers than were ever needed at once, however
      many thread starts failed on the way. */
  lemma GrowthFollowsDemand(env: Env, disk: map<KeyHash, Blob>, run: seq<Step>)
    requires ValidEnv(env) && Legal(env, Opened(disk), run)
    ensures Outcome(env, Opened(disk), run).c.pool.workers <= Peak(env, Opened(disk), run)
  {
    hide Next, Enabled, Demand, Legal, Outcome, Peak;
    WorkersWithinPeak(env, Opened(disk), run);
  }
}
