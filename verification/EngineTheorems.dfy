/** What holds of every run of the engine, whatever the interleaving, the faults and the thread starts. */
module EngineTheorems {
  import opened Collections
  import opened EngineTypes
  import opened Workers
  import opened Coordinator
  import opened EngineInvariants
  import opened DispatchProofs
  import opened AdvanceProofs
  import opened EventProofs
  import opened HandleProofs
  import opened StepProofs
  import opened EngineSystem
  import opened SystemProofs
  import opened WorkerProofs
  import opened PostProofs

  lemma NextInv(env: Env, s: System, step: Step)
    requires ValidEnv(env) && Inv(env, s) && Enabled(s, step)
    ensures Inv(env, Next(env, s, step))
  {
    hide Inv, Handle, Call, RunJob, Unwind, PostJob, PostMaintained, Leave;
    match step
    case Submit(_, _) => CallInv(env, s, step);
    case RequestMaintenance => CallInv(env, s, step);
    case RequestFlush => CallInv(env, s, step);
    case RequestClose => CallInv(env, s, step);
    case CloneHandle => HandlesInv(env, s, s.handles + 1);
    case DropHandle => HandlesInv(env, s, s.handles - 1);
    case Coordinate => CoordinateInv(env, s);
    case Disconnect => LeaveInv(env, s);
    case Run(i, fault) => RunInv(env, s, i, fault);
    case Panic(i, applied) => UnwindInv(env, s, i, applied);
    case Post(i) => PostInv(env, s, i);
    case PostMaintenance(i, report) => PostMaintenanceInv(env, s, i, report);
  }

  lemma {:induction false} RunsInv(env: Env, s: System, run: seq<Step>)
    requires ValidEnv(env) && Inv(env, s) && Legal(env, s, run)
    ensures Inv(env, Outcome(env, s, run))
    decreases |run|
  {
    hide Inv, Next;
    if run != [] {
      NextInv(env, s, run[0]);
      RunsInv(env, Next(env, s, run[0]), run[1..]);
    }
  }

  /** A state some run of a newly opened store leads to. */
  ghost predicate Reachable(env: Env, s: System)
    requires ValidEnv(env)
  {
    exists disk, run :: Legal(env, Opened(disk), run) && Outcome(env, Opened(disk), run) == s
  }

  lemma ReachableInv(env: Env, s: System)
    requires ValidEnv(env) && Reachable(env, s)
    ensures Inv(env, s)
  {
    hide Inv;
    var disk, run :| Legal(env, Opened(disk), run) && Outcome(env, Opened(disk), run) == s;
    OpenedInv(env, disk);
    RunsInv(env, Opened(disk), run);
  }

  // ---- Refinement of a sequential store -----------------------------------------------------

  /** The disk is what replaying the accepted operations one by one in receive order leaves. */
  lemma SequentialDisk(env: Env, s: System)
    requires ValidEnv(env) && Reachable(env, s)
    ensures forall key: KeyHash :: Get(s.disk, key) == ValueAt(s.initial, s.c.order, s.c.fate, key, |s.c.order|)
  {
    ReachableInv(env, s);
  }

  /** Operations of one key take effect, and end, in receive order. */
  lemma EffectsInOrder(env: Env, s: System, i: nat, j: nat)
    requires ValidEnv(env) && Reachable(env, s)
    requires i < j < |s.c.order| && s.c.order[i].key == s.c.order[j].key && s.c.order[j].id in s.c.fate
    ensures s.c.order[i].id in s.c.fate
  {
    ReachableInv(env, s);
  }

  // ---- Exactly-once resolution -----------------------------------------------------------------

  /** Every endpoint handed out is in exactly one place; once the coordinator has stopped that place is
      the replies, so each was answered or dropped exactly once. */
  lemma ExactlyOnce(env: Env, s: System)
    requires ValidEnv(env) && Reachable(env, s)
    ensures forall id: nat :: Endpoints(s.c)[id] == if id < s.nextId then 1 else 0
    ensures !s.c.running ==> forall id: nat :: Tally(ReplyIds(), s.c.replies)[id] == if id < s.nextId then 1 else 0
  {
    hide Core, Shape, Awake, Admitted, Replayed, Verdicts, Endpoints, Drained;
    ReachableInv(env, s);
    if !s.c.running {
      DrainedEndpoints(s.c);
    }
  }

  lemma DrainedEmpty(c: Coord)
    requires Drained(c)
    ensures c.pending == [] && c.channel == []
  {
  }

  lemma DrainedEndpoints(c: Coord)
    requires Drained(c)
    ensures Endpoints(c) == Tally(ReplyIds(), c.replies)
  {
  }

  // ---- Barriers -----------------------------------------------------------------------------------

  /** When a flush was acknowledged or maintenance started, exactly the submissions received before it had
      been dispatched, and each of them has its answer. Maintenance runs with nothing active or queued. */
  lemma BarriersHonoured(env: Env, s: System)
    requires ValidEnv(env) && Reachable(env, s)
    ensures forall b :: 0 <= b < |s.c.barriers| ==>
              && s.c.barriers[b].moved == s.c.barriers[b].mark <= |s.c.order|
              && s.c.barriers[b].answered <= |s.c.replies|
              && forall i :: 0 <= i < |s.c.order| ==>
                   (i < s.c.barriers[b].mark
                    <==> s.c.order[i].id in Tally(OpReplyIds(), s.c.replies[..s.c.barriers[b].answered]))
    ensures s.c.maintenanceActive ==> s.c.active == {} && s.c.queues == map[]
  {
    ReachableInv(env, s);
    hide Tokens, Lines, Fifo, Distinct, Known, AllRunnable, Backlog, InFlight, Answered, Settled, Replayed, Accounted,
      Admitted, Verdicts;
  }

  // ---- No lost wake-up and drain ------------------------------------------------------------------

  /** A worker still has a job, or a completion is in the channel. */
  predicate WakeUpDue(c: Coord) {
    || c.jobs != []
    || exists i :: 0 <= i < |c.channel| && (c.channel[i].Completion? || c.channel[i].MaintenanceCompletion?)
  }

  lemma BusyIsDue(c: Coord)
    requires Tokens(c.jobs, c.channel, c.active, c.maintenanceActive) && (c.active != {} || c.maintenanceActive)
    ensures WakeUpDue(c)
  {
    if c.jobs == [] {
      if c.maintenanceActive {
        assert |FlatMap(MaintenanceDone(), c.channel)| == 1;
        SomeEvent(MaintenanceDone(), c.channel);
      } else {
        var key :| key in c.active;
        assert |FlatMap(CompletionFor(key), c.channel)| == 1;
        SomeEvent(CompletionFor(key), c.channel);
      }
    }
  }

  lemma {:induction false} SomeEvent(f: Event -> seq<Event>, channel: seq<Event>)
    requires FlatMap(f, channel) != []
    ensures exists i :: 0 <= i < |channel| && f(channel[i]) != []
  {
    if f(channel[0]) == [] {
      SomeEvent(f, channel[1..]);
      var i :| 0 <= i < |channel[1..]| && f(channel[1..][i]) != [];
      assert channel[i + 1] == channel[1..][i];
    }
  }

  /** Whatever waits in a queue or in the deque of a running coordinator will be looked at again. */
  lemma NoLostWakeUp(env: Env, s: System)
    requires ValidEnv(env) && Reachable(env, s) && s.c.running
    requires s.c.pending != [] || !AllQueuesEmpty(s.c.queues)
    ensures WakeUpDue(s.c)
  {
    ReachableInv(env, s);
    hide Lines, Fifo, Distinct, Known, AllRunnable, Backlog, BarriersHeld, InFlight, Answered, Settled,
      Replayed, Accounted, Admitted, Verdicts, Tokens;
    if s.c.active == {} {
      assert |s.c.active| < env.limit;
    }
    BusyIsDue(s.c);
  }

  /** The receive loop ends by disconnection only when nothing at all is left to do, and then every
      endpoint ever handed out has been resolved; it leaves the store closed. */
  lemma DrainOnLastDrop(env: Env, s: System)
    requires ValidEnv(env) && Reachable(env, s) && Enabled(s, Disconnect)
    ensures Drained(s.c)
    ensures forall id: nat :: Tally(ReplyIds(), s.c.replies)[id] == if id < s.nextId then 1 else 0
    ensures Next(env, s, Disconnect).c.lifecycle == Closed
  {
    ReachableInv(env, s);
    NothingLeft(env, s);
    DisconnectStep(env, s);
    hide Core, Shape, Awake, Admitted, Replayed, Verdicts;
    assert Endpoints(s.c) == Tally(ReplyIds(), s.c.replies);
  }

  // ---- Work conservation and workers ---------------------------------------------------------------

  /** No slot is idle while an idle key waits; an empty queue is kept only for an active key; and an idle
      coordinator keeps no queue at all. */
  lemma WorkConserving(env: Env, s: System)
    requires ValidEnv(env) && Reachable(env, s) && s.c.running
    ensures |s.c.active| <= env.limit
    ensures |s.c.active| == env.limit
         || forall key :: key in s.c.queues && s.c.queues[key] != [] ==> key in s.c.active
    ensures forall key :: key in s.c.queues && s.c.queues[key] == [] ==> key in s.c.active
    ensures s.c.active == {} ==> s.c.queues == map[]
  {
    ReachableInv(env, s);
    hide Core, Replayed, Accounted, Admitted, Verdicts;
    if s.c.active == {} {
      assert |s.c.active| < env.limit;
    }
  }

  function JobKeys(jobs: seq<Job>): set<KeyHash> {
    set i | 0 <= i < |jobs| && !jobs[i].Maintain? ::
      match jobs[i]
      case Fresh(op) => op.key
      case Finished(op, _) => op.key
      case Crashed(key) => key
      case Maintain(_) => 0
  }

  lemma {:induction false} DistinctJobKeys(jobs: seq<Job>)
    requires forall key: KeyHash :: |FlatMap(JobFor(key), jobs)| <= 1
    requires FlatMap(MaintenanceJob(), jobs) == []
    ensures |JobKeys(jobs)| == |jobs|
    ensures forall key :: key in JobKeys(jobs) ==> |FlatMap(JobFor(key), jobs)| == 1
  {
    if jobs == [] {
      assert JobKeys(jobs) == {};
    } else {
      var rest := jobs[1..];
      forall key: KeyHash
        ensures |FlatMap(JobFor(key), rest)| <= 1
      {
        assert |FlatMap(JobFor(key), jobs)| <= 1;
      }
      DistinctJobKeys(rest);
      var key :=
        match jobs[0]
        case Fresh(op) => op.key
        case Finished(op, _) => op.key
        case Crashed(k) => k
        case Maintain(_) => 0;
      assert IsJobFor(jobs[0], key);
      assert |FlatMap(JobFor(key), jobs)| <= 1;
      assert key !in JobKeys(rest);
      KeysCons(jobs, key);
    }
  }

  lemma KeysCons(jobs: seq<Job>, key: KeyHash)
    requires jobs != [] && IsJobFor(jobs[0], key)
    ensures JobKeys(jobs) == {key} + JobKeys(jobs[1..])
  {
    forall k | k in JobKeys(jobs[1..])
      ensures k in JobKeys(jobs)
    {
      var i :| 0 <= i < |jobs[1..]| && IsJobFor(jobs[1..][i], k);
      assert IsJobFor(jobs[i + 1], k);
    }
    forall k | k in JobKeys(jobs)
      ensures k == key || k in JobKeys(jobs[1..])
    {
      var i :| 0 <= i < |jobs| && IsJobFor(jobs[i], k);
      if i > 0 {
        assert IsJobFor(jobs[1..][i - 1], k);
      }
    }
  }

  /** Every job handed to the pool has a worker of its own, so none waits behind a stalled stream. */
  lemma WorkerSufficiency(env: Env, s: System)
    requires ValidEnv(env) && Reachable(env, s) && s.c.running
    ensures |s.c.jobs| <= s.c.pool.workers <= env.limit
    ensures |s.c.active| <= s.c.pool.workers
    ensures s.c.pool.open
  {
    ReachableInv(env, s);
    hide Lines, Fifo, Distinct, Known, AllRunnable, Backlog, BarriersHeld, InFlight, Answered, Settled,
      Replayed, Accounted, Admitted, Verdicts, Conserving, Hygienic, ClosesLast, Awake;
    JobsWithinSlots(s.c);
  }

  lemma JobsWithinSlots(c: Coord)
    requires Tokens(c.jobs, c.channel, c.active, c.maintenanceActive)
    requires c.maintenanceActive ==> c.active == {}
    ensures !c.maintenanceActive ==> |c.jobs| <= |c.active|
    ensures c.maintenanceActive ==> |c.jobs| <= 1 && (c.jobs != [] ==> FlatMap(MaintenanceJob(), c.jobs) != [])
  {
    if c.maintenanceActive {
      NoSlotsNoJobs(c);
      AllMaintain(c.jobs);
    } else {
      forall key: KeyHash
        ensures |FlatMap(JobFor(key), c.jobs)| <= 1
      {
        assert |FlatMap(JobFor(key), c.jobs)| + |FlatMap(CompletionFor(key), c.channel)| <= 1;
      }
      DistinctJobKeys(c.jobs);
      assert JobKeys(c.jobs) <= c.active;
      SubsetSize(JobKeys(c.jobs), c.active);
    }
  }

  lemma {:induction false} AllMaintain(jobs: seq<Job>)
    requires forall i :: 0 <= i < |jobs| ==> jobs[i].Maintain?
    ensures FlatMap(MaintenanceJob(), jobs) == jobs
  {
    if jobs != [] {
      AllMaintain(jobs[1..]);
      assert jobs == [jobs[0]] + jobs[1..];
    }
  }

  // ---- Close agreement ------------------------------------------------------------------------------

  function Rank(lifecycle: Lifecycle): nat {
    match lifecycle
    case Open => 0
    case Closing => 1
    case Closed => 2
    case ShutdownFailed => 2
    case Failed => 3
  }

  /** Every close caller gets the verdict that the lifecycle records, so all of them agree; closing leaves
      nothing behind; and behind the first waiting close there are only closes. */
  lemma CloseAgreement(env: Env, s: System)
    requires ValidEnv(env) && Reachable(env, s)
    ensures forall j :: 0 <= j < |s.c.replies| && s.c.replies[j].CloseReply? ==>
              !s.c.running && s.c.replies[j].closed == Verdict(s.c.lifecycle == Closed)
    ensures s.c.running <==> s.c.lifecycle == Open || s.c.lifecycle == Closing
    ensures s.c.lifecycle != Failed
    ensures !s.c.running ==> Drained(s.c)
    ensures forall i, j :: 0 <= i < j < |s.c.pending| && s.c.pending[i].PendingClose? ==> s.c.pending[j].PendingClose?
  {
    hide Core, Accounted, Admitted, Replayed, Capacity, Conserving, Hygienic, Exclusive, Awake, Drained;
    ReachableInv(env, s);
    RunningWhileOpen(env, s);
    if Drained(s.c) {
      assert s.c.pending == [] by {
        DrainedEmpty(s.c);
      }
    }
  }

  /** The lifecycle only moves forward, and a verdict once published is never changed. */
  lemma LifecycleForward(env: Env, s: System, step: Step)
    requires ValidEnv(env) && Reachable(env, s) && Enabled(s, step)
    ensures var t := Next(env, s, step).c.lifecycle;
            && Rank(s.c.lifecycle) <= Rank(t)
            && (Rank(s.c.lifecycle) >= 2 ==> t == s.c.lifecycle)
  {
    hide Inv, Handle, Call, RunJob, Unwind, PostJob, PostMaintained, Next, Enabled, Reachable;
    var t := Next(env, s, step);
    ReachableInv(env, s);
    RunningWhileOpen(env, s);
    NextInv(env, s, step);
    RunningWhileOpen(env, t);
    if step.Coordinate? {
      CoordinateStep(env, s);
      if s.c.lifecycle == Closing {
        KeepsClosing(env, s.c);
      }
    } else if step.Disconnect? {
      DisconnectStep(env, s);
    } else {
      OthersKeepLifecycle(env, s, step);
    }
  }

  lemma CoordinateStep(env: Env, s: System)
    requires ValidEnv(env) && Enabled(s, Coordinate)
    ensures s.c.running && s.c.channel != [] && Next(env, s, Coordinate).c == Handle(env, s.c)
  {
    hide Handle;
  }

  lemma DisconnectStep(env: Env, s: System)
    requires ValidEnv(env) && Enabled(s, Disconnect)
    ensures s.c.running && Next(env, s, Disconnect).c.lifecycle == Closed
  {
  }

  lemma OthersKeepLifecycle(env: Env, s: System, step: Step)
    requires ValidEnv(env) && Enabled(s, step) && !step.Coordinate? && !step.Disconnect?
    ensures Next(env, s, step).c.lifecycle == s.c.lifecycle
    ensures Next(env, s, step).c.running == s.c.running
  {
    hide Decide, Apply, Put, Get, Without, CompletionOf, Handle, Leave, Call, RunJob;
    if step.Submit? || step.RequestMaintenance? || step.RequestFlush? || step.RequestClose? {
      assert Next(env, s, step) == Call(s, step);
      CallSplits(s, step);
    } else if step.Run? {
      RunKeepsLifecycle(s, step.job, step.fault);
    }
  }

  lemma RunKeepsLifecycle(s: System, i: nat, fault: Fault)
    requires ValidJob(s, i) && s.c.jobs[i].Fresh?
    ensures RunJob(s, i, fault).c.lifecycle == s.c.lifecycle && RunJob(s, i, fault).c.running == s.c.running
  {
    hide Decide, Apply, Put, Get;
  }

  lemma KeepsClosing(env: Env, c: Coord)
    requires ValidEnv(env) && c.channel != [] && c.lifecycle == Closing
    ensures Handle(env, c).lifecycle != Open
  {
    hide Advance, Release;
    var rest := c.(channel := c.channel[1..]);
    match c.channel[0]
    case Submission(_) =>
    case Maintenance(_) =>
    case Flush(_) =>
    case Completion(key, outcome) =>
      ReleaseFrame(env, rest, key);
      var r := Release(env, rest, key);
      AdvanceFrame(env, r);
      if outcome.Some? {
        AdvanceFrame(env, Respond(r, OpReply(outcome.value.0, Delivered(outcome.value.1))));
      }
    case MaintenanceCompletion(report) =>
      var r := rest.(maintenanceActive := false);
      AdvanceFrame(env, r);
      if report.Some? {
        AdvanceFrame(env, Respond(r, MaintenanceReply(report.value.0, Some(report.value.1))));
      }
    case Close(id) =>
      AdvanceFrame(env, Barred(rest, PendingClose(id)));
  }

  // ---- Panic points ----------------------------------------------------------------------------------

  /** A result always answers its operation, a job about to run still owns its endpoints, and the shutdown
      drain meets no completion. */
  lemma PanicPointsUnreachable(env: Env, s: System)
    requires ValidEnv(env) && Reachable(env, s)
    ensures forall i :: 0 <= i < |s.c.channel| && s.c.channel[i].Completion? && s.c.channel[i].outcome.Some? ==>
              Matches(s.c.channel[i].outcome.value.0.operation, s.c.channel[i].outcome.value.1)
    ensures forall i :: 0 <= i < |s.c.jobs| && s.c.jobs[i].Fresh? ==> Runnable(s.c.jobs[i].op.operation)
    ensures s.c.running && s.c.pending != [] && !s.c.maintenanceActive ==> !s.c.pending[0].PendingSubmission?
  {
    ReachableInv(env, s);
    hide Tokens, Lines, Fifo, Distinct, Known, Backlog, BarriersHeld, Answered, Settled, Accounted, Admitted, Replayed,
      Capacity, Conserving, Hygienic, Exclusive, ClosesLast, Matches;
  }
}
