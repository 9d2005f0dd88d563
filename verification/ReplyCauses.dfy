/** What callers are told because of the workers: a refusal is a thread that did not start, and a close tells whether a
    worker panicked. */
module ReplyCauses {
  import opened Collections
  import opened EngineTypes
  import opened Workers
  import opened Coordinator
  import opened EngineInvariants
  import opened HandleProofs
  import opened StepProofs
  import EngineSystem
  import opened SystemProofs
  import opened EngineTheorems
  import opened BarrierWitness
  import opened EventEffects

  type System = EngineSystem.System
  type Step = EngineSystem.Step

  // ---- Stopping ----------------------------------------------------------------------------

  /** None of the first n workers panics. */
  ghost predicate Calm(env: Env, n: nat) {
    forall worker: nat :: worker < n ==> !env.panics(worker)
  }

  /** Whether stopping was a success is for the workers to say: nothing else closes the store. */
  lemma StopVerdict(env: Env, c: Coord)
    requires ValidEnv(env) && c.channel != [] && c.running && Shape(env, c) && Awake(c)
    ensures var d := Handle(env, c);
            if d.running then d.lifecycle == Open || d.lifecycle == Closing
            else d.lifecycle == if Calm(env, c.pool.workers) then Closed else ShutdownFailed
  {
    hide Moves, AllKept, Handle;
    var a := HandleMoves(env, c);
    MovesControl(env, Taken(c), a);
    TakenControl(env, c);
    if MayStop(a) {
      GrowthStops(env, Taken(c), a);
    }
  }

  lemma TakenControl(env: Env, c: Coord)
    requires c.channel != [] && Shape(env, c)
    ensures var b := Taken(c);
            && b.pool == c.pool && b.running == c.running && (b.lifecycle == Open || b.lifecycle == Closing)
            && |b.active| <= b.pool.workers
  {
    hide Conserving, Hygienic, Exclusive, FlatMap, Taken;
    TakenFields(c);
    SubsetSize(Taken(c).active, c.active);
  }

  lemma TakenFields(c: Coord)
    requires c.channel != []
    ensures var b := Taken(c);
            && b.pool == c.pool && b.running == c.running && (b.lifecycle == c.lifecycle || b.lifecycle == Closing)
            && b.active <= c.active
  {
    match c.channel[0]
    case Submission(_) =>
    case Completion(_, _) =>
    case Maintenance(_) =>
    case MaintenanceCompletion(_) =>
    case Flush(_) =>
    case Close(_) =>
  }

  lemma TakenKeeps(c: Coord)
    requires c.channel != []
    ensures var b := Taken(c);
            && b.jobs == c.jobs && b.barriers == c.barriers && b.channel == c.channel[1..]
            && (!c.channel[0].MaintenanceCompletion? ==> b.maintenanceActive == c.maintenanceActive)
  {
    match c.channel[0]
    case Submission(_) =>
    case Completion(_, _) =>
    case Maintenance(_) =>
    case MaintenanceCompletion(_) =>
    case Flush(_) =>
    case Close(_) =>
  }

  lemma TakenGrows(c: Coord)
    requires c.channel != []
    ensures c.replies <= Taken(c).replies && c.pending <= Taken(c).pending
  {
    match c.channel[0]
    case Submission(_) =>
    case Completion(_, _) =>
    case Maintenance(_) =>
    case MaintenanceCompletion(_) =>
    case Flush(_) =>
    case Close(_) =>
  }

  lemma GrowthStops(env: Env, b: Coord, a: Coord)
    requires Moves(env, b, a) && |b.active| <= b.pool.workers && MayStop(a)
    ensures a.pool.workers == b.pool.workers
  {
  }

  /** How the pool and the closes stand: a running coordinator has the workers whose start succeeded; a stopped one has
      published what their joining gave, unless every handle was gone and nobody was told anything. */
  ghost predicate Standing(env: Env, s: System) {
    && (s.c.running ==> s.c.pool.workers == Started(env, s.c.pool.attempts) && NoCloses(s.c.replies))
    && (!s.c.running ==>
          || (s.handles == 0 && s.c.lifecycle == Closed && NoCloses(s.c.replies))
          || s.c.lifecycle == if Calm(env, Started(env, s.c.pool.attempts)) then Closed else ShutdownFailed)
  }

  /** The only way that thread starts are counted. */
  lemma EventStarts(env: Env, c: Coord)
    requires ValidEnv(env) && c.channel != [] && c.running && Shape(env, c) && Awake(c)
    ensures var d := Handle(env, c);
            && c.pool.attempts <= d.pool.attempts
            && (d.running ==>
                  d.pool.workers + Started(env, c.pool.attempts) == c.pool.workers + Started(env, d.pool.attempts))
            && (!d.running ==> Started(env, d.pool.attempts) == Started(env, c.pool.attempts))
  {
    hide AllKept, Handle, Started, Refusals, SameControl, NewServed;
    var a := HandleMoves(env, c);
    assert a.running by { MovesRunning(env, c, a); }
    TakenControl(env, c);
    if MayStop(a) {
      GrowthStops(env, Taken(c), a);
    }
  }

  lemma MovesRunning(env: Env, c: Coord, a: Coord)
    requires c.channel != [] && Shape(env, c) && Moves(env, Taken(c), a)
    ensures a.running == c.running
  {
    MovesControl(env, Taken(c), a);
    TakenControl(env, c);
  }

  lemma CoordinateStanding(env: Env, s: System)
    requires ValidEnv(env) && Inv(env, s) && Standing(env, s) && EngineSystem.Enabled(s, EngineSystem.Coordinate)
    requires Inv(env, EngineSystem.Next(env, s, EngineSystem.Coordinate))
    ensures Standing(env, EngineSystem.Next(env, s, EngineSystem.Coordinate))
  {
    hide Core, Handle, Capacity, Conserving, Hygienic, Exclusive, Awake, Accounted, Admitted, EngineSystem.Replayed,
      Started, Drained, Calm;
    StopVerdict(env, s.c);
    EventStarts(env, s.c);
    var t := EngineSystem.Next(env, s, EngineSystem.Coordinate);
    assert t.c == Handle(env, s.c);
    if t.c.running {
      Unclosed(env, t.c);
    }
  }

  lemma CallStanding(env: Env, s: System, step: Step)
    requires step.Submit? || step.RequestMaintenance? || step.RequestFlush? || step.RequestClose?
    requires s.handles > 0 && Standing(env, s)
    requires s.c.running <==> s.c.lifecycle == Open || s.c.lifecycle == Closing
    ensures Standing(env, EngineSystem.Call(s, step))
  {
    hide Started, Calm, EngineSystem.Send, EngineSystem.Resolve;
    EngineSystem.CallSplits(s, step);
    var t := EngineSystem.Call(s, step);
    CallHandles(s, step);
    if s.c.running && !EngineSystem.Sent(s, t) {
      assert forall j :: 0 <= j < |s.c.replies| ==> t.c.replies[j] == s.c.replies[j];
    }
  }

  lemma CallHandles(s: System, step: Step)
    requires step.Submit? || step.RequestMaintenance? || step.RequestFlush? || step.RequestClose?
    ensures EngineSystem.Call(s, step).handles == s.handles
  {
  }

  lemma WorkerStanding(env: Env, s: System, step: Step)
    requires ValidEnv(env) && EngineSystem.Enabled(s, step) && Standing(env, s)
    requires step.Run? || step.Panic? || step.Post? || step.PostMaintenance?
    ensures Standing(env, EngineSystem.Next(env, s, step))
  {
    hide Started, Calm, NoCloses;
    var t := EngineSystem.Next(env, s, step);
    WorkerControl(env, s, step);
    PushNoClose(s.c.replies, t.c.replies);
  }

  /** The replies grew by at most one, which is neither a refusal nor an answer to a close or a flush. */
  predicate AddsResult(replies: seq<Reply>, replies': seq<Reply>) {
    || replies' == replies
    || (|replies'| == |replies| + 1 && replies == replies'[..|replies|]
        && (replies'[|replies|].OpReply? || replies'[|replies|].MaintenanceReply?) && !IsRefusal(replies'[|replies|]))
  }

  /** What a worker's step leaves to others. */
  predicate WorkerOnly(s: System, t: System) {
    && EngineSystem.SameControl(s, t) && t.handles == s.handles && t.c.barriers == s.c.barriers
    && t.c.pending == s.c.pending && s.c.channel <= t.c.channel && AddsResult(s.c.replies, t.c.replies)
  }

  lemma RunControl(s: System, i: nat, fault: EngineSystem.Fault, applied: bool)
    requires EngineSystem.ValidJob(s, i) && s.c.jobs[i].Fresh?
    ensures WorkerOnly(s, EngineSystem.Unwind(s, i, applied)) && WorkerOnly(s, EngineSystem.RunJob(s, i, fault))
  {
    hide EngineSystem.Decide, EngineSystem.Apply, EngineSystem.Put, EngineSystem.Get, EngineSystem.Effective;
  }

  lemma PostControl(s: System, i: nat)
    requires EngineSystem.ValidJob(s, i) && (s.c.jobs[i].Finished? || s.c.jobs[i].Crashed?)
    ensures WorkerOnly(s, EngineSystem.PostJob(s, i))
  {
    hide EngineSystem.Without;
  }

  lemma ReportControl(s: System, i: nat, report: Option<Result<()>>)
    requires EngineSystem.ValidJob(s, i) && s.c.jobs[i].Maintain?
    ensures WorkerOnly(s, EngineSystem.PostMaintained(s, i, report))
  {
    hide EngineSystem.Without;
  }

  lemma WorkerControl(env: Env, s: System, step: Step)
    requires ValidEnv(env) && EngineSystem.Enabled(s, step)
    requires step.Run? || step.Panic? || step.Post? || step.PostMaintenance?
    ensures WorkerOnly(s, EngineSystem.Next(env, s, step))
  {
    hide WorkerOnly, EngineSystem.RunJob, EngineSystem.Unwind, EngineSystem.PostJob, EngineSystem.PostMaintained;
    match step
    case Run(i, fault) => RunControl(s, i, fault, false);
    case Panic(i, applied) => RunControl(s, i, EngineSystem.NoFault, applied);
    case Post(i) => PostControl(s, i);
    case PostMaintenance(i, report) => ReportControl(s, i, report);
  }

  lemma PushNoClose(replies: seq<Reply>, replies': seq<Reply>)
    requires AddsResult(replies, replies')
    ensures NoCloses(replies) ==> NoCloses(replies')
  {
    if replies' != replies && NoCloses(replies) {
      forall j | 0 <= j < |replies'| ensures !replies'[j].CloseReply? {
        assert j < |replies| ==> replies[j] == replies'[..|replies|][j];
      }
    }
  }

  lemma StepStanding(env: Env, s: System, step: Step)
    requires ValidEnv(env) && Inv(env, s) && Standing(env, s) && EngineSystem.Enabled(s, step)
    ensures Standing(env, EngineSystem.Next(env, s, step))
  {
    hide Inv, Standing, EngineSystem.Call, EngineSystem.RunJob, EngineSystem.Unwind, EngineSystem.PostJob,
      EngineSystem.PostMaintained, Handle;
    NextInv(env, s, step);
    RunningWhileOpen(env, s);
    match step
    case Coordinate => CoordinateStanding(env, s);
    case Disconnect => LeaveStanding(env, s);
    case CloneHandle => HandlesStanding(env, s, s.handles + 1);
    case DropHandle => HandlesStanding(env, s, s.handles - 1);
    case Run(_, _) => WorkerStanding(env, s, step);
    case Panic(_, _) => WorkerStanding(env, s, step);
    case Post(_) => WorkerStanding(env, s, step);
    case PostMaintenance(_, _) => WorkerStanding(env, s, step);
    case _ => CallStanding(env, s, step);
  }

  lemma LeaveStanding(env: Env, s: System)
    requires Standing(env, s) && s.c.running && s.handles == 0
    ensures Standing(env, EngineSystem.Leave(s))
  {
  }

  lemma HandlesStanding(env: Env, s: System, handles: nat)
    requires Standing(env, s) && s.handles > 0
    ensures Standing(env, s.(handles := handles))
  {
  }

  lemma {:induction false} RunsStanding(env: Env, s: System, run: seq<Step>)
    requires ValidEnv(env) && Inv(env, s) && Standing(env, s) && EngineSystem.Legal(env, s, run)
    ensures Standing(env, EngineSystem.Outcome(env, s, run))
    decreases |run|
  {
    hide Inv, Standing, EngineSystem.Next, EngineSystem.Enabled;
    if run != [] {
      NextInv(env, s, run[0]);
      StepStanding(env, s, run[0]);
      RunsStanding(env, EngineSystem.Next(env, s, run[0]), run[1..]);
    }
  }

  lemma ReachableStanding(env: Env, s: System)
    requires ValidEnv(env) && Reachable(env, s)
    ensures Standing(env, s)
  {
    hide Standing, Inv;
    var disk, run :|
      EngineSystem.Legal(env, EngineSystem.Opened(disk), run)
      && EngineSystem.Outcome(env, EngineSystem.Opened(disk), run) == s;
    OpenedInv(env, disk);
    assert Standing(env, EngineSystem.Opened(disk)) by { OpenedStanding(env, disk); }
    RunsStanding(env, EngineSystem.Opened(disk), run);
  }

  lemma OpenedStanding(env: Env, disk: map<KeyHash, Blob>)
    ensures Standing(env, EngineSystem.Opened(disk))
  {
  }

  /** A running pool has exactly the workers whose start succeeded. Handling an event that stops the coordinator closes
      the store if none of them panics, and publishes a failed shutdown otherwise; and every close, whenever it is
      answered, is answered with success exactly if none of the workers ever started panics. */
  lemma ClosesTellWorkers(env: Env, s: System)
    requires ValidEnv(env) && Reachable(env, s)
    ensures s.c.running ==> s.c.pool.workers == Started(env, s.c.pool.attempts)
    ensures s.c.running && s.c.channel != [] ==>
      var d := Handle(env, s.c);
      if d.running then d.lifecycle == Open || d.lifecycle == Closing
      else if exists worker: nat :: worker < s.c.pool.workers && env.panics(worker) then d.lifecycle == ShutdownFailed
      else d.lifecycle == Closed
    ensures forall j :: 0 <= j < |s.c.replies| && s.c.replies[j].CloseReply? ==>
      s.c.replies[j].closed
      == if exists worker: nat :: worker < Started(env, s.c.pool.attempts) && env.panics(worker)
         then Err(ShutdownFailure) else Ok(())
  {
    hide Reachable, Handle, Started, Core, Shape, Awake, Drained, Inv;
    ReachableStanding(env, s);
    ReachableInv(env, s);
    CloseAgreement(env, s);
    if s.c.running && s.c.channel != [] {
      assert Shape(env, s.c) && Awake(s.c) by { RunningShape(env, s); }
      StopVerdict(env, s.c);
    }
  }

  lemma RunningShape(env: Env, s: System)
    requires Inv(env, s) && s.c.running
    ensures Shape(env, s.c) && Awake(s.c)
  {
    hide Core, Shape, Awake, Accounted, Admitted, EngineSystem.Replayed;
  }

  // ---- Refusals ----------------------------------------------------------------------------

  /** The thread starts among the first n that failed. */
  function Failed(env: Env, n: nat): nat {
    n - Started(env, n)
  }

  /** Maintenance itself reported the error that a refusal gives. */
  predicate ReportsRefusal(event: Event) {
    && event.MaintenanceCompletion? && event.report.Some?
    && event.report.value.1 == Err(WorkerUnavailable)
  }

  lemma TakenRefusals(c: Coord)
    requires c.channel != []
    ensures Refusals(Taken(c).replies) == Refusals(c.replies) + if ReportsRefusal(c.channel[0]) then 1 else 0
  {
    hide Refusals;
    match c.channel[0]
    case Submission(op) => RefusalsPush(c.replies, OpReply(op, Rejected(StoreClosed)));
    case Completion(_, _) =>
    case Maintenance(id) => RefusalsPush(c.replies, MaintenanceReply(id, Some(Err(StoreClosed))));
    case MaintenanceCompletion(report) =>
      if report.Some? {
        RefusalsPush(c.replies, MaintenanceReply(report.value.0, Some(report.value.1)));
      }
    case Flush(id) => RefusalsPush(c.replies, FlushReply(id, Err(StoreClosed)));
    case Close(_) =>
  }

  lemma {:induction false} NoRefusals(replies: seq<Reply>)
    requires forall j :: 0 <= j < |replies| ==> ClosedAnswer(replies[j])
    ensures Refusals(replies) == 0
  {
    if replies != [] {
      assert ClosedAnswer(replies[0]);
      NoRefusals(replies[1..]);
    }
  }

  lemma StopRefusals(env: Env, c: Coord)
    ensures Refusals(StopIfClosed(env, c).replies) == Refusals(c.replies)
    ensures StopIfClosed(env, c).pool.attempts == c.pool.attempts
  {
    hide CloseFront, DrainReply, ClosedAnswer, MayStop;
    var ok := Joins(env, c.pool);
    var front, drained := CloseFront(c.pending, ok), FlatMap(DrainReply(ok), c.channel);
    FrontAnswers(c.pending, Joins(env, c.pool));
    DrainAnswers(c.channel, Joins(env, c.pool));
    NoRefusals(front);
    NoRefusals(drained);
    FlatMapAppend(RefusalOf(), c.replies, front);
    FlatMapAppend(RefusalOf(), c.replies + front, drained);
  }

  /** An event sends one refusal for each thread start that fails in it, and no other. */
  lemma EventRefusals(env: Env, c: Coord)
    requires ValidEnv(env) && c.channel != [] && c.running && Shape(env, c) && Awake(c)
    ensures var d := Handle(env, c);
            Refusals(d.replies) + Failed(env, c.pool.attempts)
            == Refusals(c.replies) + Failed(env, d.pool.attempts) + if ReportsRefusal(c.channel[0]) then 1 else 0
  {
    hide AllKept, Handle, Started, Refusals, SameControl, NewServed, GrowthBusy, StopIfClosed;
    var a := HandleMoves(env, c);
    TakenControl(env, c);
    TakenRefusals(c);
    StopRefusals(env, a);
  }

  lemma CallRefusals(s: System, step: Step)
    requires step.Submit? || step.RequestMaintenance? || step.RequestFlush? || step.RequestClose?
    ensures Refusals(EngineSystem.Call(s, step).c.replies) == Refusals(s.c.replies)
  {
    hide Refusals, EngineSystem.Send, EngineSystem.Resolve;
    EngineSystem.CallSplits(s, step);
    var t := EngineSystem.Call(s, step);
    if !EngineSystem.Sent(s, t) {
      assert t.c.replies == s.c.replies + [t.c.replies[|s.c.replies|]];
      RefusalsPush(s.c.replies, t.c.replies[|s.c.replies|]);
    }
  }

  lemma WorkerRefusals(replies: seq<Reply>, replies': seq<Reply>)
    requires AddsResult(replies, replies')
    ensures Refusals(replies') == Refusals(replies)
  {
    if replies' != replies {
      assert replies' == replies + [replies'[|replies|]];
      RefusalsPush(replies, replies'[|replies|]);
    }
  }

  /** Every refusal for want of a worker is paid for by a thread start of its own that failed, and every failed start
      refuses one request: no other step changes the count on either side, except that maintenance may report such an
      error itself. */
  lemma RefusalsPaid(env: Env, s: System, step: Step)
    requires ValidEnv(env) && Reachable(env, s) && EngineSystem.Enabled(s, step)
    ensures var t := EngineSystem.Next(env, s, step);
            Refusals(t.c.replies) + Failed(env, s.c.pool.attempts)
            == Refusals(s.c.replies) + Failed(env, t.c.pool.attempts)
               + if step.Coordinate? && ReportsRefusal(s.c.channel[0]) then 1 else 0
  {
    hide Reachable, Inv, EngineSystem.Call, EngineSystem.RunJob, EngineSystem.Unwind, EngineSystem.PostJob,
      EngineSystem.PostMaintained, Handle, Refusals, Started, Shape, Awake, AddsResult, ReportsRefusal;
    ReachableInv(env, s);
    match step
    case Coordinate =>
      RunningShape(env, s);
      EventRefusals(env, s.c);
    case Disconnect =>
    case CloneHandle =>
    case DropHandle =>
    case Run(_, _) => WorkerPays(env, s, step);
    case Panic(_, _) => WorkerPays(env, s, step);
    case Post(_) => WorkerPays(env, s, step);
    case PostMaintenance(_, _) => WorkerPays(env, s, step);
    case _ =>
      CallRefusals(s, step);
      EngineSystem.CallSplits(s, step);
  }

  lemma WorkerPays(env: Env, s: System, step: Step)
    requires ValidEnv(env) && EngineSystem.Enabled(s, step)
    requires step.Run? || step.Panic? || step.Post? || step.PostMaintenance?
    ensures var t := EngineSystem.Next(env, s, step);
            Refusals(t.c.replies) == Refusals(s.c.replies) && t.c.pool.attempts == s.c.pool.attempts
  {
    hide Refusals, AddsResult, EngineSystem.Next;
    WorkerControl(env, s, step);
    WorkerRefusals(s.c.replies, EngineSystem.Next(env, s, step).c.replies);
  }
}
