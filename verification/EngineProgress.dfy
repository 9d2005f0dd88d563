/** Left alone, the engine comes to rest, and at rest every accepted request has been resolved. */
module EngineProgress {
  import opened Collections
  import opened EngineTypes
  import opened Workers
  import opened Coordinator
  import opened EngineInvariants
  import opened DispatchProofs
  import opened AdvanceProofs
  import opened EventProofs
  import opened HandleProofs
  import opened StepProofs
  import opened EngineSystem
  import opened SystemProofs
  import opened PostProofs
  import opened EngineTheorems

  function Sum<T>(f: T -> nat, s: seq<T>): nat {
    if s == [] then 0 else f(s[0]) + Sum(f, s[1..])
  }

  lemma {:induction false} SumAppend<T>(f: T -> nat, a: seq<T>, b: seq<T>)
    ensures Sum(f, a + b) == Sum(f, a) + Sum(f, b)
  {
    if a == [] {
      assert a + b == b;
    } else {
      assert (a + b)[1..] == a[1..] + b;
      SumAppend(f, a[1..], b);
    }
  }

  lemma SumPush<T>(f: T -> nat, s: seq<T>, x: T)
    ensures Sum(f, s + [x]) == Sum(f, s) + f(x)
  {
    SumAppend(f, s, [x]);
    assert Sum(f, [x]) == f(x) + Sum(f, []);
  }

  lemma SumSplit<T>(f: T -> nat, s: seq<T>, i: nat)
    requires i < |s|
    ensures Sum(f, s) == Sum(f, s[..i]) + f(s[i]) + Sum(f, s[i + 1..])
    ensures Sum(f, s[..i] + s[i + 1..]) == Sum(f, s[..i]) + Sum(f, s[i + 1..])
  {
    assert s == s[..i] + ([s[i]] + s[i + 1..]);
    SumAppend(f, s[..i], [s[i]] + s[i + 1..]);
    SumAppend(f, [s[i]], s[i + 1..]);
    SumAppend(f, s[..i], s[i + 1..]);
    assert Sum(f, [s[i]]) == f(s[i]) + Sum(f, []);
  }

  lemma SumUpdate<T>(f: T -> nat, s: seq<T>, i: nat, x: T)
    requires i < |s|
    ensures Sum(f, s[i := x]) + f(s[i]) == Sum(f, s) + f(x)
  {
    var t := s[i := x];
    assert t[..i] == s[..i] && t[i + 1..] == s[i + 1..];
    SumSplit(f, t, i);
    SumSplit(f, s, i);
  }

  // ---- How many internal steps each thing may still cause ------------------------------

  function EventWork(): Event -> nat {
    (event: Event) =>
      match event
      case Submission(_) => 6
      case Completion(_, _) => 1
      case Maintenance(_) => 5
      case MaintenanceCompletion(_) => 1
      case Flush(_) => 2
      case Close(_) => 2
  }

  function PendingWork(): PendingEvent -> nat {
    (event: PendingEvent) =>
      match event
      case PendingSubmission(_) => 5
      case PendingMaintenance(_, _) => 4
      case PendingFlush(_, _) => 1
      case PendingClose(_) => 1
  }

  function JobWork(): Job -> nat {
    (job: Job) => if job.Fresh? then 3 else 2
  }

  ghost function Work(c: Coord): nat {
    Sum(EventWork(), c.channel) + Sum(PendingWork(), c.pending) + Sum(JobWork(), c.jobs) + 4 * |QueueIds(c.queues)|
  }

  lemma StartWork(c: Coord, key: KeyHash)
    requires Queue(c.queues, key) != []
    ensures Work(Start(c, key)) < Work(c)
  {
    PopShrinks(c.queues, key);
    assert |QueueIds(Start(c, key).queues)| + 1 == |QueueIds(c.queues)|;
    SumPush(JobWork(), c.jobs, Fresh(c.queues[key][0]));
  }

  lemma RefuseWork(c: Coord, key: KeyHash)
    requires Queue(c.queues, key) != []
    ensures Work(Refuse(c, key)) < Work(c)
  {
    PopShrinks(c.queues, key);
    assert |QueueIds(Refuse(c, key).queues)| + 1 == |QueueIds(c.queues)|;
  }

  lemma DispatchWork(env: Env, c: Coord, key: KeyHash)
    ensures Work(DispatchIfIdle(env, c, key)) <= Work(c)
  {
    hide Start, Refuse;
    if !(key in c.active || |c.active| >= env.limit || Queue(c.queues, key) == []) {
      var (pool, ok) := Prepared(env, c.pool, |c.active| + 1);
      StartWork(c.(pool := pool), key);
      RefuseWork(c.(pool := pool), key);
    }
  }

  lemma {:induction false} AvailableWork(env: Env, c: Coord)
    requires ValidEnv(env)
    ensures Work(DispatchAvailable(env, c)) <= Work(c)
    decreases |QueueIds(c.queues)|
  {
    hide DispatchIfIdle, QueueIds, Sum;
    if |c.active| < env.limit && Ready(c) != {} {
      var key := env.choose(c.picks, Ready(c));
      var picked := c.(picks := c.picks + 1);
      DispatchShrinks(env, picked, key);
      DispatchWork(env, picked, key);
      AvailableWork(env, DispatchIfIdle(env, picked, key));
    }
  }

  lemma UnparkWork(c: Coord)
    requires c.pending != [] && c.pending[0].PendingSubmission?
    ensures Work(Enqueue(Rest(c), c.pending[0].op)) < Work(c)
  {
    hide QueueIds;
    EnqueueIds(Rest(c), c.pending[0].op);
    assert |QueueIds(Enqueue(Rest(c), c.pending[0].op).queues)| == |QueueIds(c.queues)| + 1;
  }

  lemma BeginMaintenanceWork(env: Env, c: Coord)
    requires c.pending != [] && c.pending[0].PendingMaintenance?
    ensures Work(BeginMaintenance(env, c)) < Work(c)
  {
    hide QueueIds;
    SumPush(JobWork(), c.jobs, Maintain(c.pending[0].id));
    SumPush(EventWork(), c.channel, MaintenanceCompletion(None));
  }

  lemma FlushWork(c: Coord)
    requires c.pending != [] && c.pending[0].PendingFlush?
    ensures Work(Respond(Honour(Rest(c), c.pending[0].id, c.pending[0].mark),
                         FlushReply(c.pending[0].id, Ok(())))) < Work(c)
  {
    hide QueueIds;
  }

  lemma {:induction false} AdvanceWork(env: Env, c: Coord)
    requires ValidEnv(env)
    ensures Work(Advance(env, c)) <= Work(c)
    decreases |c.pending|
  {
    hide DispatchIfIdle, QueueIds, Sum, Work, DispatchMaintenance;
    if !c.maintenanceActive && c.pending != [] {
      match c.pending[0]
      case PendingMaintenance(id, mark) =>
        BeginMaintenanceWork(env, c);
      case PendingSubmission(op) =>
        var s := Enqueue(Rest(c), op);
        UnparkWork(c);
        DispatchWork(env, s, op.key);
        DispatchKeepsPending(env, s, op.key);
        AdvanceWork(env, DispatchIfIdle(env, s, op.key));
      case PendingFlush(id, mark) =>
        if !Busy(c) {
          FlushWork(c);
          AdvanceWork(env, Respond(Honour(Rest(c), id, mark), FlushReply(id, Ok(()))));
        }
      case PendingClose(_) =>
    }
  }

  lemma {:induction false} ClosesWork(pending: seq<PendingEvent>)
    ensures Sum(PendingWork(), AfterCloses(pending)) <= Sum(PendingWork(), pending)
  {
    if pending != [] && pending[0].PendingClose? {
      ClosesWork(pending[1..]);
    }
  }

  lemma StopWork(env: Env, c: Coord)
    ensures Work(StopIfClosed(env, c)) <= Work(c)
  {
    hide QueueIds;
    ClosesWork(c.pending);
  }

  lemma ReleaseWork(env: Env, c: Coord, key: KeyHash)
    requires ValidEnv(env)
    ensures Work(Release(env, c, key)) <= Work(c)
  {
    hide DispatchIfIdle, DispatchAvailable, QueueIds, Sum;
    var b := c.(active := c.active - {key});
    DispatchWork(env, b, key);
    AvailableWork(env, DispatchIfIdle(env, b, key));
    ForgetWork(DispatchAvailable(env, DispatchIfIdle(env, b, key)), key);
  }

  lemma ForgetWork(c: Coord, key: KeyHash)
    ensures Work(Forget(c, key)) == Work(c)
  {
    if key !in c.active && key in c.queues && c.queues[key] == [] {
      GatherAt(QueueTally(), c.queues, key);
      assert QueueTally()([]) == multiset{};
    }
  }

  lemma FinishWork(env: Env, c: Coord)
    requires ValidEnv(env)
    ensures Work(StopIfClosed(env, Advance(env, c))) <= Work(c)
  {
    hide Work;
    AdvanceWork(env, c);
    StopWork(env, Advance(env, c));
  }

  lemma BarredWork(c: Coord, event: PendingEvent)
    ensures Work(Barred(c, event)) == Work(c) + PendingWork()(event)
  {
    hide QueueIds;
    SumPush(PendingWork(), c.pending, event);
  }

  lemma SubmissionWork(env: Env, c: Coord, op: Op)
    requires ValidEnv(env)
    ensures Work(OnSubmission(env, c, op)) <= Work(c) + 5
  {
    hide DispatchIfIdle, DispatchAvailable, QueueIds, Sum, StopIfClosed;
    var r := Received(c, op);
    BarredWork(r, PendingSubmission(op));
    EnqueueIds(r, op);
    assert |QueueIds(Enqueue(r, op).queues)| == |QueueIds(c.queues)| + 1;
    DispatchWork(env, Enqueue(r, op), op.key);
    AvailableWork(env, DispatchIfIdle(env, Enqueue(r, op), op.key));
    StopWork(env, DispatchAvailable(env, DispatchIfIdle(env, Enqueue(r, op), op.key)));
  }

  /** Handling an event uses up more work than it creates. */
  lemma HandleWork(env: Env, c: Coord)
    requires ValidEnv(env) && c.channel != []
    ensures Work(Handle(env, c)) < Work(c)
  {
    hide Advance, Release, QueueIds, StopIfClosed, OnSubmission;
    var rest := c.(channel := c.channel[1..]);
    assert Work(rest) + EventWork()(c.channel[0]) == Work(c);
    hide Work;
    match c.channel[0]
    case Submission(op) => SubmissionWork(env, rest, op);
    case Completion(key, outcome) =>
      ReleaseWork(env, rest, key);
      var r := Release(env, rest, key);
      FinishWork(env, r);
      if outcome.Some? {
        FinishRespond(env, r, OpReply(outcome.value.0, Delivered(outcome.value.1)));
      }
    case Maintenance(id) =>
      RespondWork(rest, MaintenanceReply(id, Some(Err(StoreClosed))));
      BarredWork(rest, PendingMaintenance(id, |c.order|));
      FinishWork(env, Barred(rest, PendingMaintenance(id, |c.order|)));
    case MaintenanceCompletion(report) =>
      IdleWork(rest);
      FinishWork(env, rest.(maintenanceActive := false));
      if report.Some? {
        FinishRespond(env, rest.(maintenanceActive := false), MaintenanceReply(report.value.0, Some(report.value.1)));
      }
    case Flush(id) =>
      RespondWork(rest, FlushReply(id, Err(StoreClosed)));
      BarredWork(rest, PendingFlush(id, |c.order|));
      FinishWork(env, Barred(rest, PendingFlush(id, |c.order|)));
    case Close(id) =>
      BarredWork(rest, PendingClose(id));
      ClosingWork(Barred(rest, PendingClose(id)));
      FinishWork(env, Barred(rest, PendingClose(id)).(lifecycle := Closing));
      FinishWork(env, Barred(rest, PendingClose(id)));
      FinishRespond(env, rest, CloseReply(id, Ok(())));
      FinishRespond(env, rest, CloseReply(id, Err(ShutdownFailure)));
  }

  lemma RespondWork(c: Coord, reply: Reply)
    ensures Work(Respond(c, reply)) == Work(c)
  {
  }

  lemma IdleWork(c: Coord)
    ensures Work(c.(maintenanceActive := false)) == Work(c)
  {
  }

  lemma ClosingWork(c: Coord)
    ensures Work(c.(lifecycle := Closing)) == Work(c)
  {
  }

  lemma FinishRespond(env: Env, c: Coord, reply: Reply)
    requires ValidEnv(env)
    ensures Work(StopIfClosed(env, Advance(env, Respond(c, reply)))) <= Work(c)
  {
    RespondWork(c, reply);
    FinishWork(env, Respond(c, reply));
  }

  // ---- Internal steps ------------------------------------------------------------------------

  /** The steps nobody outside asks for. */
  predicate Internal(step: Step) {
    step.Coordinate? || step.Run? || step.Panic? || step.Post? || step.PostMaintenance?
  }

  lemma InternalWork(env: Env, s: System, step: Step)
    requires ValidEnv(env) && Enabled(s, step) && Internal(step)
    ensures Work(Next(env, s, step).c) < Work(s.c)
  {
    match step
    case Coordinate => HandleWork(env, s.c);
    case Run(i, fault) => EndWork(s, i, Crashed(s.c.jobs[i].op.key)); RunWork(s, i, fault);
    case Panic(i, _) => EndWork(s, i, Crashed(s.c.jobs[i].op.key));
    case Post(i) => PostWork(s, i, CompletionOf(s.c.jobs[i]));
    case PostMaintenance(i, report) =>
      PostWork(s, i, MaintenanceCompletion(if report.Some? then Some((s.c.jobs[i].id, report.value)) else None));
  }

  lemma EndWork(s: System, i: nat, job: Job)
    requires ValidJob(s, i) && s.c.jobs[i].Fresh? && !job.Fresh?
    ensures Sum(JobWork(), s.c.jobs[i := job]) < Sum(JobWork(), s.c.jobs)
  {
    SumUpdate(JobWork(), s.c.jobs, i, job);
  }

  lemma RunWork(s: System, i: nat, fault: Fault)
    requires ValidJob(s, i) && s.c.jobs[i].Fresh?
    ensures Work(RunJob(s, i, fault).c) < Work(s.c)
  {
    hide QueueIds, Decide, Apply;
    var op := s.c.jobs[i].op;
    EndWork(s, i, Crashed(op.key));
    var fate := Decide(op.operation, Get(s.disk, op.key), fault);
    if Runnable(op.operation) {
      EndWork(s, i, RunJob(s, i, fault).c.jobs[i]);
    }
  }

  lemma PostWork(s: System, i: nat, event: Event)
    requires ValidJob(s, i) && (event.Completion? || event.MaintenanceCompletion?)
    ensures Sum(JobWork(), Without(s.c.jobs, i)) + Sum(EventWork(), s.c.channel + [event])
          < Sum(JobWork(), s.c.jobs) + Sum(EventWork(), s.c.channel)
  {
    SumSplit(JobWork(), s.c.jobs, i);
    SumPush(EventWork(), s.c.channel, event);
  }

  /** From any state, at most Work internal steps can follow one another. */
  lemma {:induction false} ComesToRest(env: Env, s: System, run: seq<Step>)
    requires ValidEnv(env) && Legal(env, s, run)
    requires forall i :: 0 <= i < |run| ==> Internal(run[i])
    ensures |run| + Work(Outcome(env, s, run).c) <= Work(s.c)
    decreases |run|
  {
    hide Next, Work, Enabled;
    if run != [] {
      InternalWork(env, s, run[0]);
      ComesToRest(env, Next(env, s, run[0]), run[1..]);
    }
  }

  ghost predicate AtRest(s: System) {
    forall step :: Internal(step) ==> !Enabled(s, step)
  }

  /** A state in which no internal step is possible has resolved every endpoint ever handed out. */
  lemma RestMeansResolved(env: Env, s: System)
    requires ValidEnv(env) && Reachable(env, s) && AtRest(s)
    ensures forall id: nat :: Tally(ReplyIds(), s.c.replies)[id] == if id < s.nextId then 1 else 0
    ensures Drained(s.c)
  {
    ReachableInv(env, s);
    ExactlyOnce(env, s);
    if s.c.running {
      RestJobless(s);
      assert !Enabled(s, Coordinate);
      if s.c.pending != [] || !AllQueuesEmpty(s.c.queues) {
        NoLostWakeUp(env, s);
      }
      RestDrained(env, s);
      hide Inv;
      assert Endpoints(s.c) == Tally(ReplyIds(), s.c.replies);
    } else {
      CloseAgreement(env, s);
    }
  }

  lemma RestJobless(s: System)
    requires AtRest(s)
    ensures s.c.jobs == []
  {
    if s.c.jobs != [] {
      match s.c.jobs[0]
      case Fresh(_) => assert Enabled(s, Panic(0, false));
      case Finished(_, _) => assert Enabled(s, Post(0));
      case Crashed(_) => assert Enabled(s, Post(0));
      case Maintain(_) => assert Enabled(s, PostMaintenance(0, None));
    }
  }

  lemma RestDrained(env: Env, s: System)
    requires Inv(env, s) && s.c.running && s.c.jobs == [] && s.c.channel == []
    requires s.c.pending == [] && AllQueuesEmpty(s.c.queues)
    ensures Drained(s.c)
  {
    hide Lines, Fifo, Distinct, Known, AllRunnable, Backlog, BarriersHeld, InFlight, Answered, Settled,
      Replayed, Accounted, Admitted;
    forall key: KeyHash
      ensures key !in s.c.active
    {
      assert |FlatMap(JobFor(key), s.c.jobs)| == 0;
    }
  }
}
