/** Every flush that succeeded and every maintenance job that started has its record among the barriers. */
module BarrierWitness {
  import opened Collections
  import opened EngineTypes
  import opened Workers
  import opened Coordinator
  import opened EngineInvariants
  import opened DispatchProofs
  import opened EngineSystem
  import opened EngineTheorems
  import opened AdvanceProofs
  import opened SystemProofs
  import opened ReceiveOrder

  predicate Acknowledged(reply: Reply) {
    reply.FlushReply? && reply.flushed.Ok?
  }

  predicate Reported(reply: Reply) {
    reply.MaintenanceReply? && reply.maintained == Some(Ok(()))
  }

  predicate Recorded(barriers: seq<Barrier>, id: nat, answered: nat) {
    exists b :: 0 <= b < |barriers| && barriers[b].id == id && barriers[b].answered <= answered
  }

  /** The record was made when exactly this many replies had been sent. */
  predicate RecordedAt(barriers: seq<Barrier>, id: nat, answered: nat) {
    exists b :: 0 <= b < |barriers| && barriers[b].id == id && barriers[b].answered == answered
  }

  predicate JobsRecorded(barriers: seq<Barrier>, jobs: seq<Job>, n: nat) {
    forall i :: 0 <= i < |jobs| && jobs[i].Maintain? ==> Recorded(barriers, jobs[i].id, n)
  }

  predicate ReportsRecorded(barriers: seq<Barrier>, channel: seq<Event>, n: nat) {
    forall i :: 0 <= i < |channel| && channel[i].MaintenanceCompletion? && channel[i].report.Some? ==>
      Recorded(barriers, channel[i].report.value.0, n)
  }

  /** A reply that is not an operation's own result, with its cause, when it was the n-th. A flush is acknowledged with
      a record made at that moment. An operation is refused for want of a worker; so is maintenance, and it is only
      reported on if it was recorded. Any other error says that the store is closed, and it is. */
  predicate Caused(lifecycle: Lifecycle, barriers: seq<Barrier>, reply: Reply, n: nat) {
    match reply
    case FlushReply(id, flushed) =>
      if flushed.Ok? then RecordedAt(barriers, id, n) else flushed.error == StoreClosed && lifecycle != Open
    case MaintenanceReply(id, maintained) =>
      || Recorded(barriers, id, n)
      || maintained == Some(Err(WorkerUnavailable))
      || (maintained == Some(Err(StoreClosed)) && lifecycle != Open)
    case OpReply(_, answer) =>
      answer.Rejected? ==> answer.error == WorkerUnavailable || (answer.error == StoreClosed && lifecycle != Open)
    case CloseReply(_, _) => lifecycle != Open
  }

  predicate RepliesCaused(lifecycle: Lifecycle, barriers: seq<Barrier>, replies: seq<Reply>) {
    forall j :: 0 <= j < |replies| ==> Caused(lifecycle, barriers, replies[j], j)
  }

  predicate Witnessed(c: Coord) {
    && c.lifecycle != Failed
    && RepliesCaused(c.lifecycle, c.barriers, c.replies)
    && JobsRecorded(c.barriers, c.jobs, |c.replies|)
    && ReportsRecorded(c.barriers, c.channel, |c.replies|)
  }

  predicate Backed(c: Coord, reply: Reply) {
    Caused(c.lifecycle, c.barriers, reply, |c.replies|)
  }

  lemma RecordedLater(barriers: seq<Barrier>, more: seq<Barrier>, id: nat, n: nat, m: nat)
    requires Recorded(barriers, id, n) && n <= m
    ensures Recorded(barriers + more, id, m)
  {
    var b :| 0 <= b < |barriers| && barriers[b].id == id && barriers[b].answered <= n;
    assert (barriers + more)[b] == barriers[b];
  }

  lemma RecordedAtLater(barriers: seq<Barrier>, more: seq<Barrier>, id: nat, n: nat)
    requires RecordedAt(barriers, id, n)
    ensures RecordedAt(barriers + more, id, n)
  {
    var b :| 0 <= b < |barriers| && barriers[b].id == id && barriers[b].answered == n;
    assert (barriers + more)[b] == barriers[b];
  }

  lemma RespondWitnessed(c: Coord, reply: Reply)
    requires Witnessed(c) && Backed(c, reply)
    ensures Witnessed(Respond(c, reply))
  {
    hide Recorded, RecordedAt, Caused;
    forall id, n: nat, m: nat | Recorded(c.barriers, id, n) && n <= m ensures Recorded(c.barriers, id, m) {
      RecordedLater(c.barriers, [], id, n, m);
      assert c.barriers + [] == c.barriers;
    }
  }

  lemma HonourWitnessed(c: Coord, id: nat, mark: nat)
    requires Witnessed(c)
    ensures Witnessed(Honour(c, id, mark))
    ensures Recorded(Honour(c, id, mark).barriers, id, |c.replies|)
    ensures RecordedAt(Honour(c, id, mark).barriers, id, |c.replies|)
    ensures Honour(c, id, mark).replies == c.replies
  {
    hide Recorded, RecordedAt;
    var d := Honour(c, id, mark);
    var more := [d.barriers[|c.barriers|]];
    forall i, n: nat | Recorded(c.barriers, i, n) ensures Recorded(d.barriers, i, n) {
      RecordedLater(c.barriers, more, i, n, n);
    }
    forall i, n: nat | RecordedAt(c.barriers, i, n) ensures RecordedAt(d.barriers, i, n) {
      RecordedAtLater(c.barriers, more, i, n);
    }
    forall reply, n: nat | Caused(c.lifecycle, c.barriers, reply, n) ensures Caused(c.lifecycle, d.barriers, reply, n) {
    }
    LastRecorded(d.barriers, |c.replies|);
  }

  lemma LastRecorded(barriers: seq<Barrier>, n: nat)
    requires barriers != [] && barriers[|barriers| - 1].answered == n
    ensures Recorded(barriers, barriers[|barriers| - 1].id, n)
    ensures RecordedAt(barriers, barriers[|barriers| - 1].id, n)
  {
  }

  /** Only these five fields matter. */
  lemma SameWitnessed(c: Coord, d: Coord)
    requires Witnessed(c) && d.barriers == c.barriers && d.replies == c.replies
    requires d.lifecycle == c.lifecycle || (d.lifecycle != Failed && d.lifecycle != Open)
    requires forall job :: job in d.jobs && job.Maintain? ==> job in c.jobs
    requires forall event :: event in d.channel && event.MaintenanceCompletion? && event.report.Some? ==>
      event in c.channel
    ensures Witnessed(d)
  {
    hide Recorded, RecordedAt;
    forall i | 0 <= i < |d.jobs| && d.jobs[i].Maintain? ensures Recorded(d.barriers, d.jobs[i].id, |d.replies|) {
      assert d.jobs[i] in c.jobs;
    }
    forall i | 0 <= i < |d.channel| && d.channel[i].MaintenanceCompletion? && d.channel[i].report.Some?
      ensures Recorded(d.barriers, d.channel[i].report.value.0, |d.replies|)
    {
      assert d.channel[i] in c.channel;
    }
  }

  lemma DispatchWitnessed(env: Env, c: Coord, key: KeyHash)
    requires Witnessed(c)
    ensures Witnessed(DispatchIfIdle(env, c, key))
  {
    hide Witnessed;
    if key in c.active || |c.active| >= env.limit || Queue(c.queues, key) == [] {
    } else {
      var (pool, ok) := Prepared(env, c.pool, |c.active| + 1);
      var p := c.(pool := pool);
      SameWitnessed(c, p);
      if ok {
        SameWitnessed(p, Start(p, key));
      } else {
        var reply := OpReply(c.queues[key][0], Rejected(WorkerUnavailable));
        RespondWitnessed(p, reply);
        SameWitnessed(Respond(p, reply), Refuse(p, key));
      }
    }
  }

  lemma {:induction false} AvailableWitnessed(env: Env, c: Coord)
    requires ValidEnv(env) && Witnessed(c)
    ensures Witnessed(DispatchAvailable(env, c))
    decreases |QueueIds(c.queues)|
  {
    hide DispatchIfIdle, QueueIds, Witnessed;
    if |c.active| < env.limit && Ready(c) != {} {
      var key := env.choose(c.picks, Ready(c));
      var picked := c.(picks := c.picks + 1);
      SameWitnessed(c, picked);
      DispatchShrinks(env, picked, key);
      DispatchWitnessed(env, picked, key);
      AvailableWitnessed(env, DispatchIfIdle(env, picked, key));
    }
  }

  lemma MaintenanceWitnessed(env: Env, c: Coord, id: nat, mark: nat)
    requires Witnessed(c)
    ensures Witnessed(DispatchMaintenance(env, c, id, mark))
  {
    hide Witnessed, Recorded, RecordedAt;
    var (pool, ok) := Prepared(env, c.pool, 1);
    var p := c.(pool := pool);
    SameWitnessed(c, p);
    if ok {
      var h := Honour(p, id, mark);
      HonourWitnessed(p, id, mark);
      JobWitnessed(h, id);
    } else {
      var reply := MaintenanceReply(id, Some(Err(WorkerUnavailable)));
      RespondWitnessed(p, reply);
      var r := Respond(p, reply);
      SameWitnessed(r, r.(channel := r.channel + [MaintenanceCompletion(None)]));
    }
  }

  lemma JobWitnessed(c: Coord, id: nat)
    requires Witnessed(c) && Recorded(c.barriers, id, |c.replies|)
    ensures Witnessed(c.(jobs := c.jobs + [Maintain(id)]))
  {
    hide Recorded, RecordedAt;
  }

  lemma {:induction false} AdvanceWitnessed(env: Env, c: Coord)
    requires ValidEnv(env) && Witnessed(c)
    ensures Witnessed(Advance(env, c))
    decreases |c.pending|
  {
    hide DispatchIfIdle, DispatchMaintenance, Honour, Busy, Witnessed, Recorded, RecordedAt;
    if !c.maintenanceActive && c.pending != [] {
      var rest := c.(pending := c.pending[1..]);
      SameWitnessed(c, rest);
      match c.pending[0]
      case PendingMaintenance(id, mark) =>
        var claimed := rest.(maintenanceActive := true);
        SameWitnessed(rest, claimed);
        MaintenanceWitnessed(env, claimed, id, mark);
      case PendingSubmission(op) =>
        var queued := Enqueue(rest, op);
        SameWitnessed(rest, queued);
        DispatchKeepsPending(env, queued, op.key);
        DispatchWitnessed(env, queued, op.key);
        AdvanceWitnessed(env, DispatchIfIdle(env, queued, op.key));
      case PendingFlush(id, mark) =>
        if !Busy(c) {
          HonourWitnessed(rest, id, mark);
          RespondWitnessed(Honour(rest, id, mark), FlushReply(id, Ok(())));
          HonourPending(rest, id, mark);
          AdvanceWitnessed(env, Respond(Honour(rest, id, mark), FlushReply(id, Ok(()))));
        }
      case PendingClose(_) =>
    }
  }

  lemma HonourPending(c: Coord, id: nat, mark: nat)
    ensures Honour(c, id, mark).pending == c.pending
  {
  }

  lemma ReleaseWitnessed(env: Env, c: Coord, key: KeyHash)
    requires ValidEnv(env) && Witnessed(c)
    ensures Witnessed(Release(env, c, key))
  {
    hide DispatchIfIdle, DispatchAvailable, Witnessed;
    var freed := c.(active := c.active - {key});
    SameWitnessed(c, freed);
    DispatchWitnessed(env, freed, key);
    var begun := DispatchIfIdle(env, freed, key);
    AvailableWitnessed(env, begun);
    SameWitnessed(DispatchAvailable(env, begun), Release(env, c, key));
  }

  /** What a store that is no longer open answers. */
  predicate ClosedAnswer(reply: Reply) {
    match reply
    case FlushReply(_, flushed) => flushed == Err(StoreClosed)
    case MaintenanceReply(_, maintained) => maintained == Some(Err(StoreClosed))
    case OpReply(_, answer) => answer == Rejected(StoreClosed)
    case CloseReply(_, _) => true
  }

  lemma {:induction false} ManyWitnessed(c: Coord, more: seq<Reply>)
    requires Witnessed(c) && c.lifecycle != Open
    requires forall j :: 0 <= j < |more| ==> ClosedAnswer(more[j])
    ensures Witnessed(c.(replies := c.replies + more))
    decreases |more|
  {
    hide Witnessed, Recorded, RecordedAt;
    if more == [] {
      assert c.replies + more == c.replies;
    } else {
      RespondWitnessed(c, more[0]);
      ManyWitnessed(Respond(c, more[0]), more[1..]);
      assert c.replies + more == Respond(c, more[0]).replies + more[1..];
    }
  }

  lemma {:induction false} FrontAnswers(pending: seq<PendingEvent>, ok: bool)
    ensures forall j :: 0 <= j < |CloseFront(pending, ok)| ==> ClosedAnswer(CloseFront(pending, ok)[j])
  {
    if pending != [] && pending[0].PendingClose? {
      FrontAnswers(pending[1..], ok);
    }
  }

  lemma {:induction false} DrainAnswers(channel: seq<Event>, ok: bool)
    ensures forall j :: 0 <= j < |FlatMap(DrainReply(ok), channel)| ==>
              ClosedAnswer(FlatMap(DrainReply(ok), channel)[j])
  {
    if channel != [] {
      DrainAnswers(channel[1..], ok);
    }
  }

  lemma StopWitnessed(env: Env, c: Coord)
    requires Witnessed(c)
    ensures Witnessed(StopIfClosed(env, c))
  {
    hide Witnessed, CloseFront, FlatMap, ClosedAnswer, MayStop;
    if MayStop(c) {
      var ok := Joins(env, c.pool);
      var front, drained := CloseFront(c.pending, ok), FlatMap(DrainReply(ok), c.channel);
      FrontAnswers(c.pending, Joins(env, c.pool));
      DrainAnswers(c.channel, Joins(env, c.pool));
      var published := c.(lifecycle := Stop(env, c).lifecycle);
      SameWitnessed(c, published);
      ManyWitnessed(published, front);
      ManyWitnessed(published.(replies := c.replies + front), drained);
      SameWitnessed(published.(replies := c.replies + front + drained), Stop(env, c));
    }
  }

  lemma FinishWitnessed(env: Env, c: Coord)
    requires ValidEnv(env) && Witnessed(c)
    ensures Witnessed(StopIfClosed(env, Advance(env, c)))
  {
    hide Witnessed, StopIfClosed, Advance;
    AdvanceWitnessed(env, c);
    StopWitnessed(env, Advance(env, c));
  }

  lemma SubmissionWitnessed(env: Env, c: Coord, op: Op)
    requires ValidEnv(env) && Witnessed(c)
    ensures Witnessed(OnSubmission(env, c, op))
  {
    hide Witnessed, DispatchIfIdle, DispatchAvailable, StopIfClosed;
    if c.lifecycle != Open {
      RespondWitnessed(c, OpReply(op, Rejected(StoreClosed)));
    } else if c.maintenanceActive || c.pending != [] {
      SameWitnessed(c, OnSubmission(env, c, op));
    } else {
      var queued := Enqueue(c.(order := c.order + [op]), op);
      SameWitnessed(c, queued);
      DispatchWitnessed(env, queued, op.key);
      var begun := DispatchIfIdle(env, queued, op.key);
      AvailableWitnessed(env, begun);
      StopWitnessed(env, DispatchAvailable(env, begun));
    }
  }

  lemma CloseWitnessed(env: Env, c: Coord, id: nat)
    requires ValidEnv(env) && Witnessed(c)
    ensures Witnessed(OnClose(env, c, id))
  {
    hide Witnessed, Advance, StopIfClosed;
    var d :=
      match c.lifecycle
      case Open => c.(lifecycle := Closing, pending := c.pending + [PendingClose(id)])
      case Closing => c.(pending := c.pending + [PendingClose(id)])
      case Closed => Respond(c, CloseReply(id, Ok(())))
      case ShutdownFailed => Respond(c, CloseReply(id, Err(ShutdownFailure)))
      case Failed => Respond(c, CloseReply(id, Err(ShutdownFailure)));
    if c.lifecycle == Open || c.lifecycle == Closing {
      SameWitnessed(c, d);
    } else if c.lifecycle == Closed {
      RespondWitnessed(c, CloseReply(id, Ok(())));
    } else {
      RespondWitnessed(c, CloseReply(id, Err(ShutdownFailure)));
    }
    FinishWitnessed(env, d);
  }

  lemma HandleWitnessed(env: Env, c: Coord)
    requires ValidEnv(env) && c.channel != [] && Witnessed(c)
    ensures Witnessed(Handle(env, c))
  {
    hide Witnessed, Advance, Release, StopIfClosed, OnSubmission, OnClose, Recorded, RecordedAt;
    var rest := c.(channel := c.channel[1..]);
    SameWitnessed(c, rest);
    match c.channel[0]
    case Submission(op) => SubmissionWitnessed(env, rest, op);
    case Completion(key, outcome) =>
      ReleaseWitnessed(env, rest, key);
      var r := Release(env, rest, key);
      if outcome.Some? {
        RespondWitnessed(r, OpReply(outcome.value.0, Delivered(outcome.value.1)));
      }
      FinishWitnessed(env,
        if outcome.Some? then Respond(r, OpReply(outcome.value.0, Delivered(outcome.value.1))) else r);
    case Maintenance(id) =>
      if c.lifecycle != Open {
        RespondWitnessed(rest, MaintenanceReply(id, Some(Err(StoreClosed))));
      }
      var d := rest.(pending := rest.pending + [PendingMaintenance(id, |rest.order|)]);
      SameWitnessed(rest, d);
      FinishWitnessed(env, d);
    case MaintenanceCompletion(report) =>
      var r := rest.(maintenanceActive := false);
      SameWitnessed(rest, r);
      if report.Some? {
        assert Recorded(c.barriers, report.value.0, |c.replies|) by {
          FirstReport(c);
        }
        RespondWitnessed(r, MaintenanceReply(report.value.0, Some(report.value.1)));
      }
      FinishWitnessed(env,
        if report.Some? then Respond(r, MaintenanceReply(report.value.0, Some(report.value.1))) else r);
    case Flush(id) =>
      if c.lifecycle != Open {
        RespondWitnessed(rest, FlushReply(id, Err(StoreClosed)));
      }
      var d := rest.(pending := rest.pending + [PendingFlush(id, |rest.order|)]);
      SameWitnessed(rest, d);
      FinishWitnessed(env, d);
    case Close(id) => CloseWitnessed(env, rest, id);
  }

  lemma FirstReport(c: Coord)
    requires Witnessed(c) && c.channel != [] && c.channel[0].MaintenanceCompletion? && c.channel[0].report.Some?
    ensures Recorded(c.barriers, c.channel[0].report.value.0, |c.replies|)
  {
  }

  // ---- The other steps -----------------------------------------------------------------------

  lemma CallWitnessed(s: System, step: Step)
    requires step.Submit? || step.RequestMaintenance? || step.RequestFlush? || step.RequestClose?
    requires Witnessed(s.c)
    ensures Witnessed(Call(s, step).c)
  {
    hide Witnessed, Send, Resolve, Recorded, RecordedAt;
    assert s.c.lifecycle != Failed by { NeverFailed(s.c); }
    forall event: Event | !event.MaintenanceCompletion? ensures Witnessed(Send(s, event).c) {
      SendWitnessed(s, event);
    }
    forall reply: Reply | ClosedAnswer(reply) && s.c.lifecycle != Open ensures Witnessed(Resolve(s, reply).c) {
      RespondWitnessed(s.c, reply);
      ResolveIs(s, reply);
    }
  }

  lemma NeverFailed(c: Coord)
    requires Witnessed(c)
    ensures c.lifecycle != Failed
  {
  }

  lemma SendWitnessed(s: System, event: Event)
    requires Witnessed(s.c) && !event.MaintenanceCompletion?
    ensures Witnessed(Send(s, event).c)
  {
    hide Witnessed;
    SameWitnessed(s.c, Send(s, event).c);
  }

  lemma ResolveIs(s: System, reply: Reply)
    ensures Resolve(s, reply).c == Respond(s.c, reply)
  {
  }

  lemma MembersUpdated(jobs: seq<Job>, i: nat, job: Job)
    requires i < |jobs| && !job.Maintain?
    ensures forall j :: j in jobs[i := job] && j.Maintain? ==> j in jobs
    ensures forall j :: j in Without(jobs, i) ==> j in jobs
  {
  }

  lemma WorkerWitnessed(s: System, i: nat, fault: Fault, applied: bool)
    requires ValidJob(s, i) && s.c.jobs[i].Fresh? && Witnessed(s.c)
    ensures Witnessed(RunJob(s, i, fault).c) && Witnessed(Unwind(s, i, applied).c)
  {
    hide Witnessed, Decide, Apply, Put, Get, Effective;
    var op := s.c.jobs[i].op;
    MembersUpdated(s.c.jobs, i, Crashed(op.key));
    RespondWitnessed(s.c, OpReply(op, Dropped));
    SameWitnessed(Respond(s.c, OpReply(op, Dropped)), Unwind(s, i, applied).c);
    assert Unwind(s, i, false).c.jobs == Unwind(s, i, applied).c.jobs;
    SameWitnessed(Respond(s.c, OpReply(op, Dropped)), Unwind(s, i, false).c);
    if Runnable(op.operation) {
      MembersUpdated(s.c.jobs, i, RunJob(s, i, fault).c.jobs[i]);
      SameWitnessed(s.c, RunJob(s, i, fault).c);
    }
  }

  lemma PostWitnessed(s: System, i: nat)
    requires ValidJob(s, i) && (s.c.jobs[i].Finished? || s.c.jobs[i].Crashed?) && Witnessed(s.c)
    ensures Witnessed(PostJob(s, i).c)
  {
    hide Witnessed;
    MembersUpdated(s.c.jobs, i, Crashed(0));
    SameWitnessed(s.c, PostJob(s, i).c);
  }

  lemma ReportWitnessed(s: System, i: nat, report: Option<Result<()>>)
    requires ValidJob(s, i) && s.c.jobs[i].Maintain? && Witnessed(s.c)
    ensures Witnessed(PostMaintained(s, i, report).c)
  {
    hide Witnessed, Recorded, RecordedAt;
    var id := s.c.jobs[i].id;
    assert Recorded(s.c.barriers, id, |s.c.replies|) by {
      JobRecorded(s.c, i);
    }
    MembersUpdated(s.c.jobs, i, Crashed(0));
    match report
    case Some(result) =>
      var d := s.c.(channel := s.c.channel + [MaintenanceCompletion(Some((id, result)))]);
      PushReport(s.c, id, result);
      SameWitnessed(d, PostMaintained(s, i, report).c);
    case None =>
      RespondWitnessed(s.c, MaintenanceReply(id, None));
      SameWitnessed(Respond(s.c, MaintenanceReply(id, None)), PostMaintained(s, i, report).c);
  }

  lemma JobRecorded(c: Coord, i: nat)
    requires Witnessed(c) && i < |c.jobs| && c.jobs[i].Maintain?
    ensures Recorded(c.barriers, c.jobs[i].id, |c.replies|)
  {
  }

  lemma PushReport(c: Coord, id: nat, result: Result<()>)
    requires Witnessed(c) && Recorded(c.barriers, id, |c.replies|)
    ensures Witnessed(c.(channel := c.channel + [MaintenanceCompletion(Some((id, result)))]))
  {
    hide Recorded, RecordedAt;
  }

  lemma StepWitnessed(env: Env, s: System, step: Step)
    requires ValidEnv(env) && Enabled(s, step) && Witnessed(s.c)
    ensures Witnessed(Next(env, s, step).c)
  {
    hide Witnessed, Handle, Call, RunJob, Unwind, PostJob, PostMaintained;
    match step
    case Coordinate => HandleWitnessed(env, s.c);
    case Disconnect => SameWitnessed(s.c, Leave(s).c);
    case CloneHandle =>
    case DropHandle =>
    case Run(i, fault) => WorkerWitnessed(s, i, fault, false);
    case Panic(i, applied) => WorkerWitnessed(s, i, NoFault, applied);
    case Post(i) => PostWitnessed(s, i);
    case PostMaintenance(i, report) => ReportWitnessed(s, i, report);
    case _ => CallWitnessed(s, step);
  }

  lemma {:induction false} RunsWitnessed(env: Env, s: System, run: seq<Step>)
    requires ValidEnv(env) && Legal(env, s, run) && Witnessed(s.c)
    ensures Witnessed(Outcome(env, s, run).c)
    decreases |run|
  {
    hide Witnessed, Next, Enabled;
    if run != [] {
      StepWitnessed(env, s, run[0]);
      RunsWitnessed(env, Next(env, s, run[0]), run[1..]);
    }
  }

  lemma {:induction false} TallyGrows(f: Reply -> multiset<nat>, replies: seq<Reply>, n: nat, m: nat)
    requires n <= m <= |replies|
    ensures Tally(f, replies[..n]) <= Tally(f, replies[..m])
  {
    assert replies[..m] == replies[..n] + replies[n..m];
    TallyAppend(f, replies[..n], replies[n..m]);
  }

  lemma ReachableWitnessed(env: Env, s: System)
    requires ValidEnv(env) && Reachable(env, s)
    ensures Witnessed(s.c)
  {
    hide Witnessed;
    var disk, run :| Legal(env, Opened(disk), run) && Outcome(env, Opened(disk), run) == s;
    assert Witnessed(Opened(disk).c) by {
      NothingToWitness(disk);
    }
    RunsWitnessed(env, Opened(disk), run);
  }

  lemma NothingToWitness(disk: map<KeyHash, Blob>)
    ensures Witnessed(Opened(disk).c)
  {
  }

  /** The accepted operations with a smaller identifier than a recorded barrier, and no others, had been answered when
      the record was made; they are those counted by its mark. */
  lemma RecordSeparates(env: Env, s: System, b: nat, i: nat)
    requires ValidEnv(env) && Reachable(env, s) && b < |s.c.barriers| && i < |s.c.order|
    ensures s.c.barriers[b].answered <= |s.c.replies|
    ensures i < s.c.barriers[b].mark <==> s.c.order[i].id < s.c.barriers[b].id
    ensures s.c.order[i].id < s.c.barriers[b].id
       <==> s.c.order[i].id in Tally(OpReplyIds(), s.c.replies[..s.c.barriers[b].answered])
  {
    hide Reachable, Tally, Held, FlatMap, Requests;
    BarriersHonoured(env, s);
    ReachablePlaced(env, s);
    var barrier := s.c.barriers[b];
    assert Stamp(barrier.id, barrier.mark) in Stamps(s.c.pending, s.c.barriers);
  }

  /** What was received before a flush, and nothing else, had been answered when the flush was. */
  lemma FlushSeparates(env: Env, s: System, j: nat, i: nat)
    requires ValidEnv(env) && Reachable(env, s) && i < |s.c.order|
    requires j < |s.c.replies| && Acknowledged(s.c.replies[j])
    ensures s.c.order[i].id < s.c.replies[j].id <==> s.c.order[i].id in Tally(OpReplyIds(), s.c.replies[..j])
  {
    hide Reachable, Tally;
    assert RecordedAt(s.c.barriers, s.c.replies[j].id, j) by {
      ReachableWitnessed(env, s);
    }
    var b :| 0 <= b < |s.c.barriers| && s.c.barriers[b].id == s.c.replies[j].id && s.c.barriers[b].answered == j;
    RecordSeparates(env, s, b, i);
  }

  /** What was received before maintenance that succeeded had been answered before its report. */
  lemma ReportFollows(env: Env, s: System, j: nat, i: nat)
    requires ValidEnv(env) && Reachable(env, s) && i < |s.c.order|
    requires j < |s.c.replies| && Reported(s.c.replies[j])
    requires s.c.order[i].id < s.c.replies[j].id
    ensures s.c.order[i].id in Tally(OpReplyIds(), s.c.replies[..j])
  {
    hide Reachable, Tally;
    assert Recorded(s.c.barriers, s.c.replies[j].id, j) by {
      ReachableWitnessed(env, s);
    }
    var b :| 0 <= b < |s.c.barriers| && s.c.barriers[b].id == s.c.replies[j].id && s.c.barriers[b].answered <= j;
    RecordSeparates(env, s, b, i);
    TallyGrows(OpReplyIds(), s.c.replies, s.c.barriers[b].answered, j);
  }

  /** While maintenance runs, what was received before it, and nothing else, has ended; all that has been answered. */
  lemma MaintenanceSeparates(env: Env, s: System, k: nat, i: nat)
    requires ValidEnv(env) && Reachable(env, s) && i < |s.c.order| && k < |s.c.jobs| && s.c.jobs[k].Maintain?
    ensures s.c.order[i].id < s.c.jobs[k].id <==> s.c.order[i].id in s.c.fate
    ensures s.c.order[i].id < s.c.jobs[k].id ==> s.c.order[i].id in Tally(OpReplyIds(), s.c.replies)
  {
    hide Reachable, Tally, Inv, InSequence, Stamps, Requests, FlatMap;
    ReachablePlaced(env, s);
    ReachableInv(env, s);
    var id := s.c.order[i].id;
    var b :| 0 <= b < |s.c.barriers| && s.c.barriers[b].id == s.c.jobs[k].id && s.c.barriers[b].mark == Moved(s.c);
    RecordSeparates(env, s, b, i);
    InvPending(env, s);
    if i < Moved(s.c) {
      TallyGrows(OpReplyIds(), s.c.replies, s.c.barriers[b].answered, |s.c.replies|);
      assert s.c.replies[..|s.c.replies|] == s.c.replies;
      ReplyMember(s.c.replies, id);
    }
  }

  /** The facts that the separation under maintenance rests on. */
  lemma InvPending(env: Env, s: System)
    requires Inv(env, s)
    ensures forall i :: Moved(s.c) <= i < |s.c.order| ==> s.c.order[i].id !in s.c.fate
    ensures Answered(s.c.order, s.c.fate, s.c.replies)
  {
    hide Tokens, Lines, Fifo, Distinct, Known, AllRunnable, Backlog, BarriersHeld, InFlight, Answered, Settled, Shape,
      Awake, Drained, Verdicts, Accounted, Admitted, Replayed, FlatMap, Tally;
    PendingUnanswered(s.c);
  }

  /** Barriers separate the operations as their place in the receive order says, with identifiers for that order: they
      are handed out as requests are sent. When a flush is acknowledged, exactly the accepted operations received
      before it have been answered. While maintenance runs, exactly those received before it have ended, and all of
      these have been answered; and before it reports success all of these have been answered. */
  lemma BarriersSeparate(env: Env, s: System)
    requires ValidEnv(env) && Reachable(env, s)
    ensures forall j, i :: 0 <= j < |s.c.replies| && Acknowledged(s.c.replies[j]) && 0 <= i < |s.c.order| ==>
      (s.c.order[i].id < s.c.replies[j].id <==> s.c.order[i].id in Tally(OpReplyIds(), s.c.replies[..j]))
    ensures forall k, i :: 0 <= k < |s.c.jobs| && s.c.jobs[k].Maintain? && 0 <= i < |s.c.order| ==>
      && (s.c.order[i].id < s.c.jobs[k].id <==> s.c.order[i].id in s.c.fate)
      && (s.c.order[i].id < s.c.jobs[k].id ==> s.c.order[i].id in Tally(OpReplyIds(), s.c.replies))
    ensures forall j, i :: 0 <= j < |s.c.replies| && Reported(s.c.replies[j]) && 0 <= i < |s.c.order| ==>
      (s.c.order[i].id < s.c.replies[j].id ==> s.c.order[i].id in Tally(OpReplyIds(), s.c.replies[..j]))
  {
    hide Reachable, Tally;
    forall j, i | 0 <= j < |s.c.replies| && Acknowledged(s.c.replies[j]) && 0 <= i < |s.c.order|
      ensures s.c.order[i].id < s.c.replies[j].id <==> s.c.order[i].id in Tally(OpReplyIds(), s.c.replies[..j])
    {
      FlushSeparates(env, s, j, i);
    }
    forall k, i | 0 <= k < |s.c.jobs| && s.c.jobs[k].Maintain? && 0 <= i < |s.c.order|
      ensures s.c.order[i].id < s.c.jobs[k].id <==> s.c.order[i].id in s.c.fate
      ensures s.c.order[i].id < s.c.jobs[k].id ==> s.c.order[i].id in Tally(OpReplyIds(), s.c.replies)
    {
      MaintenanceSeparates(env, s, k, i);
    }
    forall j, i | 0 <= j < |s.c.replies| && Reported(s.c.replies[j])
      && 0 <= i < |s.c.order| && s.c.order[i].id < s.c.replies[j].id
      ensures s.c.order[i].id in Tally(OpReplyIds(), s.c.replies[..j])
    {
      ReportFollows(env, s, j, i);
    }
  }
}
