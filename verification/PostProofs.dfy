/** Posting a completion, and leaving the receive loop, keep the system invariant. */
module PostProofs {
  import opened Collections
  import opened EngineTypes
  import opened Workers
  import opened Coordinator
  import opened EngineInvariants
  import opened DispatchProofs
  import opened AdvanceProofs
  import opened HandleProofs
  import opened StepProofs
  import opened EngineSystem
  import opened SystemProofs
  import opened WorkerProofs

  predicate Posts(job: Job, event: Event) {
    match job
    case Finished(op, result) => event == Completion(op.key, Some((op, result)))
    case Crashed(key) => event == Completion(key, None)
    case Maintain(id) =>
      event.MaintenanceCompletion? && (event.report.Some? ==> event.report.value.0 == id)
    case Fresh(_) => false
  }

  lemma PostTokens(c: Coord, i: nat, event: Event)
    requires Tokens(c.jobs, c.channel, c.active, c.maintenanceActive)
    requires i < |c.jobs| && Posts(c.jobs[i], event)
    ensures Tokens(Without(c.jobs, i), c.channel + [event], c.active, c.maintenanceActive)
    ensures |FlatMap(MaintenanceJob(), Without(c.jobs, i))| <= |FlatMap(MaintenanceJob(), c.jobs)|
  {
    hide FlatMap;
    var job := c.jobs[i];
    forall key: KeyHash
      ensures |FlatMap(JobFor(key), Without(c.jobs, i))| + |FlatMap(CompletionFor(key), c.channel + [event])|
           == |FlatMap(JobFor(key), c.jobs)| + |FlatMap(CompletionFor(key), c.channel)|
    {
      FlatMapSplit(JobFor(key), c.jobs, i);
      FlatMapRemove(JobFor(key), c.jobs, i);
      FlatMapPush(CompletionFor(key), c.channel, event);
      assert |JobFor(key)(job)| == |CompletionFor(key)(event)|;
    }
    FlatMapSplit(MaintenanceJob(), c.jobs, i);
    FlatMapRemove(MaintenanceJob(), c.jobs, i);
    FlatMapPush(MaintenanceDone(), c.channel, event);
  }

  lemma PostLines(c: Coord, i: nat)
    requires Lines(c.order, c.fate, c.jobs, c.queues, c.pending)
    requires i < |c.jobs| && !c.jobs[i].Fresh?
    ensures Lines(c.order, c.fate, Without(c.jobs, i), c.queues, c.pending)
  {
    hide FlatMap;
    forall key: KeyHash
      ensures FlatMap(FreshFor(key), Without(c.jobs, i)) == FlatMap(FreshFor(key), c.jobs)
    {
      FlatMapSplit(FreshFor(key), c.jobs, i);
      FlatMapRemove(FreshFor(key), c.jobs, i);
      assert FreshFor(key)(c.jobs[i]) == [];
    }
  }

  lemma PostRunnable(c: Coord, i: nat, event: Event)
    requires AllRunnable(c.queues, c.pending, c.channel, c.jobs)
    requires i < |c.jobs| && !event.Submission?
    ensures AllRunnable(c.queues, c.pending, c.channel + [event], Without(c.jobs, i))
  {
  }

  lemma PostInFlight(c: Coord, i: nat, event: Event)
    requires InFlight(c.fate, c.jobs, c.channel, None)
    requires i < |c.jobs| && Posts(c.jobs[i], event)
    ensures InFlight(c.fate, Without(c.jobs, i), c.channel + [event], None)
  {
    assert c.jobs[i].Finished? ==> Carries(c.fate, c.jobs[i].op, c.jobs[i].result);
  }

  lemma PostSettled(c: Coord, i: nat, event: Event)
    requires Settled(c.order, c.fate, c.replies, c.jobs, c.channel, None)
    requires i < |c.jobs| && Posts(c.jobs[i], event)
    ensures Settled(c.order, c.fate, c.replies, Without(c.jobs, i), c.channel + [event], None)
  {
    TallySplit(FinishedIds(), c.jobs, i);
    TallyPush(CompletedIds(), c.channel, event);
    assert FinishedIds()(c.jobs[i]) == CompletedIds()(event);
  }

  lemma PostCore(c: Coord, i: nat, event: Event)
    requires Core(c, None) && i < |c.jobs| && Posts(c.jobs[i], event)
    ensures Core(c.(jobs := Without(c.jobs, i), channel := c.channel + [event]), None)
  {
    hide Tokens, Lines, Fifo, Distinct, Known, AllRunnable, Backlog, BarriersHeld, InFlight, Answered, Settled, Without;
    PostTokens(c, i, event);
    PostLines(c, i);
    PostRunnable(c, i, event);
    PostInFlight(c, i, event);
    PostSettled(c, i, event);
  }

  lemma PostEndpoints(c: Coord, i: nat, event: Event)
    requires i < |c.jobs|
    ensures Endpoints(c.(jobs := Without(c.jobs, i), channel := c.channel + [event])) + JobIds()(c.jobs[i])
         == Endpoints(c) + EventIds()(event)
  {
    hide QueueIds, Tally;
    TallySplit(JobIds(), c.jobs, i);
    TallyPush(EventIds(), c.channel, event);
    var rest := Tally(PendingIds(), c.pending) + QueueIds(c.queues) + Tally(ReplyIds(), c.replies)
      + Tally(EventIds(), c.channel) + Tally(JobIds(), Without(c.jobs, i));
    assert Endpoints(c.(jobs := Without(c.jobs, i), channel := c.channel + [event])) == rest + EventIds()(event);
    assert Endpoints(c) == rest + JobIds()(c.jobs[i]);
  }

  lemma PostShape(env: Env, c: Coord, i: nat, event: Event)
    requires Shape(env, c) && Awake(c) && i < |c.jobs|
    requires |FlatMap(MaintenanceJob(), Without(c.jobs, i))| <= |FlatMap(MaintenanceJob(), c.jobs)|
    ensures var s := c.(jobs := Without(c.jobs, i), channel := c.channel + [event]); Shape(env, s) && Awake(s)
  {
    hide FlatMap, Without;
  }

  /** Posting a job's completion, with the endpoint it answers, if it still has one. */
  lemma PostsInv(env: Env, s: System, i: nat, event: Event)
    requires Inv(env, s) && ValidJob(s, i) && Posts(s.c.jobs[i], event)
    requires EventIds()(event) == JobIds()(s.c.jobs[i])
    ensures Inv(env, s.(c := s.c.(jobs := Without(s.c.jobs, i), channel := s.c.channel + [event])))
  {
    hide Core, Shape, Awake, Replayed, Endpoints, Without, EventIds, JobIds, Posts;
    PostCore(s.c, i, event);
    JobsTokens(s.c);
    PostTokens(s.c, i, event);
    PostShape(env, s.c, i, event);
    PostEndpoints(s.c, i, event);
    Cancel(Endpoints(s.c.(jobs := Without(s.c.jobs, i), channel := s.c.channel + [event])), Endpoints(s.c),
           JobIds()(s.c.jobs[i]));
    PostSubmissions(s.c, i, event);
  }

  lemma PostSubmissions(c: Coord, i: nat, event: Event)
    requires i < |c.jobs| && Posts(c.jobs[i], event)
    ensures Tally(SubmissionIds(), c.channel + [event]) == Tally(SubmissionIds(), c.channel)
  {
    TallyPush(SubmissionIds(), c.channel, event);
  }

  lemma CompletionPosts(job: Job)
    requires job.Finished? || job.Crashed?
    ensures Posts(job, CompletionOf(job)) && EventIds()(CompletionOf(job)) == JobIds()(job)
  {
  }

  lemma PostInv(env: Env, s: System, i: nat)
    requires ValidJob(s, i) && (s.c.jobs[i].Finished? || s.c.jobs[i].Crashed?) && Inv(env, s)
    ensures Inv(env, PostJob(s, i))
  {
    hide Inv, Without;
    CompletionPosts(s.c.jobs[i]);
    PostsInv(env, s, i, CompletionOf(s.c.jobs[i]));
  }

  /** A maintenance job that panicked drops its reply sender before it posts. */
  lemma PanickedMaintenance(env: Env, s: System, i: nat)
    requires ValidJob(s, i) && s.c.jobs[i].Maintain? && Inv(env, s)
    ensures Inv(env, PostMaintained(s, i, None))
  {
    hide Core, Shape, Awake, Replayed, Endpoints, Without, EventIds, JobIds, ReplyIds, Posts;
    var event := MaintenanceCompletion(None);
    var id := s.c.jobs[i].id;
    var reply := MaintenanceReply(id, None);
    assert Posts(s.c.jobs[i], event) by { PanicPosts(id); }
    PostCore(s.c, i, event);
    JobsTokens(s.c);
    PostTokens(s.c, i, event);
    PostShape(env, s.c, i, event);
    var d := s.c.(jobs := Without(s.c.jobs, i), channel := s.c.channel + [event]);
    AcknowledgeCore(d, reply);
    ResolveShape(env, d, reply);
    PostEndpoints(s.c, i, event);
    PanicPosts(id);
    assert Endpoints(Respond(d, reply)) == Endpoints(s.c);
    PostSubmissions(s.c, i, event);
    AppendVerdicts(s.c.lifecycle, s.c.replies, reply);
    assert PostMaintained(s, i, None).c == Respond(d, reply);
  }

  lemma PanicPosts(id: nat)
    ensures Posts(Maintain(id), MaintenanceCompletion(None))
    ensures JobIds()(Maintain(id)) == multiset{id} == ReplyIds()(MaintenanceReply(id, None))
    ensures EventIds()(MaintenanceCompletion(None)) == multiset{}
  {
  }

  lemma PostMaintenanceInv(env: Env, s: System, i: nat, report: Option<Result<()>>)
    requires ValidJob(s, i) && s.c.jobs[i].Maintain? && Inv(env, s)
    ensures Inv(env, PostMaintained(s, i, report))
  {
    hide Inv, Without;
    match report
    case None => PanickedMaintenance(env, s, i);
    case Some(result) => PostsInv(env, s, i, MaintenanceCompletion(Some((s.c.jobs[i].id, result))));
  }

  // ---- Leaving the receive loop ------------------------------------------------------------

  /** When nobody can send any more, nothing is left to do. */
  lemma NothingLeft(env: Env, s: System)
    requires ValidEnv(env) && Inv(env, s) && Enabled(s, Disconnect)
    ensures Drained(s.c)
  {
    hide Lines, Fifo, Distinct, Known, AllRunnable, Backlog, BarriersHeld, InFlight, Answered, Settled,
      Replayed, Accounted, Admitted;
    var c := s.c;
    forall key: KeyHash
      ensures key !in c.active
    {
      assert |FlatMap(JobFor(key), c.jobs)| == 0;
    }
    assert !c.maintenanceActive;
    assert c.queues == map[];
  }

  lemma LeaveInv(env: Env, s: System)
    requires ValidEnv(env) && Inv(env, s) && Enabled(s, Disconnect)
    ensures Inv(env, Leave(s))
  {
    NothingLeft(env, s);
    hide Core, Replayed, Endpoints;
    LeaveCore(s.c);
    Unclosed(env, s.c);
  }

  lemma LeaveCore(c: Coord)
    requires Core(c, None)
    ensures var d := c.(pool := ShutdownPool(c.pool), lifecycle := Closed, running := false);
            Core(d, None) && Endpoints(d) == Endpoints(c)
  {
  }
}
