/** Replaying the pending deque keeps the invariants, and a barrier passes only when what precedes it is done. */
module AdvanceProofs {
  import opened Collections
  import opened EngineTypes
  import opened Workers
  import opened Coordinator
  import opened EngineInvariants
  import opened DispatchProofs

  lemma {:induction false} TallyNone<T>(f: T -> multiset<nat>, s: seq<T>)
    requires forall i :: 0 <= i < |s| ==> f(s[i]) == multiset{}
    ensures Tally(f, s) == multiset{}
  {
    if s != [] {
      TallyNone(f, s[1..]);
    }
  }

  /** A key with no slot has neither job nor completion. */
  lemma NoSlotNoJob(c: Coord, key: KeyHash)
    requires Tokens(c.jobs, c.channel, c.active, c.maintenanceActive) && key !in c.active
    ensures forall i :: 0 <= i < |c.jobs| ==> !IsJobFor(c.jobs[i], key)
    ensures forall i :: 0 <= i < |c.channel| && c.channel[i].Completion? ==> c.channel[i].key != key
    ensures FlatMap(FreshFor(key), c.jobs) == []
  {
    assert |FlatMap(JobFor(key), c.jobs)| == 0 && |FlatMap(CompletionFor(key), c.channel)| == 0;
    forall i | 0 <= i < |c.jobs|
      ensures !IsJobFor(c.jobs[i], key)
    {
      FlatMapSplit(JobFor(key), c.jobs, i);
    }
    forall i | 0 <= i < |c.channel| && c.channel[i].Completion?
      ensures c.channel[i].key != key
    {
      FlatMapSplit(CompletionFor(key), c.channel, i);
    }
    NoJobNoFresh(c.jobs, key);
  }

  lemma NoSlotsNoJobs(c: Coord)
    requires Tokens(c.jobs, c.channel, c.active, c.maintenanceActive) && c.active == {}
    ensures forall i :: 0 <= i < |c.jobs| ==> c.jobs[i].Maintain?
    ensures forall i :: 0 <= i < |c.channel| ==> !c.channel[i].Completion?
  {
    forall i | 0 <= i < |c.jobs|
      ensures c.jobs[i].Maintain?
    {
      match c.jobs[i]
      case Fresh(op) => NoSlotNoJob(c, op.key);
      case Finished(op, _) => NoSlotNoJob(c, op.key);
      case Crashed(key) => NoSlotNoJob(c, key);
      case Maintain(_) =>
    }
    forall i | 0 <= i < |c.channel|
      ensures !c.channel[i].Completion?
    {
      if c.channel[i].Completion? {
        NoSlotNoJob(c, c.channel[i].key);
      }
    }
  }

  lemma {:induction false} PendingMember(pending: seq<PendingEvent>, key: KeyHash, op: Op)
    requires op in FlatMap(PendingFor(key), pending)
    ensures op in FlatMap(SubmissionOf(), pending)
  {
    if op !in PendingFor(key)(pending[0]) {
      PendingMember(pending[1..], key, op);
    }
  }

  /** When nothing is queued or running, every submission that left the deque has ended. */
  lemma IdleMeansEnded(c: Coord, i: nat)
    requires Tokens(c.jobs, c.channel, c.active, c.maintenanceActive)
    requires Lines(c.order, c.fate, c.jobs, c.queues, c.pending)
    requires Distinct(c.order) && Backlog(c.order, c.pending)
    requires !Busy(c) && i < Moved(c)
    ensures c.order[i].id in c.fate
  {
    var op := c.order[i];
    assert op !in c.order[Moved(c)..];
    UnsettledMember(c.order, c.fate, op.key, op);
    NoSlotNoJob(c, op.key);
    assert FlatMap(UnsettledFor(c.fate, op.key), c.order)
        == [] + Queue(c.queues, op.key) + FlatMap(PendingFor(op.key), c.pending);
    if op in FlatMap(PendingFor(op.key), c.pending) {
      PendingMember(c.pending, op.key, op);
    }
  }

  lemma IdleMeansAnswered(c: Coord)
    requires Core(c, None) && !Busy(c)
    ensures forall i :: 0 <= i < Moved(c) ==> c.order[i].id in Tally(OpReplyIds(), c.replies)
  {
    NoSlotsNoJobs(c);
    TallyNone(FinishedIds(), c.jobs);
    TallyNone(CompletedIds(), c.channel);
    forall i | 0 <= i < Moved(c)
      ensures c.order[i].id in Tally(OpReplyIds(), c.replies)
    {
      IdleMeansEnded(c, i);
    }
  }

  lemma {:induction false} MemberPending(pending: seq<PendingEvent>, op: Op)
    requires op in FlatMap(SubmissionOf(), pending)
    ensures op in FlatMap(PendingFor(op.key), pending)
  {
    if op !in SubmissionOf()(pending[0]) {
      MemberPending(pending[1..], op);
    }
  }

  lemma {:induction false} ReplyMember(replies: seq<Reply>, id: nat)
    requires id in Tally(OpReplyIds(), replies)
    ensures exists j :: 0 <= j < |replies| && replies[j].OpReply? && replies[j].op.id == id
  {
    if id in OpReplyIds()(replies[0]) {
      assert replies[0].OpReply? && replies[0].op.id == id;
    } else {
      ReplyMember(replies[1..], id);
      var j :| 0 <= j < |replies[1..]| && replies[1..][j].OpReply? && replies[1..][j].op.id == id;
      assert replies[j + 1] == replies[1..][j];
    }
  }

  /** What is still in the deque has neither ended nor been answered. */
  lemma PendingUnanswered(c: Coord)
    requires Lines(c.order, c.fate, c.jobs, c.queues, c.pending) && Backlog(c.order, c.pending)
    requires Answered(c.order, c.fate, c.replies)
    ensures forall i :: Moved(c) <= i < |c.order| ==>
      c.order[i].id !in c.fate && c.order[i].id !in Tally(OpReplyIds(), c.replies)
  {
    hide FlatMap, Tally;
    forall i | Moved(c) <= i < |c.order|
      ensures c.order[i].id !in c.fate && c.order[i].id !in Tally(OpReplyIds(), c.replies)
    {
      var op := c.order[i];
      assert op == c.order[Moved(c)..][i - Moved(c)];
      MemberPending(c.pending, op);
      UnsettledMember(c.order, c.fate, op.key, op);
      assert op in FlatMap(UnsettledFor(c.fate, op.key), c.order);
      if op.id in Tally(OpReplyIds(), c.replies) {
        ReplyMember(c.replies, op.id);
      }
    }
  }

  // ---- The three ways the front of the deque moves -----------------------------

  function Rest(c: Coord): Coord
    requires c.pending != []
  {
    c.(pending := c.pending[1..])
  }

  lemma RestBacklog(c: Coord)
    requires c.pending != [] && Backlog(c.order, c.pending) && !c.pending[0].PendingSubmission?
    ensures Backlog(c.order, c.pending[1..])
    ensures MarkFits(c.pending[0], Moved(Rest(c)))
    ensures Moved(Rest(c)) == Moved(c)
  {
    var rest := c.pending[1..];
    forall i | 0 <= i < |rest|
      ensures MarkFits(rest[i], |c.order| - |FlatMap(SubmissionOf(), rest[i + 1..])|)
    {
      assert rest[i] == c.pending[i + 1] && rest[i + 1..] == c.pending[i + 1 + 1..];
    }
  }

  lemma UnparkBacklog(c: Coord)
    requires c.pending != [] && Backlog(c.order, c.pending) && c.pending[0].PendingSubmission?
    ensures Backlog(c.order, c.pending[1..])
  {
    var rest := c.pending[1..];
    assert FlatMap(SubmissionOf(), c.pending) == [c.pending[0].op] + FlatMap(SubmissionOf(), rest);
    forall i | 0 <= i < |rest|
      ensures MarkFits(rest[i], |c.order| - |FlatMap(SubmissionOf(), rest[i + 1..])|)
    {
      assert rest[i] == c.pending[i + 1] && rest[i + 1..] == c.pending[i + 1 + 1..];
    }
  }

  lemma EnqueueQueue(c: Coord, op: Op, key: KeyHash)
    ensures Queue(Enqueue(c, op).queues, key) == Queue(c.queues, key) + if key == op.key then [op] else []
  {
  }

  lemma UnparkLines(c: Coord)
    requires c.pending != [] && c.pending[0].PendingSubmission?
    requires Lines(c.order, c.fate, c.jobs, c.queues, c.pending)
    ensures var s := Enqueue(Rest(c), c.pending[0].op); Lines(s.order, s.fate, s.jobs, s.queues, s.pending)
  {
    hide Enqueue, Queue, FlatMap;
    var op := c.pending[0].op;
    var s := Enqueue(Rest(c), op);
    assert s == Rest(c).(queues := s.queues) by { EnqueueFrame(Rest(c), op); }
    forall key: KeyHash
      ensures FlatMap(UnsettledFor(s.fate, key), s.order)
           == FlatMap(FreshFor(key), s.jobs) + Queue(s.queues, key) + FlatMap(PendingFor(key), s.pending)
    {
      FlatMapPop(PendingFor(key), c.pending);
      EnqueueQueue(Rest(c), op, key);
    }
  }

  lemma EnqueueFrame(c: Coord, op: Op)
    ensures Enqueue(c, op) == c.(queues := Enqueue(c, op).queues)
  {
  }

  lemma EnqueueIds(c: Coord, op: Op)
    ensures QueueIds(Enqueue(c, op).queues) == QueueIds(c.queues) + multiset{op.id}
  {
    var f := QueueTally();
    var q := Queue(c.queues, op.key);
    TallyPush(IdOf(), q, op);
    assert f(q + [op]) == f(q) + multiset{op.id};
    assert op.key !in c.queues ==> f(q) == multiset{};
    GatherSet(f, c.queues, op.key, q + [op]);
    Cancel(QueueIds(Enqueue(c, op).queues), QueueIds(c.queues) + multiset{op.id}, f(q));
  }

  lemma UnparkEndpoints(c: Coord)
    requires c.pending != [] && c.pending[0].PendingSubmission?
    ensures Endpoints(Enqueue(Rest(c), c.pending[0].op)) == Endpoints(c)
  {
    hide Tally, QueueIds;
    EnqueueIds(Rest(c), c.pending[0].op);
    TallyPop(PendingIds(), c.pending);
  }

  lemma UnparkRunnable(c: Coord)
    requires AllRunnable(c.queues, c.pending, c.channel, c.jobs)
    requires c.pending != [] && c.pending[0].PendingSubmission?
    ensures AllRunnable(Enqueue(c, c.pending[0].op).queues, c.pending[1..], c.channel, c.jobs)
  {
  }

  lemma UnparkCore(c: Coord, hand: Hand)
    requires Core(c, hand) && c.pending != [] && c.pending[0].PendingSubmission?
    ensures Core(Enqueue(Rest(c), c.pending[0].op), hand)
  {
    hide Tokens, Lines, Fifo, Distinct, Known, AllRunnable, Backlog, BarriersHeld, InFlight, Answered, Settled;
    UnparkBacklog(c);
    UnparkLines(c);
    UnparkRunnable(c);
  }

  lemma BarrierHolds(c: Coord, id: nat, mark: nat)
    requires BarriersHeld(c.barriers, c.order, c.replies) && mark == Moved(c) <= |c.order|
    requires forall i :: 0 <= i < |c.order| ==> (i < Moved(c) <==> c.order[i].id in Tally(OpReplyIds(), c.replies))
    ensures BarriersHeld(Honour(c, id, mark).barriers, c.order, c.replies)
  {
    hide Tally;
    assert c.replies[..|c.replies|] == c.replies;
  }

  /** Replies that concern no operation leave every statement about operations alone. */
  lemma OtherReply(c: Coord, reply: Reply, hand: Hand)
    requires !reply.OpReply?
    requires BarriersHeld(c.barriers, c.order, c.replies)
    requires Answered(c.order, c.fate, c.replies)
    requires Settled(c.order, c.fate, c.replies, c.jobs, c.channel, hand)
    ensures BarriersHeld(c.barriers, c.order, c.replies + [reply])
    ensures Answered(c.order, c.fate, c.replies + [reply])
    ensures Settled(c.order, c.fate, c.replies + [reply], c.jobs, c.channel, hand)
  {
    hide BarriersHeld, Tally;
    RepliesKeepBarriers(c.barriers, c.order, c.replies, [reply]);
    TallyPush(OpReplyIds(), c.replies, reply);
  }

  lemma RestRunnable(c: Coord)
    requires AllRunnable(c.queues, c.pending, c.channel, c.jobs) && c.pending != []
    ensures AllRunnable(c.queues, c.pending[1..], c.channel, c.jobs)
  {
  }

  /** A passed flush satisfies what a barrier promises. */
  lemma FlushCore(c: Coord)
    requires Core(c, None) && !Busy(c) && c.pending != [] && c.pending[0].PendingFlush?
    ensures Core(Respond(Honour(Rest(c), c.pending[0].id, c.pending[0].mark),
                         FlushReply(c.pending[0].id, Ok(()))), None)
  {
    hide Tokens, Lines, Fifo, Distinct, Known, AllRunnable, Backlog, BarriersHeld, InFlight, Answered, Settled, Busy,
      FlatMap;
    IdleMeansAnswered(c);
    PendingUnanswered(c);
    RestBacklog(c);
    RestLines(c);
    RestRunnable(c);
    BarrierHolds(Rest(c), c.pending[0].id, c.pending[0].mark);
    OtherReply(Honour(Rest(c), c.pending[0].id, c.pending[0].mark), FlushReply(c.pending[0].id, Ok(())), None);
  }

  lemma FlushEndpoints(c: Coord)
    requires c.pending != [] && c.pending[0].PendingFlush?
    ensures Endpoints(Respond(Honour(Rest(c), c.pending[0].id, c.pending[0].mark),
                              FlushReply(c.pending[0].id, Ok(())))) == Endpoints(c)
  {
    hide Tally, QueueIds;
    TallyPush(ReplyIds(), c.replies, FlushReply(c.pending[0].id, Ok(())));
    TallyPop(PendingIds(), c.pending);
  }

  lemma RestLines(c: Coord)
    requires Lines(c.order, c.fate, c.jobs, c.queues, c.pending)
    requires c.pending != [] && !c.pending[0].PendingSubmission?
    ensures Lines(c.order, c.fate, c.jobs, c.queues, c.pending[1..])
  {
    forall key: KeyHash
      ensures FlatMap(PendingFor(key), c.pending) == FlatMap(PendingFor(key), c.pending[1..])
    {
      FlatMapPop(PendingFor(key), c.pending);
    }
  }

  lemma MaintenanceTokens(c: Coord, id: nat)
    requires Tokens(c.jobs, c.channel, c.active, false)
    ensures Tokens(c.jobs + [Maintain(id)], c.channel, c.active, true)
    ensures Tokens(c.jobs, c.channel + [MaintenanceCompletion(None)], c.active, true)
  {
    hide FlatMap;
    forall key: KeyHash
      ensures FlatMap(JobFor(key), c.jobs + [Maintain(id)]) == FlatMap(JobFor(key), c.jobs)
      ensures FlatMap(CompletionFor(key), c.channel + [MaintenanceCompletion(None)])
           == FlatMap(CompletionFor(key), c.channel)
    {
      FlatMapPush(JobFor(key), c.jobs, Maintain(id));
      FlatMapPush(CompletionFor(key), c.channel, MaintenanceCompletion(None));
    }
    FlatMapPush(MaintenanceJob(), c.jobs, Maintain(id));
    FlatMapPush(MaintenanceDone(), c.channel, MaintenanceCompletion(None));
  }

  /** A maintenance job or its completion changes nothing about operations. */
  lemma MaintenanceFrame(c: Coord, id: nat)
    requires Lines(c.order, c.fate, c.jobs, c.queues, c.pending)
    requires AllRunnable(c.queues, c.pending, c.channel, c.jobs)
    requires InFlight(c.fate, c.jobs, c.channel, None)
    requires Settled(c.order, c.fate, c.replies, c.jobs, c.channel, None)
    ensures Lines(c.order, c.fate, c.jobs + [Maintain(id)], c.queues, c.pending)
    ensures AllRunnable(c.queues, c.pending, c.channel, c.jobs + [Maintain(id)])
    ensures AllRunnable(c.queues, c.pending, c.channel + [MaintenanceCompletion(None)], c.jobs)
    ensures InFlight(c.fate, c.jobs + [Maintain(id)], c.channel, None)
    ensures InFlight(c.fate, c.jobs, c.channel + [MaintenanceCompletion(None)], None)
    ensures Settled(c.order, c.fate, c.replies, c.jobs + [Maintain(id)], c.channel, None)
    ensures Settled(c.order, c.fate, c.replies, c.jobs, c.channel + [MaintenanceCompletion(None)], None)
  {
    assert Lines(c.order, c.fate, c.jobs + [Maintain(id)], c.queues, c.pending) by {
      hide InFlight, Settled, AllRunnable;
      forall key: KeyHash
        ensures FlatMap(FreshFor(key), c.jobs + [Maintain(id)]) == FlatMap(FreshFor(key), c.jobs)
      {
        FlatMapPush(FreshFor(key), c.jobs, Maintain(id));
      }
    }
    assert AllRunnable(c.queues, c.pending, c.channel, c.jobs + [Maintain(id)])
        && AllRunnable(c.queues, c.pending, c.channel + [MaintenanceCompletion(None)], c.jobs) by {
      hide InFlight, Settled, Lines;
    }
    hide Lines, AllRunnable;
    PushPlainJob(c, Maintain(id), None);
    TallyPush(CompletedIds(), c.channel, MaintenanceCompletion(None));
  }

  /** The deque's front maintenance entry, dispatched or refused. */
  function BeginMaintenance(env: Env, c: Coord): Coord
    requires c.pending != [] && c.pending[0].PendingMaintenance?
  {
    DispatchMaintenance(env, Rest(c).(maintenanceActive := true), c.pending[0].id, c.pending[0].mark)
  }

  lemma BeginMaintenanceCore(env: Env, c: Coord)
    requires Core(c, None) && !Busy(c) && !c.maintenanceActive
    requires c.pending != [] && c.pending[0].PendingMaintenance?
    ensures Core(BeginMaintenance(env, c), None)
    ensures BeginMaintenance(env, c).fate == c.fate
  {
    hide Tokens, Lines, Fifo, Distinct, Known, AllRunnable, Backlog, BarriersHeld, InFlight, Answered, Settled, Busy,
      FlatMap;
    var id := c.pending[0].id;
    IdleMeansAnswered(c);
    PendingUnanswered(c);
    RestBacklog(c);
    RestLines(c);
    RestRunnable(c);
    MaintenanceFrame(Rest(c), id);
    MaintenanceTokens(c, id);
    BarrierHolds(Rest(c), c.pending[0].id, c.pending[0].mark);
    OtherReply(Rest(c).(channel := c.channel + [MaintenanceCompletion(None)]),
               MaintenanceReply(id, Some(Err(WorkerUnavailable))), None);
  }

  lemma BeginMaintenanceEndpoints(env: Env, c: Coord)
    requires c.pending != [] && c.pending[0].PendingMaintenance?
    ensures Endpoints(BeginMaintenance(env, c)) == Endpoints(c)
  {
    hide Tally, QueueIds;
    var id := c.pending[0].id;
    TallyPush(JobIds(), c.jobs, Maintain(id));
    TallyPush(EventIds(), c.channel, MaintenanceCompletion(None));
    TallyPush(ReplyIds(), c.replies, MaintenanceReply(id, Some(Err(WorkerUnavailable))));
    TallyPop(PendingIds(), c.pending);
  }

  // ---- The whole replay --------------------------------------------------------

  lemma {:induction false} AdvanceCore(env: Env, c: Coord)
    requires ValidEnv(env) && Core(c, None)
    ensures Core(Advance(env, c), None)
    ensures Endpoints(Advance(env, c)) == Endpoints(c)
    ensures OnlyRefusals(c.fate, Advance(env, c).fate)
    decreases |c.pending|
  {
    hide Core, Endpoints, DispatchIfIdle, DispatchMaintenance;
    if !c.maintenanceActive && c.pending != [] {
      match c.pending[0]
      case PendingMaintenance(id, mark) =>
        if !Busy(c) {
          BeginMaintenanceCore(env, c);
          BeginMaintenanceEndpoints(env, c);
        }
      case PendingSubmission(op) =>
        var s := Enqueue(Rest(c), op);
        UnparkCore(c, None);
        UnparkEndpoints(c);
        DispatchCore(env, s, op.key, None);
        DispatchKeepsPending(env, s, op.key);
        AdvanceCore(env, DispatchIfIdle(env, s, op.key));
      case PendingFlush(id, mark) =>
        if !Busy(c) {
          FlushCore(c);
          FlushEndpoints(c);
          AdvanceCore(env, Respond(Honour(Rest(c), id, mark), FlushReply(id, Ok(()))));
        }
      case PendingClose(_) =>
    }
  }

  /** The replay receives nothing, and sends at most the completion of a refused maintenance. */
  lemma {:induction false} AdvanceFrame(env: Env, c: Coord)
    requires ValidEnv(env)
    ensures var s := Advance(env, c);
            && s.order == c.order && s.lifecycle == c.lifecycle && s.running == c.running
            && (s.channel == c.channel || s.channel == c.channel + [MaintenanceCompletion(None)])
            && (NoCloses(c.replies) ==> NoCloses(s.replies))
    decreases |c.pending|
  {
    hide DispatchIfIdle;
    if !c.maintenanceActive && c.pending != [] {
      match c.pending[0]
      case PendingMaintenance(id, mark) =>
      case PendingSubmission(op) =>
        var s := Enqueue(Rest(c), op);
        DispatchFrame(env, s, op.key);
        AdvanceFrame(env, DispatchIfIdle(env, s, op.key));
      case PendingFlush(id, mark) =>
        if !Busy(c) {
          AdvanceFrame(env, Respond(Honour(Rest(c), id, mark), FlushReply(id, Ok(()))));
        }
      case PendingClose(_) =>
    }
  }
}
