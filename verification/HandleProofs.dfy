/** One iteration of the event loop, from any reachable state. */
module HandleProofs {
  import opened Collections
  import opened EngineTypes
  import opened Workers
  import opened Coordinator
  import opened EngineInvariants
  import opened DispatchProofs
  import opened AdvanceProofs
  import opened EventProofs

  /** An identifier no accepted operation and no reply has used. */
  ghost predicate Unused(c: Coord, op: Op) {
    op.id !in Ids(c.order) && op.id !in Tally(OpReplyIds(), c.replies)
  }

  // ---- Receiving a submission ------------------------------------------------------

  function Received(c: Coord, op: Op): Coord {
    c.(order := c.order + [op])
  }

  function Parked(c: Coord, op: Op): Coord {
    Received(c, op).(pending := c.pending + [PendingSubmission(op)])
  }

  lemma ReceiveUnsettled(c: Coord, op: Op, key: KeyHash)
    requires Known(c.order, c.fate) && op.id !in Ids(c.order)
    ensures FlatMap(UnsettledFor(c.fate, key), c.order + [op])
         == FlatMap(UnsettledFor(c.fate, key), c.order) + if op.key == key then [op] else []
  {
    FlatMapPush(UnsettledFor(c.fate, key), c.order, op);
  }

  /** Receiving an operation that nothing has heard of keeps all statements about past operations. */
  lemma ReceiveHistory(c: Coord, op: Op)
    requires Core(c, None) && Unused(c, op)
    ensures var order := c.order + [op];
            && Fifo(order, c.fate) && Distinct(order) && Known(order, c.fate)
            && BarriersHeld(c.barriers, order, c.replies)
            && Answered(order, c.fate, c.replies)
            && Settled(order, c.fate, c.replies, c.jobs, c.channel, None)
  {
    hide Tokens, Lines, AllRunnable, Backlog, BarriersHeld, InFlight, FlatMap;
    ReceiveBarriers(c, op);
    ReceiveAnswered(c, op);
    IdsPush(c.order, op);
    assert op.id !in c.fate;
  }

  lemma ReceiveBarriers(c: Coord, op: Op)
    requires BarriersHeld(c.barriers, c.order, c.replies) && Unused(c, op)
    ensures BarriersHeld(c.barriers, c.order + [op], c.replies)
  {
    hide Tally, Ids;
    forall b | 0 <= b < |c.barriers|
      ensures op.id !in Tally(OpReplyIds(), c.replies[..c.barriers[b].answered])
    {
      var n := c.barriers[b].answered;
      assert c.replies == c.replies[..n] + c.replies[n..];
      TallyAppend(OpReplyIds(), c.replies[..n], c.replies[n..]);
    }
  }

  lemma IdsPush(order: seq<Op>, op: Op)
    ensures Ids(order + [op]) == Ids(order) + {op.id}
  {
    var more := order + [op];
    assert more[|order|] == op;
    forall i | 0 <= i < |order|
      ensures order[i].id in Ids(more)
    {
      assert more[i] == order[i];
    }
  }

  lemma {:induction false} ReplyTallied(replies: seq<Reply>, j: nat)
    requires j < |replies| && replies[j].OpReply?
    ensures replies[j].op.id in Tally(OpReplyIds(), replies)
  {
    TallySplit(OpReplyIds(), replies, j);
  }

  lemma ReceiveAnswered(c: Coord, op: Op)
    requires Answered(c.order, c.fate, c.replies) && Unused(c, op)
    ensures Answered(c.order + [op], c.fate, c.replies)
  {
    forall j | 0 <= j < |c.replies| && c.replies[j].OpReply?
      ensures c.replies[j].op.id != op.id
    {
      ReplyTallied(c.replies, j);
    }
  }

  lemma ParkLines(c: Coord, op: Op)
    requires Lines(c.order, c.fate, c.jobs, c.queues, c.pending)
    requires Known(c.order, c.fate) && op.id !in Ids(c.order)
    ensures var s := Parked(c, op); Lines(s.order, s.fate, s.jobs, s.queues, s.pending)
  {
    forall key: KeyHash
      ensures FlatMap(UnsettledFor(c.fate, key), c.order + [op])
           == FlatMap(FreshFor(key), c.jobs) + Queue(c.queues, key)
            + FlatMap(PendingFor(key), c.pending + [PendingSubmission(op)])
    {
      ReceiveUnsettled(c, op, key);
      FlatMapPush(PendingFor(key), c.pending, PendingSubmission(op));
    }
  }

  lemma {:induction false} ParkBacklog(c: Coord, op: Op)
    requires Backlog(c.order, c.pending)
    ensures Backlog(c.order + [op], c.pending + [PendingSubmission(op)])
  {
    var pending := c.pending + [PendingSubmission(op)];
    var order := c.order + [op];
    FlatMapPush(SubmissionOf(), c.pending, PendingSubmission(op));
    forall i | 0 <= i < |pending|
      ensures MarkFits(pending[i], |order| - |FlatMap(SubmissionOf(), pending[i + 1..])|)
    {
      if i < |c.pending| {
        assert pending[i + 1..] == c.pending[i + 1..] + [PendingSubmission(op)];
        FlatMapPush(SubmissionOf(), c.pending[i + 1..], PendingSubmission(op));
        assert MarkFits(c.pending[i], |c.order| - |FlatMap(SubmissionOf(), c.pending[i + 1..])|);
      }
    }
  }

  lemma ParkRunnable(c: Coord, op: Op)
    requires AllRunnable(c.queues, c.pending, c.channel, c.jobs) && Runnable(op.operation)
    ensures AllRunnable(c.queues, c.pending + [PendingSubmission(op)], c.channel, c.jobs)
    ensures AllRunnable(Enqueue(c, op).queues, c.pending, c.channel, c.jobs)
  {
  }

  lemma ParkCore(c: Coord, op: Op)
    requires Core(c, None) && Unused(c, op) && Runnable(op.operation)
    ensures Core(Parked(c, op), None)
    ensures Endpoints(Parked(c, op)) == Endpoints(c) + multiset{op.id}
  {
    hide Tokens, Lines, Fifo, Distinct, Known, AllRunnable, Backlog, BarriersHeld, InFlight, Answered, Settled,
      Tally, QueueIds;
    ReceiveHistory(c, op);
    ParkLines(c, op);
    ParkBacklog(c, op);
    ParkRunnable(c, op);
    TallyPush(PendingIds(), c.pending, PendingSubmission(op));
  }

  lemma ReceiveLines(c: Coord, op: Op)
    requires Lines(c.order, c.fate, c.jobs, c.queues, c.pending) && c.pending == []
    requires Known(c.order, c.fate) && op.id !in Ids(c.order)
    ensures var s := Enqueue(Received(c, op), op); Lines(s.order, s.fate, s.jobs, s.queues, s.pending)
  {
    forall key: KeyHash
      ensures FlatMap(UnsettledFor(c.fate, key), c.order + [op])
           == FlatMap(FreshFor(key), c.jobs) + Queue(Enqueue(Received(c, op), op).queues, key)
            + FlatMap(PendingFor(key), c.pending)
    {
      ReceiveUnsettled(c, op, key);
      EnqueueQueue(Received(c, op), op, key);
    }
  }

  lemma ReceiveCore(c: Coord, op: Op)
    requires Core(c, None) && Unused(c, op) && Runnable(op.operation) && c.pending == []
    ensures Core(Enqueue(Received(c, op), op), None)
    ensures Endpoints(Enqueue(Received(c, op), op)) == Endpoints(c) + multiset{op.id}
  {
    hide Tokens, Lines, Fifo, Distinct, Known, AllRunnable, BarriersHeld, InFlight, Answered, Settled,
      Tally, QueueIds;
    ReceiveHistory(c, op);
    ReceiveLines(c, op);
    ParkRunnable(Received(c, op), op);
    EnqueueIds(Received(c, op), op);
  }

  lemma RejectReply(c: Coord, op: Op, error: Error, hand: Hand)
    requires op.id !in Ids(c.order)
    requires BarriersHeld(c.barriers, c.order, c.replies)
    requires Answered(c.order, c.fate, c.replies)
    requires Settled(c.order, c.fate, c.replies, c.jobs, c.channel, hand)
    ensures var replies := c.replies + [OpReply(op, Rejected(error))];
            && BarriersHeld(c.barriers, c.order, replies)
            && Answered(c.order, c.fate, replies)
            && Settled(c.order, c.fate, replies, c.jobs, c.channel, hand)
  {
    hide BarriersHeld, Tally;
    RepliesKeepBarriers(c.barriers, c.order, c.replies, [OpReply(op, Rejected(error))]);
    TallyPush(OpReplyIds(), c.replies, OpReply(op, Rejected(error)));
  }

  /** Rejecting an operation that was never accepted. */
  lemma RejectCore(c: Coord, op: Op, error: Error)
    requires Core(c, None) && op.id !in Ids(c.order)
    ensures Core(Respond(c, OpReply(op, Rejected(error))), None)
    ensures Endpoints(Respond(c, OpReply(op, Rejected(error)))) == Endpoints(c) + multiset{op.id}
  {
    hide Tokens, Lines, Fifo, Distinct, Known, AllRunnable, Backlog, BarriersHeld, InFlight, Answered, Settled,
      QueueIds;
    RejectReply(c, op, error, None);
    TallyPush(ReplyIds(), c.replies, OpReply(op, Rejected(error)));
  }

  lemma AcknowledgeCore(c: Coord, reply: Reply)
    requires Core(c, None) && !reply.OpReply?
    ensures Core(Respond(c, reply), None)
    ensures Endpoints(Respond(c, reply)) == Endpoints(c) + ReplyIds()(reply)
  {
    hide Tokens, Lines, Fifo, Distinct, Known, AllRunnable, Backlog, BarriersHeld, InFlight, Answered, Settled,
      QueueIds;
    OtherReply(c, reply, None);
    TallyPush(ReplyIds(), c.replies, reply);
  }

  // ---- Parking a barrier -----------------------------------------------------------

  function Barred(c: Coord, event: PendingEvent): Coord {
    c.(pending := c.pending + [event])
  }

  lemma {:induction false} BarredBacklog(c: Coord, event: PendingEvent)
    requires Backlog(c.order, c.pending) && !event.PendingSubmission? && MarkFits(event, |c.order|)
    ensures Backlog(c.order, c.pending + [event])
  {
    var pending := c.pending + [event];
    FlatMapPush(SubmissionOf(), c.pending, event);
    forall i | 0 <= i < |pending|
      ensures MarkFits(pending[i], |c.order| - |FlatMap(SubmissionOf(), pending[i + 1..])|)
    {
      if i < |c.pending| {
        assert pending[i + 1..] == c.pending[i + 1..] + [event];
        FlatMapPush(SubmissionOf(), c.pending[i + 1..], event);
        assert MarkFits(c.pending[i], |c.order| - |FlatMap(SubmissionOf(), c.pending[i + 1..])|);
      }
    }
  }

  lemma BarredLines(c: Coord, event: PendingEvent)
    requires Lines(c.order, c.fate, c.jobs, c.queues, c.pending) && !event.PendingSubmission?
    ensures Lines(c.order, c.fate, c.jobs, c.queues, c.pending + [event])
  {
    forall key: KeyHash
      ensures FlatMap(PendingFor(key), c.pending + [event]) == FlatMap(PendingFor(key), c.pending)
    {
      FlatMapPush(PendingFor(key), c.pending, event);
    }
  }

  lemma BarredRunnable(c: Coord, event: PendingEvent)
    requires AllRunnable(c.queues, c.pending, c.channel, c.jobs) && !event.PendingSubmission?
    ensures AllRunnable(c.queues, c.pending + [event], c.channel, c.jobs)
  {
  }

  lemma BarredCore(c: Coord, event: PendingEvent)
    requires Core(c, None) && !event.PendingSubmission? && MarkFits(event, |c.order|)
    ensures Core(Barred(c, event), None)
    ensures Endpoints(Barred(c, event)) == Endpoints(c) + PendingIds()(event)
  {
    hide Tokens, Lines, Fifo, Distinct, Known, AllRunnable, Backlog, BarriersHeld, InFlight, Answered, Settled,
      QueueIds;
    BarredBacklog(c, event);
    BarredLines(c, event);
    BarredRunnable(c, event);
    TallyPush(PendingIds(), c.pending, event);
  }

  lemma BarredShape(env: Env, c: Coord, event: PendingEvent)
    requires Shape(env, c) && !event.PendingSubmission? && (event.PendingClose? || c.lifecycle == Open)
    ensures Shape(env, Barred(c, event).(lifecycle := if event.PendingClose? then Closing else c.lifecycle))
  {
    var s := Barred(c, event).(lifecycle := if event.PendingClose? then Closing else c.lifecycle);
    assert event.PendingClose? ==> s.pending[|c.pending|].PendingClose?;
    forall i | 0 <= i < |c.pending|
      ensures s.pending[i] == c.pending[i]
    {
    }
    assert Capacity(env, s);
    assert ClosesLast(s) by {
      if c.lifecycle == Closing {
        var i :| 0 <= i < |c.pending| && c.pending[i].PendingClose?;
        assert s.pending[i].PendingClose?;
      }
    }
  }

  // ---- Shutting down ---------------------------------------------------------------

  lemma NoTokensNothing(c: Coord)
    requires Tokens(c.jobs, c.channel, c.active, c.maintenanceActive) && c.active == {} && !c.maintenanceActive
    ensures c.jobs == []
    ensures forall i :: 0 <= i < |c.channel| ==> !c.channel[i].Completion? && !c.channel[i].MaintenanceCompletion?
  {
    NoSlotsNoJobs(c);
    if c.jobs != [] {
      FlatMapPop(MaintenanceJob(), c.jobs);
    }
    forall i | 0 <= i < |c.channel|
      ensures !c.channel[i].MaintenanceCompletion?
    {
      FlatMapSplit(MaintenanceDone(), c.channel, i);
    }
  }

  lemma {:induction false} AllCloses(pending: seq<PendingEvent>, ok: bool)
    requires forall i :: 0 <= i < |pending| ==> pending[i].PendingClose?
    ensures AfterCloses(pending) == []
    ensures Tally(ReplyIds(), CloseFront(pending, ok)) == Tally(PendingIds(), pending)
    ensures |CloseFront(pending, ok)| == |pending|
    ensures forall i :: 0 <= i < |pending| ==> CloseFront(pending, ok)[i] == CloseReply(pending[i].id, Verdict(ok))
  {
    if pending != [] {
      AllCloses(pending[1..], ok);
    }
  }

  lemma DrainOne(event: Event, ok: bool)
    requires !event.Completion? && !event.MaintenanceCompletion?
    ensures Tally(ReplyIds(), DrainReply(ok)(event)) == EventIds()(event)
  {
    var replies := DrainReply(ok)(event);
    assert |replies| == 1;
    assert Tally(ReplyIds(), replies) == ReplyIds()(replies[0]) + Tally(ReplyIds(), []);
  }

  /** The drain answers each waiting request once and discards no result. */
  lemma {:induction false} DrainTally(channel: seq<Event>, ok: bool)
    requires forall i :: 0 <= i < |channel| ==> !channel[i].Completion? && !channel[i].MaintenanceCompletion?
    ensures Tally(ReplyIds(), FlatMap(DrainReply(ok), channel)) == Tally(EventIds(), channel)
  {
    if channel != [] {
      DrainTally(channel[1..], ok);
      DrainOne(channel[0], ok);
      TallyAppend(ReplyIds(), DrainReply(ok)(channel[0]), FlatMap(DrainReply(ok), channel[1..]));
    }
  }

  lemma {:induction false} DrainVerdicts(channel: seq<Event>, ok: bool)
    ensures forall j :: 0 <= j < |FlatMap(DrainReply(ok), channel)| && FlatMap(DrainReply(ok), channel)[j].CloseReply?
              ==> FlatMap(DrainReply(ok), channel)[j].closed == Verdict(ok)
  {
    if channel != [] {
      DrainVerdicts(channel[1..], ok);
    }
  }

  /** Submissions in the channel have not been accepted yet. */
  ghost predicate ChannelFresh(c: Coord) {
    forall i :: 0 <= i < |c.channel| && c.channel[i].Submission? ==> c.channel[i].op.id !in Ids(c.order)
  }

  lemma {:induction false} DrainReplies(c: Coord, channel: seq<Event>, ok: bool)
    requires forall i :: 0 <= i < |channel| && channel[i].Submission? ==> channel[i].op.id !in Ids(c.order)
    ensures forall j :: 0 <= j < |FlatMap(DrainReply(ok), channel)| && FlatMap(DrainReply(ok), channel)[j].OpReply?
              ==> FlatMap(DrainReply(ok), channel)[j].op.id !in Ids(c.order)
  {
    if channel != [] {
      DrainReplies(c, channel[1..], ok);
    }
  }

  /** Replies that answer no accepted operation. */
  lemma ForeignReplies(c: Coord, more: seq<Reply>)
    requires forall j :: 0 <= j < |more| && more[j].OpReply? ==> more[j].op.id !in Ids(c.order)
    requires BarriersHeld(c.barriers, c.order, c.replies)
    requires Answered(c.order, c.fate, c.replies)
    requires Settled(c.order, c.fate, c.replies, [], c.channel, None)
    requires Tally(CompletedIds(), c.channel) == multiset{}
    ensures BarriersHeld(c.barriers, c.order, c.replies + more)
    ensures Answered(c.order, c.fate, c.replies + more)
    ensures Settled(c.order, c.fate, c.replies + more, [], [], None)
  {
    hide BarriersHeld, Tally;
    RepliesKeepBarriers(c.barriers, c.order, c.replies, more);
    TallyAppend(OpReplyIds(), c.replies, more);
  }

  lemma StopEndpoints(env: Env, c: Coord)
    requires c.jobs == []
    requires forall i :: 0 <= i < |c.pending| ==> c.pending[i].PendingClose?
    requires forall i :: 0 <= i < |c.channel| ==> !c.channel[i].Completion? && !c.channel[i].MaintenanceCompletion?
    ensures Endpoints(Stop(env, c)) == Endpoints(c)
  {
    hide QueueIds;
    AllCloses(c.pending, Joins(env, c.pool));
    DrainTally(c.channel, Joins(env, c.pool));
    var ok := Joins(env, c.pool);
    TallyAppend(ReplyIds(), c.replies + CloseFront(c.pending, ok), FlatMap(DrainReply(ok), c.channel));
    TallyAppend(ReplyIds(), c.replies, CloseFront(c.pending, Joins(env, c.pool)));
  }

  lemma NoPending(pending: seq<PendingEvent>, key: KeyHash)
    requires forall i :: 0 <= i < |pending| ==> !pending[i].PendingSubmission?
    ensures FlatMap(PendingFor(key), pending) == []
    ensures FlatMap(SubmissionOf(), pending) == []
  {
    if pending != [] {
      NoPending(pending[1..], key);
    }
  }

  lemma StopDrains(env: Env, c: Coord)
    requires Tokens(c.jobs, c.channel, c.active, c.maintenanceActive) && Hygienic(c, {}) && ClosesLast(c) && MayStop(c)
    ensures Drained(Stop(env, c)) && c.jobs == []
    ensures forall i :: 0 <= i < |c.pending| ==> c.pending[i].PendingClose?
    ensures forall i :: 0 <= i < |c.channel| ==> !c.channel[i].Completion? && !c.channel[i].MaintenanceCompletion?
  {
    NoTokensNothing(c);
    assert c.queues == map[];
    forall i | 0 <= i < |c.pending|
      ensures c.pending[i].PendingClose?
    {
      assert i > 0 ==> c.pending[0].PendingClose? && 0 < i < |c.pending|;
    }
    AllCloses(c.pending, Joins(env, c.pool));
  }

  /** Shutdown loses no endpoint and contradicts no earlier statement. */
  lemma StopCore(env: Env, c: Coord)
    requires Core(c, None) && ChannelFresh(c) && c.jobs == [] && c.queues == map[]
    requires c.active == {} && !c.maintenanceActive
    requires forall i :: 0 <= i < |c.pending| ==> c.pending[i].PendingClose?
    requires forall i :: 0 <= i < |c.channel| ==> !c.channel[i].Completion? && !c.channel[i].MaintenanceCompletion?
    ensures Core(Stop(env, c), None)
  {
    hide Tokens, Lines, Fifo, Distinct, Known, AllRunnable, Backlog, BarriersHeld, InFlight, Answered, Settled;
    AllCloses(c.pending, Joins(env, c.pool));
    DrainReplies(c, c.channel, Joins(env, c.pool));
    var more := CloseFront(c.pending, Joins(env, c.pool)) + FlatMap(DrainReply(Joins(env, c.pool)), c.channel);
    assert c.replies + more == Stop(env, c).replies;
    TallyNone(CompletedIds(), c.channel);
    ForeignReplies(c, more);
    StopFrame(c);
  }

  /** Emptying a deque of closes and a channel without results affects no operation. */
  lemma StopFrame(c: Coord)
    requires Tokens(c.jobs, c.channel, c.active, c.maintenanceActive)
    requires Lines(c.order, c.fate, c.jobs, c.queues, c.pending)
    requires c.jobs == [] && c.queues == map[] && c.active == {} && !c.maintenanceActive
    requires forall i :: 0 <= i < |c.pending| ==> c.pending[i].PendingClose?
    ensures Tokens([], [], {}, false)
    ensures Lines(c.order, c.fate, [], map[], [])
    ensures AllRunnable(map[], [], [], [])
    ensures Backlog(c.order, [])
    ensures InFlight(c.fate, [], [], None)
  {
    forall key: KeyHash
      ensures FlatMap(PendingFor(key), c.pending) == []
    {
      NoPending(c.pending, key);
    }
  }

  lemma StopVerdicts(env: Env, c: Coord)
    requires NoCloses(c.replies)
    requires forall i :: 0 <= i < |c.pending| ==> c.pending[i].PendingClose?
    requires forall i :: 0 <= i < |c.channel| ==> !c.channel[i].Completion? && !c.channel[i].MaintenanceCompletion?
    ensures Verdicts(Stop(env, c).lifecycle, Stop(env, c).replies)
  {
    hide FlatMap, DrainReply;
    AllCloses(c.pending, Joins(env, c.pool));
    DrainVerdicts(c.channel, Joins(env, c.pool));
  }
}
