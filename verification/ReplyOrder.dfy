/** The coordinator answers the accepted operations of one key in receive order. */
module ReplyOrder {
  import opened Collections
  import opened EngineTypes
  import opened Workers
  import opened Coordinator
  import opened EngineInvariants
  import opened DispatchProofs
  import opened AdvanceProofs
  import opened EventProofs
  import opened HandleProofs
  import opened StepProofs
  import opened EngineSystem
  import opened SystemProofs
  import opened WorkerProofs
  import opened PostProofs
  import opened EngineTheorems

  /** Whatever reply an accepted operation has, the earlier ones of its key were answered before it. */
  ghost predicate InOrder(order: seq<Op>, replies: seq<Reply>) {
    forall i, j, q :: 0 <= i < j < |order| && order[i].key == order[j].key
      && 0 <= q < |replies| && replies[q].OpReply? && replies[q].op.id == order[j].id
      ==> order[i].id in Tally(OpReplyIds(), replies[..q])
  }

  /** Every accepted operation before this one, of the same key, has been answered. */
  ghost predicate PriorAnswered(order: seq<Op>, replies: seq<Reply>, id: nat) {
    forall i, j :: 0 <= i < j < |order| && order[i].key == order[j].key && order[j].id == id
      ==> order[i].id in Tally(OpReplyIds(), replies)
  }

  /** Identifiers determine keys: a result belongs to the key its slot is held for. */
  ghost predicate KeyedJobs(order: seq<Op>, jobs: seq<Job>) {
    forall i, j :: 0 <= i < |order| && 0 <= j < |jobs| && jobs[j].Finished? && jobs[j].op.id == order[i].id
      ==> jobs[j].op.key == order[i].key
  }

  ghost predicate KeyedChannel(order: seq<Op>, channel: seq<Event>) {
    && (forall j :: 0 <= j < |channel| && channel[j].Completion? && channel[j].outcome.Some? ==>
          channel[j].outcome.value.0.key == channel[j].key)
    && (forall i, j :: 0 <= i < |order| && 0 <= j < |channel| && channel[j].Completion? && channel[j].outcome.Some?
          && channel[j].outcome.value.0.id == order[i].id
          ==> channel[j].key == order[i].key)
  }

  ghost predicate KeyedHand(order: seq<Op>, hand: Hand) {
    forall i :: 0 <= i < |order| && hand.Some? && hand.value.0.id == order[i].id ==> hand.value.0.key == order[i].key
  }

  ghost predicate Orderly(c: Coord, hand: Hand) {
    && InOrder(c.order, c.replies)
    && KeyedJobs(c.order, c.jobs)
    && KeyedChannel(c.order, c.channel)
    && KeyedHand(c.order, hand)
  }

  // ---- Replies ------------------------------------------------------------------------------

  lemma ReplyInOrder(order: seq<Op>, replies: seq<Reply>, reply: Reply)
    requires InOrder(order, replies) && (reply.OpReply? ==> PriorAnswered(order, replies, reply.op.id))
    ensures InOrder(order, replies + [reply])
  {
    hide Tally;
    var more := replies + [reply];
    forall i, j, q | 0 <= i < j < |order| && order[i].key == order[j].key
      && 0 <= q < |more| && more[q].OpReply? && more[q].op.id == order[j].id
      ensures order[i].id in Tally(OpReplyIds(), more[..q])
    {
      assert more[..q] == replies[..q];
      assert q == |replies| ==> replies[..q] == replies;
    }
  }

  lemma RespondOrderly(c: Coord, reply: Reply, hand: Hand)
    requires Orderly(c, hand) && (reply.OpReply? ==> PriorAnswered(c.order, c.replies, reply.op.id))
    ensures Orderly(Respond(c, reply), hand)
  {
    hide InOrder, KeyedJobs, KeyedChannel, KeyedHand, PriorAnswered;
    ReplyInOrder(c.order, c.replies, reply);
  }

  lemma PriorKept(order: seq<Op>, replies: seq<Reply>, more: seq<Reply>, id: nat)
    requires PriorAnswered(order, replies, id) && replies <= more
    ensures PriorAnswered(order, more, id)
  {
    hide Tally;
    assert more == replies + more[|replies|..];
    TallyAppend(OpReplyIds(), replies, more[|replies|..]);
  }

  lemma ForeignPrior(order: seq<Op>, replies: seq<Reply>, id: nat)
    requires id !in Ids(order)
    ensures PriorAnswered(order, replies, id)
  {
    forall j | 0 <= j < |order| ensures order[j].id != id {
      assert order[j].id in Ids(order);
    }
  }

  lemma {:induction false} ForeignInOrder(order: seq<Op>, replies: seq<Reply>, more: seq<Reply>)
    requires InOrder(order, replies)
    requires forall j :: 0 <= j < |more| && more[j].OpReply? ==> more[j].op.id !in Ids(order)
    ensures InOrder(order, replies + more)
    decreases |more|
  {
    hide InOrder, Ids, PriorAnswered;
    if more == [] {
      assert replies + more == replies;
    } else {
      if more[0].OpReply? {
        ForeignPrior(order, replies, more[0].op.id);
      }
      ReplyInOrder(order, replies, more[0]);
      ForeignInOrder(order, replies + [more[0]], more[1..]);
      assert replies + more == replies + [more[0]] + more[1..];
    }
  }

  // ---- An ended operation of a key without results under way has been answered ----------------

  lemma {:induction false} FinishedMember(jobs: seq<Job>, id: nat)
    requires id in Tally(FinishedIds(), jobs)
    ensures exists j :: 0 <= j < |jobs| && jobs[j].Finished? && jobs[j].op.id == id
  {
    if id in FinishedIds()(jobs[0]) {
      assert jobs[0].Finished? && jobs[0].op.id == id;
    } else {
      FinishedMember(jobs[1..], id);
      var j :| 0 <= j < |jobs[1..]| && jobs[1..][j].Finished? && jobs[1..][j].op.id == id;
      assert jobs[j + 1] == jobs[1..][j];
    }
  }

  lemma {:induction false} CompletedMember(channel: seq<Event>, id: nat)
    requires id in Tally(CompletedIds(), channel)
    ensures exists j ::
      && 0 <= j < |channel| && channel[j].Completion? && channel[j].outcome.Some?
      && channel[j].outcome.value.0.id == id
  {
    if id in CompletedIds()(channel[0]) {
      assert channel[0].Completion?;
    } else {
      CompletedMember(channel[1..], id);
      var j :| 0 <= j < |channel[1..]| && channel[1..][j].Completion? && channel[1..][j].outcome.Some?
        && channel[1..][j].outcome.value.0.id == id;
      assert channel[j + 1] == channel[1..][j];
    }
  }

  /** No result of this key is with a worker or in the channel. */
  predicate NoResults(c: Coord, key: KeyHash) {
    && (forall j :: 0 <= j < |c.jobs| && c.jobs[j].Finished? ==> c.jobs[j].op.key != key)
    && (forall j :: 0 <= j < |c.channel| && c.channel[j].Completion? ==> c.channel[j].key != key)
  }

  lemma EndedAnswered(c: Coord, hand: Hand, i: nat)
    requires Settled(c.order, c.fate, c.replies, c.jobs, c.channel, hand) && Orderly(c, hand)
    requires i < |c.order| && c.order[i].id in c.fate && NoResults(c, c.order[i].key)
    requires hand.Some? ==> hand.value.0.id != c.order[i].id
    ensures c.order[i].id in Tally(OpReplyIds(), c.replies)
  {
    hide Tally, InOrder;
    var id := c.order[i].id;
    if id in Tally(FinishedIds(), c.jobs) {
      FinishedMember(c.jobs, id);
    } else if id in Tally(CompletedIds(), c.channel) {
      CompletedMember(c.channel, id);
    }
  }

  lemma IdleHasNoResults(c: Coord, key: KeyHash)
    requires Tokens(c.jobs, c.channel, c.active, c.maintenanceActive) && key !in c.active
    ensures NoResults(c, key)
  {
    hide FlatMap;
    assert |FlatMap(JobFor(key), c.jobs)| + |FlatMap(CompletionFor(key), c.channel)| == 0;
    forall j | 0 <= j < |c.jobs| && c.jobs[j].Finished? ensures c.jobs[j].op.key != key {
      FlatMapSplit(JobFor(key), c.jobs, j);
    }
    forall j | 0 <= j < |c.channel| && c.channel[j].Completion? ensures c.channel[j].key != key {
      FlatMapSplit(CompletionFor(key), c.channel, j);
    }
  }

  lemma RunningHasNoResults(c: Coord, i: nat)
    requires Tokens(c.jobs, c.channel, c.active, c.maintenanceActive) && i < |c.jobs| && c.jobs[i].Fresh?
    ensures NoResults(c, c.jobs[i].op.key)
  {
    hide FlatMap;
    var key := c.jobs[i].op.key;
    FlatMapSplit(JobFor(key), c.jobs, i);
    assert |FlatMap(JobFor(key), c.jobs)| + |FlatMap(CompletionFor(key), c.channel)| <= 1;
    forall j | 0 <= j < |c.jobs| && c.jobs[j].Finished? ensures c.jobs[j].op.key != key {
      if j < i {
        FlatMapSplit(JobFor(key), c.jobs[..i], j);
      } else {
        FlatMapSplit(JobFor(key), c.jobs[i + 1..], j - i - 1);
      }
    }
    forall j | 0 <= j < |c.channel| && c.channel[j].Completion? ensures c.channel[j].key != key {
      FlatMapSplit(CompletionFor(key), c.channel, j);
    }
  }

  /** If everything of a key before an operation has ended, it has been answered. */
  lemma EndedPrior(c: Coord, hand: Hand, op: Op)
    requires Core(c, hand) && Orderly(c, hand) && op in c.order && NoResults(c, op.key)
    requires hand.Some? ==> hand.value.0.key != op.key || hand.value.0.id == op.id
    requires forall i, j :: 0 <= i < j < |c.order| && c.order[j] == op && c.order[i].key == op.key ==>
      c.order[i].id in c.fate
    ensures PriorAnswered(c.order, c.replies, op.id)
  {
    hide Tokens, Lines, Fifo, Known, AllRunnable, Backlog, BarriersHeld, InFlight, Answered, Settled, InOrder,
      KeyedJobs, KeyedChannel, NoResults, Tally;
    var k :| 0 <= k < |c.order| && c.order[k] == op;
    forall i, j | 0 <= i < j < |c.order| && c.order[i].key == c.order[j].key && c.order[j].id == op.id
      ensures c.order[i].id in Tally(OpReplyIds(), c.replies)
    {
      assert j == k;
      EndedAnswered(c, hand, i);
    }
  }

  // ---- Dispatching -------------------------------------------------------------------------------

  /** The key whose result is in hand keeps its slot or has nothing queued. */
  predicate HandServed(c: Coord, hand: Hand) {
    hand.Some? ==> hand.value.0.key in c.active || Queue(c.queues, hand.value.0.key) == []
  }

  lemma StartOrderly(c: Coord, key: KeyHash, hand: Hand)
    requires Orderly(c, hand) && Queue(c.queues, key) != []
    ensures Orderly(Start(c, key), hand) && Start(c, key).replies == c.replies && Start(c, key).order == c.order
  {
    hide InOrder;
  }

  lemma RefuseOrderly(c: Coord, key: KeyHash, hand: Hand)
    requires Core(c, hand) && Orderly(c, hand) && key !in c.active && Queue(c.queues, key) != []
    requires hand.Some? ==> hand.value.0.key != key
    ensures Orderly(Refuse(c, key), hand)
  {
    var op := c.queues[key][0];
    IdleHead(c, key);
    assert op.key == key;
    SettleHead(c.order, c.fate, op, Refused);
    UnsettledMember(c.order, c.fate, key, op);
    IdleHasNoResults(c, key);
    hide Core, Orderly, NoResults, PriorAnswered, FlatMap;
    EndedPrior(c, hand, op);
    RespondOrderly(c, OpReply(op, Rejected(WorkerUnavailable)), hand);
    SameOrderly(Respond(c, OpReply(op, Rejected(WorkerUnavailable))), Refuse(c, key), hand);
  }

  /** Only these four fields matter. */
  lemma SameOrderly(c: Coord, d: Coord, hand: Hand)
    requires Orderly(c, hand) && d.order == c.order && d.replies == c.replies
    requires forall job :: job in d.jobs && job.Finished? ==> job in c.jobs
    requires forall event :: event in d.channel && event.Completion? ==> event in c.channel
    ensures Orderly(d, hand)
  {
    hide InOrder, KeyedHand;
    assert KeyedJobs(d.order, d.jobs) by {
      forall i, j | 0 <= i < |d.order| && 0 <= j < |d.jobs| && d.jobs[j].Finished? && d.jobs[j].op.id == d.order[i].id
        ensures d.jobs[j].op.key == d.order[i].key
      {
        assert d.jobs[j] in c.jobs;
      }
    }
    assert KeyedChannel(d.order, d.channel) by {
      forall j | 0 <= j < |d.channel| && d.channel[j].Completion? ensures d.channel[j] in c.channel {
        assert d.channel[j] in d.channel;
      }
    }
  }

  lemma DispatchOrderly(env: Env, c: Coord, key: KeyHash, hand: Hand)
    requires Core(c, hand) && Orderly(c, hand)
    requires hand.Some? && hand.value.0.key == key ==> |c.active| + 1 <= c.pool.workers
    ensures var d := DispatchIfIdle(env, c, key);
            Orderly(d, hand) && d.order == c.order && c.replies <= d.replies
  {
    hide Core, Orderly, Start, Refuse, Prepared;
    if key in c.active || |c.active| >= env.limit || Queue(c.queues, key) == [] {
    } else {
      var (pool, ok) := Prepared(env, c.pool, |c.active| + 1);
      var p := c.(pool := pool);
      PoolKeeps(c, pool, hand);
      SameOrderly(c, p, hand);
      if ok {
        StartOrderly(p, key, hand);
      } else {
        RefuseOrderly(p, key, hand);
        RefuseFrame(p, key);
      }
    }
  }

  lemma RefuseFrame(c: Coord, key: KeyHash)
    requires Queue(c.queues, key) != []
    ensures Refuse(c, key).order == c.order && c.replies <= Refuse(c, key).replies
  {
  }

  /** Dispatching another key leaves the key in hand as it is. */
  lemma DispatchServes(env: Env, c: Coord, key: KeyHash, hand: Hand)
    requires HandServed(c, hand) && (hand.Some? ==> hand.value.0.key != key)
    ensures HandServed(DispatchIfIdle(env, c, key), hand)
  {
  }

  lemma ServedNotReady(c: Coord, key: KeyHash, hand: Hand)
    requires HandServed(c, hand) && key in Ready(c)
    ensures (hand.Some? ==> hand.value.0.key != key) && HandServed(c.(picks := c.picks + 1), hand)
  {
  }

  lemma PickOrderly(env: Env, c: Coord, key: KeyHash, hand: Hand)
    requires Core(c, hand) && Orderly(c, hand) && HandServed(c, hand)
    requires |c.active| < env.limit && key in Ready(c)
    ensures var picked := c.(picks := c.picks + 1); var d := DispatchIfIdle(env, picked, key);
            && Core(d, hand) && Orderly(d, hand) && HandServed(d, hand)
            && d.order == c.order && c.replies <= d.replies
            && QueueIds(d.queues) < QueueIds(c.queues)
  {
    hide DispatchIfIdle, QueueIds, Core, Orderly, HandServed, OnlyRefusals, Endpoints;
    var picked := c.(picks := c.picks + 1);
    PickKeeps(c, hand);
    SameOrderly(c, picked, hand);
    ServedNotReady(c, key, hand);
    DispatchShrinks(env, picked, key);
    DispatchCore(env, picked, key, hand);
    DispatchOrderly(env, picked, key, hand);
    DispatchServes(env, picked, key, hand);
  }

  lemma {:induction false} AvailableOrderly(env: Env, c: Coord, hand: Hand)
    requires ValidEnv(env) && Core(c, hand) && Orderly(c, hand) && HandServed(c, hand)
    ensures var d := DispatchAvailable(env, c);
            Orderly(d, hand) && d.order == c.order && c.replies <= d.replies
    decreases |QueueIds(c.queues)|
  {
    hide DispatchIfIdle, QueueIds, Core, Orderly, HandServed, Ready;
    if |c.active| < env.limit && Ready(c) != {} {
      var key := env.choose(c.picks, Ready(c));
      var picked := c.(picks := c.picks + 1);
      PickOrderly(env, c, key, hand);
      SmallerCount(QueueIds(DispatchIfIdle(env, picked, key).queues), QueueIds(c.queues));
      AvailableOrderly(env, DispatchIfIdle(env, picked, key), hand);
    }
  }

  lemma SmallerCount(a: multiset<nat>, b: multiset<nat>)
    requires a < b
    ensures |a| < |b|
  {
    assert b == a + (b - a);
    assert b - a != multiset{};
  }

  // ---- Releasing and delivering --------------------------------------------------------------------

  /** The freed slot goes straight to the next operation of its key, which a worker is there for. */
  lemma ReleaseServes(env: Env, c: Coord, key: KeyHash)
    requires key !in c.active && |c.active| + 1 <= c.pool.workers && |c.active| + 1 <= env.limit
    ensures var d := DispatchIfIdle(env, c, key);
            && d.replies == c.replies && d.fate == c.fate
            && (Queue(c.queues, key) != [] ==> key in d.active && d.jobs == c.jobs + [Fresh(c.queues[key][0])])
            && (Queue(c.queues, key) == [] ==> d == c)
  {
  }

  lemma BegunOrderly(c: Coord)
    requires Orderly(c, None) && c.channel != []
    ensures Orderly(Begun(c), Taken(c.channel[0]))
    ensures Taken(c.channel[0]).Some? ==> Taken(c.channel[0]).value.0.key == c.channel[0].key
  {
    hide InOrder;
  }

  lemma ReleaseOrderly(env: Env, c: Coord)
    requires ValidEnv(env) && Core(c, None) && Capacity(env, c) && Orderly(c, None)
    requires c.channel != [] && c.channel[0].Completion?
    ensures var d := Release(env, Popped(c), c.channel[0].key);
            Orderly(d, c.channel[0].outcome) && d.order == c.order && c.replies <= d.replies
  {
    hide Core, Orderly, DispatchIfIdle, DispatchAvailable;
    var key, hand := c.channel[0].key, c.channel[0].outcome;
    var b := Begun(c);
    BegunCore(c);
    BegunOrderly(c);
    CompletionActive(c);
    assert |b.active| + 1 == |c.active|;
    DispatchOrderly(env, b, key, hand);
    DispatchCore(env, b, key, hand);
    ReleaseServes(env, b, key);
    var d := DispatchIfIdle(env, b, key);
    AvailableOrderly(env, d, hand);
    SameOrderly(DispatchAvailable(env, d), Release(env, Popped(c), key), hand);
  }

  /** Before a result is delivered, everything received before it has been answered. */
  lemma DeliverPrior(env: Env, c: Coord, pair: (Op, BlockingResult))
    requires Core(c, None) && Orderly(c, None) && c.channel != [] && c.channel[0] == Completion(pair.0.key, Some(pair))
    ensures PriorAnswered(c.order, c.replies, pair.0.id)
  {
    hide Lines, AllRunnable, Backlog, BarriersHeld, Answered, Tally, InOrder;
    var b := Begun(c);
    BegunCore(c);
    BegunOrderly(c);
    assert b.order == c.order && b.replies == c.replies;
    var id := pair.0.id;
    assert Carries(b.fate, pair.0, pair.1);
    IdleHasNoResults(b, pair.0.key);
    forall i, j | 0 <= i < j < |c.order| && c.order[i].key == c.order[j].key && c.order[j].id == id
      ensures c.order[i].id in Tally(OpReplyIds(), c.replies)
    {
      assert c.order[j].key == pair.0.key;
      assert c.order[i].id in c.fate;
      EndedAnswered(b, Some(pair), i);
    }
  }

  lemma DeliverOrderly(env: Env, c: Coord, pair: (Op, BlockingResult))
    requires ValidEnv(env) && Core(c, None) && Capacity(env, c) && Orderly(c, None)
    requires c.channel != [] && c.channel[0] == Completion(pair.0.key, Some(pair))
    ensures var r := Release(env, Popped(c), pair.0.key);
            Orderly(Respond(r, OpReply(pair.0, Delivered(pair.1))), None)
  {
    hide Core, Orderly, Release, Capacity, PriorAnswered;
    var r := Release(env, Popped(c), pair.0.key);
    ReleaseOrderly(env, c);
    DeliverPrior(env, c, pair);
    PriorKept(c.order, c.replies, r.replies, pair.0.id);
    RespondOrderly(r, OpReply(pair.0, Delivered(pair.1)), Some(pair));
    HandDropped(Respond(r, OpReply(pair.0, Delivered(pair.1))), Some(pair));
  }

  lemma HandDropped(c: Coord, hand: Hand)
    requires Orderly(c, hand)
    ensures Orderly(c, None)
  {
  }

  // ---- The deque and the shutdown ------------------------------------------------------------------

  lemma MaintenanceOrderly(env: Env, c: Coord, id: nat, mark: nat)
    requires Orderly(c, None)
    ensures Orderly(DispatchMaintenance(env, c, id, mark), None)
  {
    hide Orderly;
    var reply := MaintenanceReply(id, Some(Err(WorkerUnavailable)));
    var d := DispatchMaintenance(env, c, id, mark);
    RespondOrderly(c, reply, None);
    if d.replies == c.replies {
      SameOrderly(c, d, None);
    } else {
      SameOrderly(Respond(c, reply), d, None);
    }
  }

  lemma {:induction false} AdvanceOrderly(env: Env, c: Coord)
    requires ValidEnv(env) && Core(c, None) && Orderly(c, None)
    ensures Orderly(Advance(env, c), None)
    decreases |c.pending|
  {
    hide Core, Endpoints, Orderly, DispatchIfIdle, DispatchMaintenance;
    if !c.maintenanceActive && c.pending != [] {
      SameOrderly(c, Rest(c), None);
      match c.pending[0]
      case PendingMaintenance(id, mark) =>
        SameOrderly(c, Rest(c).(maintenanceActive := true), None);
        MaintenanceOrderly(env, Rest(c).(maintenanceActive := true), id, mark);
      case PendingSubmission(op) =>
        var s := Enqueue(Rest(c), op);
        UnparkCore(c, None);
        SameOrderly(c, s, None);
        DispatchCore(env, s, op.key, None);
        DispatchOrderly(env, s, op.key, None);
        DispatchKeepsPending(env, s, op.key);
        AdvanceOrderly(env, DispatchIfIdle(env, s, op.key));
      case PendingFlush(id, mark) =>
        if !Busy(c) {
          FlushCore(c);
          SameOrderly(c, Honour(Rest(c), id, mark), None);
          RespondOrderly(Honour(Rest(c), id, mark), FlushReply(id, Ok(())), None);
          AdvanceOrderly(env, Respond(Honour(Rest(c), id, mark), FlushReply(id, Ok(()))));
        }
      case PendingClose(_) =>
    }
  }

  lemma {:induction false} FrontCloses(pending: seq<PendingEvent>, ok: bool)
    ensures forall j :: 0 <= j < |CloseFront(pending, ok)| ==> CloseFront(pending, ok)[j].CloseReply?
  {
    if pending != [] && pending[0].PendingClose? {
      FrontCloses(pending[1..], ok);
    }
  }

  lemma StopOrderly(env: Env, c: Coord)
    requires Orderly(c, None) && ChannelFresh(c)
    ensures Orderly(StopIfClosed(env, c), None)
  {
    hide InOrder, KeyedJobs, CloseFront, FlatMap, Ids, MayStop;
    if MayStop(c) {
      var ok := Joins(env, c.pool);
      var front, drained := CloseFront(c.pending, ok), FlatMap(DrainReply(ok), c.channel);
      FrontCloses(c.pending, Joins(env, c.pool));
      DrainReplies(c, c.channel, Joins(env, c.pool));
      ForeignInOrder(c.order, c.replies, front);
      ForeignInOrder(c.order, c.replies + front, drained);
    }
  }

  lemma FinishOrderly(env: Env, c: Coord)
    requires ValidEnv(env) && Core(c, None) && Orderly(c, None) && ChannelFresh(c)
    ensures Orderly(StopIfClosed(env, Advance(env, c)), None)
  {
    hide Core, Orderly, Advance, StopIfClosed;
    AdvanceOrderly(env, c);
    AdvanceFrame(env, c);
    StopOrderly(env, Advance(env, c));
  }

  // ---- One lemma per event ---------------------------------------------------------------------------

  lemma ReceivedOrderly(c: Coord, op: Op)
    requires Core(c, None) && Orderly(c, None) && Unused(c, op)
    ensures Orderly(Received(c, op), None)
  {
    hide Tokens, Lines, Fifo, Distinct, AllRunnable, Backlog, BarriersHeld, Answered, Settled, Tally;
    forall q | 0 <= q < |c.replies| && c.replies[q].OpReply? ensures c.replies[q].op.id != op.id {
      ReplyTallied(c.replies, q);
    }
  }

  lemma SubmissionOrderly(env: Env, c: Coord)
    requires ValidEnv(env) && Core(c, None) && Orderly(c, None) && ChannelFresh(c)
    requires c.channel != [] && c.channel[0].Submission? && Unused(c, c.channel[0].op) && ChannelFresh(Handle(env, c))
    ensures Orderly(Handle(env, c), None)
  {
    hide Core, Orderly, DispatchIfIdle, DispatchAvailable, StopIfClosed, Tally, PriorAnswered, ChannelFresh;
    var op := c.channel[0].op;
    var b := Begun(c);
    BegunCore(c);
    BegunOrderly(c);
    if c.lifecycle != Open {
      ForeignPrior(b.order, b.replies, op.id);
      RespondOrderly(b, OpReply(op, Rejected(StoreClosed)), None);
    } else {
      ReceivedOrderly(b, op);
      if b.maintenanceActive || b.pending != [] {
        SameOrderly(Received(b, op), Parked(b, op), None);
      } else {
        assert Runnable(op.operation) by {
          CoreRunnable(c, None);
        }
        ReceiveCore(b, op);
        var queued := Enqueue(Received(b, op), op);
        SameOrderly(Received(b, op), queued, None);
        DispatchOrderly(env, queued, op.key, None);
        DispatchCore(env, queued, op.key, None);
        var d := DispatchIfIdle(env, queued, op.key);
        AvailableOrderly(env, d, None);
        DispatchFrame(env, queued, op.key);
        AvailableFrame(env, d);
        NothingToStop(env, DispatchAvailable(env, d));
      }
    }
  }

  /** With an empty deque there is no close to act on. */
  lemma NothingToStop(env: Env, c: Coord)
    requires c.pending == []
    ensures StopIfClosed(env, c) == c
  {
  }

  lemma CompletionOrderly(env: Env, c: Coord)
    requires ValidEnv(env) && Core(c, None) && Capacity(env, c) && Orderly(c, None) && ChannelFresh(c)
    requires c.channel != [] && c.channel[0].Completion?
    ensures Orderly(Handle(env, c), None)
  {
    hide Core, Orderly, Release, Advance, StopIfClosed, Capacity;
    var key := c.channel[0].key;
    var r := Release(env, Popped(c), key);
    ReleaseCore(env, c);
    ReleaseFrame(env, Popped(c), key);
    match c.channel[0].outcome
    case Some(pair) =>
      assert pair.0.key == key by {
        BegunOrderly(c);
      }
      DeliverOrderly(env, c, pair);
      DeliverCore(r, pair.0, pair.1);
      FinishOrderly(env, Respond(r, OpReply(pair.0, Delivered(pair.1))));
    case None =>
      ReleaseOrderly(env, c);
      FinishOrderly(env, r);
  }

  lemma BarredOrderly(env: Env, c: Coord, event: PendingEvent, lifecycle: Lifecycle)
    requires ValidEnv(env) && Core(c, None) && Orderly(c, None) && ChannelFresh(c)
    requires !event.PendingSubmission? && MarkFits(event, |c.order|)
    ensures Orderly(StopIfClosed(env, Advance(env, Barred(c, event).(lifecycle := lifecycle))), None)
  {
    hide Core, Orderly, Advance, StopIfClosed;
    var d := Barred(c, event);
    BarredCore(c, event);
    LifecycleCore(d, lifecycle);
    SameOrderly(c, d.(lifecycle := lifecycle), None);
    FinishOrderly(env, d.(lifecycle := lifecycle));
  }

  lemma LifecycleCore(c: Coord, lifecycle: Lifecycle)
    requires Core(c, None)
    ensures Core(c.(lifecycle := lifecycle), None)
  {
  }

  lemma AcknowledgedOrderly(env: Env, c: Coord, reply: Reply)
    requires ValidEnv(env) && Core(c, None) && Orderly(c, None) && ChannelFresh(c) && !reply.OpReply?
    ensures Orderly(Respond(c, reply), None)
    ensures Orderly(StopIfClosed(env, Advance(env, Respond(c, reply))), None)
  {
    hide Core, Orderly, Advance, StopIfClosed;
    AcknowledgeCore(c, reply);
    RespondOrderly(c, reply, None);
    FinishOrderly(env, Respond(c, reply));
  }

  lemma BarrierOrderly(env: Env, c: Coord)
    requires ValidEnv(env) && Core(c, None) && Orderly(c, None) && ChannelFresh(c) && c.channel != []
    requires c.lifecycle == Open || c.lifecycle == Closing
    requires !c.channel[0].Submission? && !c.channel[0].Completion?
    ensures Orderly(Handle(env, c), None)
  {
    hide Core, Orderly, Advance, StopIfClosed, ChannelFresh;
    var b := Begun(c);
    BegunCore(c);
    BegunOrderly(c);
    BegunFresh(c);
    match c.channel[0]
    case MaintenanceCompletion(report) =>
      if report.Some? {
        AcknowledgedOrderly(env, b, MaintenanceReply(report.value.0, Some(report.value.1)));
      } else {
        FinishOrderly(env, b);
      }
    case Maintenance(id) =>
      AcknowledgedOrderly(env, b, MaintenanceReply(id, Some(Err(StoreClosed))));
      BarredOrderly(env, b, PendingMaintenance(id, |c.order|), c.lifecycle);
    case Flush(id) =>
      AcknowledgedOrderly(env, b, FlushReply(id, Err(StoreClosed)));
      BarredOrderly(env, b, PendingFlush(id, |c.order|), c.lifecycle);
    case Close(id) =>
      BarredOrderly(env, b, PendingClose(id), Closing);
  }

  lemma CoordinateOrderly(env: Env, s: System)
    requires ValidEnv(env) && Inv(env, s) && Enabled(s, Coordinate) && Orderly(s.c, None)
    ensures Orderly(Handle(env, s.c), None)
  {
    hide Orderly, Handle, Core, Endpoints, Replayed, Unused, ChannelFresh, Conserving, Hygienic, Exclusive, Awake,
      Capacity;
    AdmittedFresh(s);
    assert Core(s.c, None) && Shape(env, s.c) && (s.c.lifecycle == Open || s.c.lifecycle == Closing);
    if s.c.channel[0].Submission? {
      HeadUnused(s);
      CoordinateInv(env, s);
      AdmittedFresh(Next(env, s, Coordinate));
      SubmissionOrderly(env, s.c);
    } else if s.c.channel[0].Completion? {
      CompletionOrderly(env, s.c);
    } else {
      BarrierOrderly(env, s.c);
    }
  }

  // ---- The other steps -------------------------------------------------------------------------------

  lemma RunOrderly(env: Env, s: System, i: nat, fault: Fault, applied: bool)
    requires Inv(env, s) && ValidJob(s, i) && s.c.jobs[i].Fresh? && Orderly(s.c, None)
    ensures Orderly(Unwind(s, i, applied).c, None)
    ensures Runnable(s.c.jobs[i].op.operation) ==> Orderly(RunJob(s, i, fault).c, None)
  {
    hide Core, Orderly, Decide, Apply, Put, Get, Effective, Shape, Awake, Replayed, Endpoints, Admitted, NoResults,
      PriorAnswered;
    var c, op := s.c, s.c.jobs[i].op;
    RunningSettles(c, i, Unwound(applied));
    assert NoResults(c, op.key) by {
      CoreTokens(c, None);
      RunningHasNoResults(c, i);
    }
    EndedPrior(c, None, op);
    RespondOrderly(c, OpReply(op, Dropped), None);
    KeptMembers(c.jobs, i, Crashed(op.key));
    SameOrderly(Respond(c, OpReply(op, Dropped)), Unwind(s, i, applied).c, None);
    if Runnable(op.operation) {
      var t := RunJob(s, i, fault).c;
      FinishedKeyed(c, i, t.jobs[i]);
      SameOrderly(c.(jobs := t.jobs), t, None);
    }
  }

  lemma CoreTokens(c: Coord, hand: Hand)
    requires Core(c, hand)
    ensures Tokens(c.jobs, c.channel, c.active, c.maintenanceActive) && Distinct(c.order)
  {
  }

  lemma KeptMembers(jobs: seq<Job>, i: nat, job: Job)
    requires i < |jobs| && !job.Finished?
    ensures forall j :: j in jobs[i := job] && j.Finished? ==> j in jobs
  {
  }

  lemma FinishedKeyed(c: Coord, i: nat, job: Job)
    requires Core(c, None) && Orderly(c, None) && i < |c.jobs| && c.jobs[i].Fresh? && c.jobs[i].op in c.order
    requires job.Finished? && job.op.id == c.jobs[i].op.id && job.op.key == c.jobs[i].op.key
    ensures Orderly(c.(jobs := c.jobs[i := job]), None)
  {
    hide InOrder, Tokens, Lines, Fifo, Known, AllRunnable, Backlog, BarriersHeld, InFlight, Answered, Settled;
    var k :| 0 <= k < |c.order| && c.order[k] == c.jobs[i].op;
  }

  lemma PostOrderly(c: Coord, i: nat, event: Event)
    requires Orderly(c, None) && i < |c.jobs| && Posts(c.jobs[i], event)
    ensures Orderly(c.(jobs := Without(c.jobs, i), channel := c.channel + [event]), None)
  {
    hide InOrder;
  }

  lemma CallOrderly(s: System, step: Step)
    requires step.Submit? || step.RequestMaintenance? || step.RequestFlush? || step.RequestClose?
    requires Orderly(s.c, None) && s.nextId !in Ids(s.c.order)
    ensures Orderly(Call(s, step).c, None)
  {
    hide Orderly, Send, Resolve, Ids, PriorAnswered;
    forall event: Event | !event.Completion? ensures Orderly(Send(s, event).c, None) {
      SendOrderly(s, event);
    }
    forall reply: Reply | reply.OpReply? ==> reply.op.id == s.nextId ensures Orderly(Resolve(s, reply).c, None) {
      ForeignPrior(s.c.order, s.c.replies, s.nextId);
      RespondOrderly(s.c, reply, None);
      ResolveStep(s, reply);
    }
  }

  lemma SendOrderly(s: System, event: Event)
    requires Orderly(s.c, None) && !event.Completion?
    ensures Orderly(Send(s, event).c, None)
  {
    hide Orderly;
    SameOrderly(s.c, Send(s, event).c, None);
  }

  lemma ResolveStep(s: System, reply: Reply)
    ensures Resolve(s, reply).c == Respond(s.c, reply)
  {
  }

  lemma NextIdFresh(s: System)
    requires Admitted(s)
    ensures s.nextId !in Ids(s.c.order)
  {
    IdsTally(s.c.order, s.nextId);
    var all := Tally(IdOf(), s.c.order) + Tally(SubmissionIds(), s.c.channel);
    assert all[s.nextId] <= Upto(s.nextId)[s.nextId];
  }

  lemma StepOrderly(env: Env, s: System, step: Step)
    requires ValidEnv(env) && Inv(env, s) && Enabled(s, step) && Orderly(s.c, None)
    ensures Orderly(Next(env, s, step).c, None)
  {
    hide Orderly, Handle, Call, RunJob, Unwind, Steady, Accounted, Admitted, Replayed, Posts, CompletionOf;
    match step
    case Coordinate => CoordinateOrderly(env, s);
    case Disconnect => SameOrderly(s.c, Leave(s).c, None);
    case CloneHandle =>
    case DropHandle =>
    case Run(i, fault) =>
      RunOrderly(env, s, i, fault, false);
      if !Runnable(s.c.jobs[i].op.operation) {
        RunUnwinds(s, i, fault);
      }
    case Panic(i, applied) => RunOrderly(env, s, i, NoFault, applied);
    case Post(i) =>
      CompletionPosts(s.c.jobs[i]);
      PostOrderly(s.c, i, CompletionOf(s.c.jobs[i]));
    case PostMaintenance(i, report) => ReportOrderly(s, i, report);
    case _ =>
      NextIdFresh(s);
      CallOrderly(s, step);
  }

  lemma RunUnwinds(s: System, i: nat, fault: Fault)
    requires ValidJob(s, i) && s.c.jobs[i].Fresh? && !Runnable(s.c.jobs[i].op.operation)
    ensures RunJob(s, i, fault) == Unwind(s, i, false)
  {
  }

  lemma ReportOrderly(s: System, i: nat, report: Option<Result<()>>)
    requires ValidJob(s, i) && s.c.jobs[i].Maintain? && Orderly(s.c, None)
    ensures Orderly(PostMaintained(s, i, report).c, None)
  {
    hide Orderly;
    var id := s.c.jobs[i].id;
    match report
    case Some(result) =>
      SameOrderly(s.c, PostMaintained(s, i, report).c, None);
    case None =>
      RespondOrderly(s.c, MaintenanceReply(id, None), None);
      SameOrderly(Respond(s.c, MaintenanceReply(id, None)), PostMaintained(s, i, report).c, None);
  }

  lemma {:induction false} RunsOrderly(env: Env, s: System, run: seq<Step>)
    requires ValidEnv(env) && Inv(env, s) && Legal(env, s, run) && Orderly(s.c, None)
    ensures Orderly(Outcome(env, s, run).c, None)
    decreases |run|
  {
    hide Inv, Next, Orderly, Enabled;
    if run != [] {
      NextInv(env, s, run[0]);
      StepOrderly(env, s, run[0]);
      RunsOrderly(env, Next(env, s, run[0]), run[1..]);
    }
  }

  lemma OpenedOrderly(disk: map<KeyHash, Blob>)
    ensures Orderly(Opened(disk).c, None)
  {
  }

  /** When the coordinator answers an accepted operation, with its result or with a refusal, every earlier
      operation of the same key has been answered. */
  lemma RepliesInOrder(env: Env, s: System, i: nat, j: nat, q: nat)
    requires ValidEnv(env) && Reachable(env, s)
    requires i < j < |s.c.order| && s.c.order[i].key == s.c.order[j].key
    requires q < |s.c.replies| && s.c.replies[q].OpReply? && s.c.replies[q].op.id == s.c.order[j].id
    requires !s.c.replies[q].answer.Dropped?
    ensures s.c.order[i].id in Tally(OpReplyIds(), s.c.replies[..q])
  {
    hide Inv, Tally;
    var disk, run :| Legal(env, Opened(disk), run) && Outcome(env, Opened(disk), run) == s;
    OpenedInv(env, disk);
    OpenedOrderly(disk);
    RunsOrderly(env, Opened(disk), run);
  }
}
