/** Handling one event, whichever it is, keeps the invariants and conserves endpoints. */
module EventProofs {
  import opened Collections
  import opened EngineTypes
  import opened Workers
  import opened Coordinator
  import opened EngineInvariants
  import opened DispatchProofs
  import opened AdvanceProofs

  // ---- Shape through the replay of the deque -----------------------------------

  /** Enqueueing behind a conserving state and trying that key once is already enough dispatching. */
  lemma EnqueueDispatchShape(env: Env, c: Coord, op: Op)
    requires ValidEnv(env) && Capacity(env, c) && Conserving(env, c) && Hygienic(c, {})
    ensures var s := DispatchIfIdle(env, Enqueue(c, op), op.key);
            Capacity(env, s) && Conserving(env, s) && Hygienic(s, {}) && SameBut(c, s)
  {
    DispatchShape(env, Enqueue(c, op), op.key, {});
  }

  lemma ClosesLastPop(c: Coord)
    requires ClosesLast(c) && c.pending != [] && !c.pending[0].PendingClose?
    ensures ClosesLast(Rest(c))
  {
    var s := Rest(c);
    if i :| 0 <= i < |c.pending| && c.pending[i].PendingClose? {
      assert s.pending[i - 1].PendingClose?;
    }
  }

  lemma BeginMaintenanceShape(env: Env, c: Coord)
    requires ValidEnv(env) && Shape(env, c) && !Busy(c) && !c.maintenanceActive
    requires c.pending != [] && c.pending[0].PendingMaintenance?
    ensures Shape(env, BeginMaintenance(env, c))
  {
    ClosesLastPop(c);
    FlatMapPush(MaintenanceJob(), c.jobs, Maintain(c.pending[0].id));
    assert c.queues == map[];
  }

  /** A conserving state with waiting work has an operation running. */
  lemma BusyMeansActive(env: Env, c: Coord)
    requires ValidEnv(env) && Conserving(env, c) && Busy(c)
    ensures c.active != {}
  {
    assert c.active == {} ==> |c.active| < env.limit;
  }

  /** The replay stops only at a close that may now take effect, or where something will wake it. */
  lemma {:induction false} AdvanceShape(env: Env, c: Coord)
    requires ValidEnv(env) && Shape(env, c)
    ensures Shape(env, Advance(env, c))
    ensures Awake(Advance(env, c)) || MayStop(Advance(env, c))
    ensures Advance(env, c).running == c.running
    decreases |c.pending|
  {
    hide Capacity, DispatchIfIdle;
    if !c.maintenanceActive && c.pending != [] {
      match c.pending[0]
      case PendingMaintenance(id, mark) =>
        if !Busy(c) {
          BeginMaintenanceShape(env, c);
        } else {
          BusyMeansActive(env, c);
        }
      case PendingSubmission(op) =>
        ClosesLastPop(c);
        assert Capacity(env, c) == Capacity(env, Rest(c)) by { CapacityFrame(env, c, c.pending[1..]); }
        EnqueueDispatchShape(env, Rest(c), op);
        AdvanceShape(env, DispatchIfIdle(env, Enqueue(Rest(c), op), op.key));
      case PendingFlush(id, mark) =>
        if !Busy(c) {
          ClosesLastPop(c);
          var s := Respond(Honour(Rest(c), id, mark), FlushReply(id, Ok(())));
          FlushShape(env, c);
          AdvanceShape(env, s);
        } else {
          BusyMeansActive(env, c);
        }
      case PendingClose(_) =>
        if Busy(c) {
          BusyMeansActive(env, c);
        }
    }
  }

  lemma CapacityFrame(env: Env, c: Coord, pending: seq<PendingEvent>)
    ensures Capacity(env, c) == Capacity(env, c.(pending := pending))
  {
  }

  lemma FlushShape(env: Env, c: Coord)
    requires Capacity(env, c) && c.pending != [] && c.pending[0].PendingFlush?
    ensures Capacity(env, Respond(Honour(Rest(c), c.pending[0].id, c.pending[0].mark),
                                  FlushReply(c.pending[0].id, Ok(()))))
  {
  }

  // ---- Releasing a slot ----------------------------------------------------------

  function Popped(c: Coord): Coord
    requires c.channel != []
  {
    c.(channel := c.channel[1..])
  }

  lemma PopTokens(c: Coord)
    requires Tokens(c.jobs, c.channel, c.active, c.maintenanceActive) && c.channel != []
    ensures !c.channel[0].Completion? && !c.channel[0].MaintenanceCompletion?
      ==> Tokens(c.jobs, c.channel[1..], c.active, c.maintenanceActive)
    ensures c.channel[0].Completion?
      ==> && c.channel[0].key in c.active
          && Tokens(c.jobs, c.channel[1..], c.active - {c.channel[0].key}, c.maintenanceActive)
    ensures c.channel[0].MaintenanceCompletion?
      ==> c.maintenanceActive && Tokens(c.jobs, c.channel[1..], c.active, false)
  {
    forall key: KeyHash
      ensures FlatMap(CompletionFor(key), c.channel)
           == CompletionFor(key)(c.channel[0]) + FlatMap(CompletionFor(key), c.channel[1..])
    {
      FlatMapPop(CompletionFor(key), c.channel);
    }
    FlatMapPop(MaintenanceDone(), c.channel);
    if c.channel[0].Completion? {
      var key := c.channel[0].key;
      assert |FlatMap(CompletionFor(key), c.channel)| >= 1;
    }
  }

  /** What the coordinator holds after taking an event from the channel. */
  function Taken(event: Event): Hand {
    if event.Completion? then event.outcome else None
  }

  lemma PopResults(c: Coord)
    requires c.channel != []
    requires InFlight(c.fate, c.jobs, c.channel, None)
    requires Settled(c.order, c.fate, c.replies, c.jobs, c.channel, None)
    ensures InFlight(c.fate, c.jobs, c.channel[1..], Taken(c.channel[0]))
    ensures Settled(c.order, c.fate, c.replies, c.jobs, c.channel[1..], Taken(c.channel[0]))
  {
    TallyPop(CompletedIds(), c.channel);
    assert CompletedIds()(c.channel[0]) == HandIds(Taken(c.channel[0]));
  }

  lemma PopRunnable(c: Coord)
    requires c.channel != [] && AllRunnable(c.queues, c.pending, c.channel, c.jobs)
    ensures AllRunnable(c.queues, c.pending, c.channel[1..], c.jobs)
    ensures c.channel[0].Submission? ==> Runnable(c.channel[0].op.operation)
  {
  }

  /** The state in which the coordinator starts to act on the event it took. */
  function Begun(c: Coord): Coord
    requires c.channel != []
  {
    match c.channel[0]
    case Completion(key, _) => Popped(c).(active := c.active - {key})
    case MaintenanceCompletion(_) => Popped(c).(maintenanceActive := false)
    case _ => Popped(c)
  }

  lemma BegunCore(c: Coord)
    requires Core(c, None) && c.channel != []
    ensures Core(Begun(c), Taken(c.channel[0]))
  {
    hide Tokens, Lines, Fifo, Distinct, Known, AllRunnable, Backlog, BarriersHeld, InFlight, Answered, Settled;
    PopTokens(c);
    PopResults(c);
    PopRunnable(c);
  }

  lemma BegunEndpoints(c: Coord)
    requires c.channel != []
    ensures Endpoints(Begun(c)) + EventIds()(c.channel[0]) == Endpoints(c)
  {
    hide Tally, QueueIds, EventIds;
    TallyPop(EventIds(), c.channel);
    var x, a := EventIds()(c.channel[0]), Tally(EventIds(), c.channel[1..]);
    var b, d := Tally(PendingIds(), c.pending), Tally(JobIds(), c.jobs);
    var e, f := QueueIds(c.queues), Tally(ReplyIds(), c.replies);
    assert Endpoints(Begun(c)) == a + b + d + e + f;
    assert Endpoints(c) == x + a + b + d + e + f;
    MoveLast(x, a, b, d, e, f);
  }

  /** Forgetting an empty queue. */
  function Forget(c: Coord, key: KeyHash): Coord {
    if key !in c.active && key in c.queues && c.queues[key] == [] then c.(queues := c.queues - {key}) else c
  }

  lemma ForgetCore(c: Coord, key: KeyHash, hand: Hand)
    requires Core(c, hand)
    ensures Core(Forget(c, key), hand)
  {
    hide Tokens, Fifo, Distinct, Known, Backlog, BarriersHeld, InFlight, Answered, Settled;
    assert forall k: KeyHash :: Queue(Forget(c, key).queues, k) == Queue(c.queues, k);
  }

  lemma ForgetEndpoints(c: Coord, key: KeyHash)
    ensures Endpoints(Forget(c, key)) == Endpoints(c)
  {
    if key !in c.active && key in c.queues && c.queues[key] == [] {
      GatherAt(QueueTally(), c.queues, key);
      assert QueueTally()([]) == multiset{};
    }
  }

  lemma ReleaseCore(env: Env, c: Coord)
    requires ValidEnv(env) && Core(c, None) && c.channel != [] && c.channel[0].Completion?
    ensures var s := Release(env, Popped(c), c.channel[0].key);
            && Core(s, c.channel[0].outcome)
            && Endpoints(s) == Endpoints(Begun(c))
            && OnlyRefusals(c.fate, s.fate)
  {
    hide Core, Endpoints, DispatchIfIdle, DispatchAvailable;
    var key := c.channel[0].key;
    var hand := c.channel[0].outcome;
    BegunCore(c);
    var d := DispatchIfIdle(env, Begun(c), key);
    DispatchCore(env, Begun(c), key, hand);
    AvailableCore(env, d, hand);
    ForgetCore(DispatchAvailable(env, d), key, hand);
    ForgetEndpoints(DispatchAvailable(env, d), key);
  }

  lemma ReleaseShape(env: Env, c: Coord, key: KeyHash)
    requires ValidEnv(env) && Shape(env, c) && key in c.active
    ensures Shape(env, Release(env, c, key))
    ensures Release(env, c, key).running == c.running
  {
    hide DispatchIfIdle, DispatchAvailable;
    var b := c.(active := c.active - {key});
    assert |b.active| == |c.active| - 1;
    assert Hygienic(b, {key});
    DispatchShape(env, b, key, {key});
    AvailableShape(env, DispatchIfIdle(env, b, key), {key});
  }

  /** The delivered answer is the recorded one, and takes the place of the result in hand. */
  lemma DeliverResults(c: Coord, op: Op, result: BlockingResult)
    requires InFlight(c.fate, c.jobs, c.channel, Some((op, result)))
    requires Answered(c.order, c.fate, c.replies)
    requires Settled(c.order, c.fate, c.replies, c.jobs, c.channel, Some((op, result)))
    ensures InFlight(c.fate, c.jobs, c.channel, None)
    ensures Answered(c.order, c.fate, c.replies + [OpReply(op, Delivered(result))])
    ensures Settled(c.order, c.fate, c.replies + [OpReply(op, Delivered(result))], c.jobs, c.channel, None)
  {
    hide Tally;
    TallyPush(OpReplyIds(), c.replies, OpReply(op, Delivered(result)));
  }

  lemma DeliverCore(c: Coord, op: Op, result: BlockingResult)
    requires Core(c, Some((op, result)))
    ensures Core(Respond(c, OpReply(op, Delivered(result))), None)
    ensures Endpoints(Respond(c, OpReply(op, Delivered(result)))) == Endpoints(c) + multiset{op.id}
  {
    hide Tokens, Lines, Fifo, Distinct, Known, AllRunnable, Backlog, BarriersHeld, InFlight, Answered, Settled, Tally;
    var reply := OpReply(op, Delivered(result));
    TallyPush(ReplyIds(), c.replies, reply);
    RepliesKeepBarriers(c.barriers, c.order, c.replies, [reply]);
    DeliverResults(c, op, result);
  }
}
