/** What one event may change: what becomes of a parked barrier, which refusals are sent, each for a thread that did not
    start, and when the pool may grow. */
module EventEffects {
  import opened Collections
  import opened EngineTypes
  import opened Workers
  import opened Coordinator
  import opened EngineInvariants

  // ---- Thread starts ---------------------------------------------------------------------

  /** How many of the first n thread starts succeeded. */
  function Started(env: Env, n: nat): (r: nat)
    ensures r <= n
  {
    if n == 0 then 0 else Started(env, n - 1) + if env.spawn(n - 1) then 1 else 0
  }

  lemma StartedNext(env: Env, n: nat)
    ensures Started(env, n + 1) == Started(env, n) + if env.spawn(n) then 1 else 0
  {
  }

  /** Preparing the pool adds a worker for each start that succeeds. */
  lemma {:induction false} PreparedStarts(env: Env, pool: Pool, required: nat)
    ensures var r := Prepared(env, pool, required).0;
            r.workers + Started(env, pool.attempts) == pool.workers + Started(env, r.attempts)
    decreases env.limit - pool.workers
  {
    hide Prepared, Started;
    PreparedStep(env, pool, required);
    StartedNext(env, pool.attempts);
    if pool.workers < Min(required, env.limit) && env.spawn(pool.attempts) {
      PreparedStarts(env, pool.(workers := pool.workers + 1, attempts := pool.attempts + 1), required);
    }
  }

  // ---- Refusals ----------------------------------------------------------------------------

  predicate IsRefusal(reply: Reply) {
    match reply
    case OpReply(_, answer) => answer == Rejected(WorkerUnavailable)
    case MaintenanceReply(_, maintained) => maintained == Some(Err(WorkerUnavailable))
    case _ => false
  }

  function RefusalOf(): Reply -> seq<Reply> {
    (reply: Reply) => if IsRefusal(reply) then [reply] else []
  }

  /** The refusals among these replies. */
  function Refusals(replies: seq<Reply>): nat {
    |FlatMap(RefusalOf(), replies)|
  }

  lemma RefusalsPush(replies: seq<Reply>, reply: Reply)
    ensures Refusals(replies + [reply]) == Refusals(replies) + if IsRefusal(reply) then 1 else 0
  {
    FlatMapPush(RefusalOf(), replies, reply);
  }

  // ---- What dispatching and replaying change ---------------------------------------------

  /** A recorded barrier is an acknowledged flush, or maintenance that runs. */
  predicate Served(c: Coord, b: Barrier) {
    || (b.answered < |c.replies| && c.replies[b.answered] == FlushReply(b.id, Ok(())))
    || (Maintain(b.id) in c.jobs && c.maintenanceActive)
  }

  predicate SameControl(c: Coord, d: Coord) {
    && d.lifecycle == c.lifecycle && d.running == c.running && d.order == c.order
    && c.channel <= d.channel && c.jobs <= d.jobs && c.replies <= d.replies && c.barriers <= d.barriers
    && (c.maintenanceActive ==> d.maintenanceActive)
  }

  predicate NewServed(c: Coord, d: Coord) {
    forall i :: |c.barriers| <= i < |d.barriers| ==> Served(d, d.barriers[i])
  }

  /** Each refusal is a start that failed, and each new worker one that succeeded. */
  predicate PoolMoves(env: Env, c: Coord, d: Coord) {
    && d.pool.open == c.pool.open && c.pool.attempts <= d.pool.attempts
    && d.pool.workers + Started(env, c.pool.attempts) == c.pool.workers + Started(env, d.pool.attempts)
    && Refusals(d.replies) + c.pool.attempts + d.pool.workers
       == Refusals(c.replies) + d.pool.attempts + c.pool.workers
  }

  /** The pool grows only for work that is then under way. */
  predicate GrowthBusy(c: Coord, d: Coord) {
    |c.active| <= c.pool.workers ==>
      && |d.active| <= d.pool.workers
      && (d.pool.workers == c.pool.workers || d.active != {} || d.maintenanceActive)
      && (c.active != {} ==> d.active != {})
  }

  predicate Moves(env: Env, c: Coord, d: Coord) {
    SameControl(c, d) && NewServed(c, d) && PoolMoves(env, c, d) && GrowthBusy(c, d)
  }

  lemma ServedStays(c: Coord, d: Coord, b: Barrier)
    requires SameControl(c, d) && Served(c, b)
    ensures Served(d, b)
  {
  }

  lemma NewServedTrans(a: Coord, b: Coord, c: Coord)
    requires SameControl(a, b) && SameControl(b, c) && NewServed(a, b) && NewServed(b, c)
    ensures SameControl(a, c) && NewServed(a, c)
  {
    hide Served;
    forall i | |a.barriers| <= i < |c.barriers|
      ensures Served(c, c.barriers[i])
    {
      if i < |b.barriers| {
        ServedStays(b, c, b.barriers[i]);
      }
    }
  }

  lemma MovesTrans(env: Env, a: Coord, b: Coord, c: Coord)
    requires Moves(env, a, b) && Moves(env, b, c)
    ensures Moves(env, a, c)
  {
    hide NewServed, SameControl, Refusals, Started;
    NewServedTrans(a, b, c);
    StaysMaintained(b, c);
  }

  lemma StaysMaintained(b: Coord, c: Coord)
    requires SameControl(b, c)
    ensures b.maintenanceActive ==> c.maintenanceActive
  {
  }

  lemma MovesRefl(env: Env, c: Coord)
    ensures Moves(env, c, c)
  {
  }

  lemma DispatchMoves(env: Env, c: Coord, key: KeyHash)
    ensures Moves(env, c, DispatchIfIdle(env, c, key))
  {
    hide Prepared, FlatMap, RefusalOf, Refusals, Started;
    if key in c.active || |c.active| >= env.limit || Queue(c.queues, key) == [] {
    } else {
      var d := DispatchIfIdle(env, c, key);
      PreparedStarts(env, c.pool, |c.active| + 1);
      RefusalsPush(c.replies, OpReply(c.queues[key][0], Rejected(WorkerUnavailable)));
      assert Prepared(env, c.pool, |c.active| + 1).1 ==> key in d.active && |d.active| == |c.active| + 1;
    }
  }

  lemma {:induction false} AvailableMoves(env: Env, c: Coord)
    requires ValidEnv(env)
    ensures Moves(env, c, DispatchAvailable(env, c)) && DispatchAvailable(env, c).pending == c.pending
    decreases |QueueIds(c.queues)|
  {
    hide DispatchIfIdle, QueueIds, Moves;
    MovesRefl(env, c);
    if |c.active| < env.limit && Ready(c) != {} {
      var key := env.choose(c.picks, Ready(c));
      var picked := c.(picks := c.picks + 1);
      var d := DispatchIfIdle(env, picked, key);
      DispatchShrinks(env, picked, key);
      PickMoves(env, c);
      DispatchMoves(env, picked, key);
      DispatchKeepsPending(env, picked, key);
      AvailableMoves(env, d);
      MovesTrans(env, c, picked, d);
      MovesTrans(env, c, d, DispatchAvailable(env, d));
    }
  }

  lemma PickMoves(env: Env, c: Coord)
    ensures Moves(env, c, c.(picks := c.picks + 1))
  {
  }

  // ---- The pending deque ------------------------------------------------------------------

  /** What becomes of a parked flush or of parked maintenance: it stays parked until it is honoured; only for want of a
      worker is maintenance refused instead. */
  predicate Kept(p: PendingEvent, d: Coord) {
    match p
    case PendingFlush(id, _) => p in d.pending || FlushReply(id, Ok(())) in d.replies
    case PendingMaintenance(id, _) =>
      || p in d.pending || Maintain(id) in d.jobs || MaintenanceReply(id, Some(Err(WorkerUnavailable))) in d.replies
    case PendingClose(_) => p in d.pending
    case PendingSubmission(_) => true
  }

  predicate AllKept(pending: seq<PendingEvent>, d: Coord) {
    forall p :: p in pending ==> Kept(p, d)
  }

  lemma KeptTrans(p: PendingEvent, b: Coord, c: Coord)
    requires Kept(p, b) && SameControl(b, c) && AllKept(b.pending, c)
    ensures Kept(p, c)
  {
  }

  lemma AllKeptTrans(pending: seq<PendingEvent>, b: Coord, c: Coord)
    requires AllKept(pending, b) && SameControl(b, c) && AllKept(b.pending, c)
    ensures AllKept(pending, c)
  {
    hide Kept, SameControl;
    forall p | p in pending ensures Kept(p, c) {
      KeptTrans(p, b, c);
    }
  }

  lemma MaintenanceMoves(env: Env, c: Coord, id: nat, mark: nat)
    requires c.maintenanceActive && |c.active| == 0
    ensures var d := DispatchMaintenance(env, c, id, mark);
            && Moves(env, c, d) && d.pending == c.pending
            && (Maintain(id) in d.jobs || MaintenanceReply(id, Some(Err(WorkerUnavailable))) in d.replies)
  {
    hide Prepared, FlatMap, RefusalOf, Refusals, Started;
    PreparedStarts(env, c.pool, 1);
    RefusalsPush(c.replies, MaintenanceReply(id, Some(Err(WorkerUnavailable))));
    var (pool, ok) := Prepared(env, c.pool, 1);
    var d := DispatchMaintenance(env, c, id, mark);
    if ok {
      assert d.jobs == c.jobs + [Maintain(id)] && d.jobs[|c.jobs|] == Maintain(id);
    } else {
      assert d.replies[|c.replies|] == MaintenanceReply(id, Some(Err(WorkerUnavailable)));
    }
  }

  lemma FlushMoves(env: Env, c: Coord, id: nat, mark: nat)
    ensures var d := Respond(Honour(c, id, mark), FlushReply(id, Ok(())));
            && Moves(env, c, d) && d.pending == c.pending && FlushReply(id, Ok(())) in d.replies
  {
    hide FlatMap, RefusalOf, Refusals, Started;
    var d := Respond(Honour(c, id, mark), FlushReply(id, Ok(())));
    RefusalsPush(c.replies, FlushReply(id, Ok(())));
    assert d.replies[|c.replies|] == FlushReply(id, Ok(()));
  }

  /** Taking the head of the deque and parking it nowhere changes only the deque. */
  lemma PopMoves(env: Env, c: Coord, d: Coord)
    requires d == c.(pending := d.pending, queues := d.queues, maintenanceActive := d.maintenanceActive)
    requires c.maintenanceActive ==> d.maintenanceActive
    ensures Moves(env, c, d)
  {
  }

  lemma {:induction false} AdvanceMoves(env: Env, c: Coord)
    requires ValidEnv(env)
    ensures Moves(env, c, Advance(env, c)) && AllKept(c.pending, Advance(env, c))
    decreases |c.pending|
  {
    hide DispatchIfIdle, DispatchMaintenance, Honour, Moves, AllKept, Enqueue, Respond;
    StayKept(c);
    MovesRefl(env, c);
    if !c.maintenanceActive && c.pending != [] {
      var rest := c.(pending := c.pending[1..]);
      var d := Advance(env, c);
      match c.pending[0]
      case PendingMaintenance(id, mark) =>
        if !Busy(c) {
          var claimed := rest.(maintenanceActive := true);
          PopMoves(env, c, claimed);
          MaintenanceMoves(env, claimed, id, mark);
          MovesTrans(env, c, claimed, d);
          PoppedKept(c, d);
        }
      case PendingSubmission(op) =>
        EnqueueMoves(env, rest, op);
        var queued := Enqueue(rest, op);
        var begun := DispatchIfIdle(env, queued, op.key);
        DispatchKeepsPending(env, queued, op.key);
        DispatchMoves(env, queued, op.key);
        AdvanceMoves(env, begun);
        PopMoves(env, c, rest);
        MovesTrans(env, c, rest, queued);
        MovesTrans(env, c, queued, begun);
        MovesTrans(env, c, begun, d);
        PoppedKept(c, begun);
        MovesControl(env, begun, d);
        AllKeptTrans(c.pending, begun, d);
      case PendingFlush(id, mark) =>
        if !Busy(c) {
          var told := Respond(Honour(rest, id, mark), FlushReply(id, Ok(())));
          PopMoves(env, c, rest);
          FlushMoves(env, rest, id, mark);
          AdvanceMoves(env, told);
          MovesTrans(env, c, rest, told);
          MovesTrans(env, c, told, d);
          PoppedKept(c, told);
          MovesControl(env, told, d);
          AllKeptTrans(c.pending, told, d);
        }
      case PendingClose(_) =>
    }
  }

  lemma StayKept(c: Coord)
    ensures AllKept(c.pending, c)
  {
  }

  lemma EnqueueMoves(env: Env, c: Coord, op: Op)
    ensures Moves(env, c, Enqueue(c, op)) && Enqueue(c, op).pending == c.pending
  {
  }

  lemma MovesControl(env: Env, c: Coord, d: Coord)
    requires Moves(env, c, d)
    ensures SameControl(c, d)
  {
    hide SameControl, NewServed, PoolMoves, GrowthBusy;
  }

  lemma PoppedKept(c: Coord, d: Coord)
    requires c.pending != [] && d.pending == c.pending[1..] && Kept(c.pending[0], d)
    ensures AllKept(c.pending, d)
  {
  }

  // ---- One event ----------------------------------------------------------------------------

  /** The state once the event has been taken from the channel and has had its direct effect: what it asks for is
      parked or refused, its slot freed, or its report passed on. */
  function Taken(c: Coord): Coord
    requires c.channel != []
  {
    var rest, open := c.(channel := c.channel[1..]), c.lifecycle == Open;
    match c.channel[0]
    case Submission(op) =>
      if open then rest.(order := c.order + [op]) else Respond(rest, OpReply(op, Rejected(StoreClosed)))
    case Completion(key, _) => rest.(active := c.active - {key})
    case Maintenance(id) =>
      if open then rest.(pending := c.pending + [PendingMaintenance(id, |c.order|)])
      else Respond(rest, MaintenanceReply(id, Some(Err(StoreClosed))))
    case MaintenanceCompletion(report) =>
      var freed := rest.(maintenanceActive := false);
      if report.Some? then Respond(freed, MaintenanceReply(report.value.0, Some(report.value.1))) else freed
    case Flush(id) =>
      if open then rest.(pending := c.pending + [PendingFlush(id, |c.order|)])
      else Respond(rest, FlushReply(id, Err(StoreClosed)))
    case Close(id) => rest.(lifecycle := Closing, pending := c.pending + [PendingClose(id)])
  }

  lemma ReleaseMoves(env: Env, c: Coord, key: KeyHash)
    requires ValidEnv(env)
    ensures var freed := c.(active := c.active - {key});
            Moves(env, freed, Release(env, c, key)) && Release(env, c, key).pending == c.pending
  {
    hide DispatchIfIdle, DispatchAvailable, Moves;
    var freed := c.(active := c.active - {key});
    var begun := DispatchIfIdle(env, freed, key);
    var all := DispatchAvailable(env, begun);
    DispatchMoves(env, freed, key);
    DispatchKeepsPending(env, freed, key);
    AvailableMoves(env, begun);
    MovesTrans(env, freed, begun, all);
    ForgetMoves(env, all, key);
    MovesTrans(env, freed, all, Release(env, c, key));
  }

  lemma ForgetMoves(env: Env, c: Coord, key: KeyHash)
    ensures Moves(env, c, c) && Moves(env, c, c.(queues := c.queues - {key}))
  {
  }

  lemma DeliverMoves(env: Env, c: Coord, op: Op, result: BlockingResult)
    ensures Moves(env, c, Respond(c, OpReply(op, Delivered(result))))
  {
    hide Refusals, Started;
    RefusalsPush(c.replies, OpReply(op, Delivered(result)));
  }

  lemma FinishMoves(env: Env, b: Coord, c: Coord)
    requires ValidEnv(env) && Moves(env, b, c) && c.pending == b.pending
    ensures Moves(env, b, Advance(env, c)) && AllKept(b.pending, Advance(env, c))
  {
    hide Moves, Advance, AllKept;
    AdvanceMoves(env, c);
    MovesTrans(env, b, c, Advance(env, c));
  }

  /** A submission is started, queued or parked. */
  lemma SubmissionMoves(env: Env, c: Coord) returns (a: Coord)
    requires ValidEnv(env) && c.channel != [] && c.channel[0].Submission? && c.lifecycle == Open && ClosesLast(c)
    ensures Moves(env, Taken(c), a) && AllKept(Taken(c).pending, a) && Handle(env, c) == StopIfClosed(env, a)
  {
    hide DispatchIfIdle, DispatchAvailable, Moves, Enqueue, Stop, AllKept;
    var b, op := Taken(c), c.channel[0].op;
    if b.maintenanceActive || b.pending != [] {
      a := b.(pending := b.pending + [PendingSubmission(op)]);
      PopMoves(env, b, a);
      ParkKept(b, op);
      assert Handle(env, c) == a;
      assert !MayStop(a);
    } else {
      var queued := Enqueue(b, op);
      var begun := DispatchIfIdle(env, queued, op.key);
      a := DispatchAvailable(env, begun);
      EnqueueMoves(env, b, op);
      DispatchMoves(env, queued, op.key);
      DispatchKeepsPending(env, queued, op.key);
      AvailableMoves(env, begun);
      MovesTrans(env, b, queued, begun);
      MovesTrans(env, b, begun, a);
      StayKept(a);
    }
  }

  lemma ParkKept(c: Coord, op: Op)
    ensures AllKept(c.pending, c.(pending := c.pending + [PendingSubmission(op)]))
  {
  }

  lemma CompletionMoves(env: Env, c: Coord) returns (a: Coord)
    requires ValidEnv(env) && c.channel != [] && c.channel[0].Completion?
    ensures Moves(env, Taken(c), a) && AllKept(Taken(c).pending, a) && Handle(env, c) == StopIfClosed(env, a)
    ensures c.channel[0].outcome.Some? ==>
      OpReply(c.channel[0].outcome.value.0, Delivered(c.channel[0].outcome.value.1)) in a.replies
  {
    hide Release, Advance, Moves, Stop, AllKept;
    var rest, key, outcome := c.(channel := c.channel[1..]), c.channel[0].key, c.channel[0].outcome;
    var r := Release(env, rest, key);
    ReleaseMoves(env, rest, key);
    a := Advance(env, r);
    if outcome.Some? {
      var told := Respond(r, OpReply(outcome.value.0, Delivered(outcome.value.1)));
      DeliverMoves(env, r, outcome.value.0, outcome.value.1);
      MovesTrans(env, Taken(c), r, told);
      FinishMoves(env, Taken(c), told);
      a := Advance(env, told);
      AdvanceMoves(env, told);
      MovesControl(env, told, a);
      assert told.replies[|r.replies|] in a.replies;
    } else {
      FinishMoves(env, Taken(c), r);
    }
  }

  /** Handling an event is its direct effect, then dispatching and replaying, then stopping if a close is due. */
  lemma HandleMoves(env: Env, c: Coord) returns (a: Coord)
    requires ValidEnv(env) && c.channel != [] && ClosesLast(c) && Awake(c)
    ensures Moves(env, Taken(c), a) && AllKept(Taken(c).pending, a) && Handle(env, c) == StopIfClosed(env, a)
  {
    hide Advance, Release, Moves, Stop, AllKept;
    var b := Taken(c);
    MovesRefl(env, b);
    StayKept(b);
    match c.channel[0]
    case Submission(op) =>
      if c.lifecycle == Open {
        a := SubmissionMoves(env, c);
      } else {
        a := b;
        assert !MayStop(a);
      }
    case Completion(_, _) => a := CompletionMoves(env, c);
    case Maintenance(_) =>
      a := b;
      if c.lifecycle == Open {
        a := Advance(env, b);
        FinishMoves(env, b, b);
      } else {
        assert !MayStop(a);
      }
    case MaintenanceCompletion(_) =>
      a := Advance(env, b);
      FinishMoves(env, b, b);
    case Flush(_) =>
      a := b;
      if c.lifecycle == Open {
        a := Advance(env, b);
        FinishMoves(env, b, b);
      } else {
        assert !MayStop(a);
      }
    case Close(_) =>
      a := Advance(env, b);
      FinishMoves(env, b, b);
  }
}
