/** Dispatching an operation keeps the core invariant and conserves endpoints. */
module DispatchProofs {
  import opened Collections
  import opened EngineTypes
  import opened Workers
  import opened Coordinator
  import opened EngineInvariants

  // ---- Facts about the folds -------------------------------------------------

  /** No job of a key means no unstarted operation of it. */
  lemma {:induction false} NoJobNoFresh(jobs: seq<Job>, key: KeyHash)
    ensures |FlatMap(FreshFor(key), jobs)| <= |FlatMap(JobFor(key), jobs)|
  {
    if jobs != [] {
      NoJobNoFresh(jobs[1..], key);
    }
  }

  lemma {:induction false} UnsettledMember(order: seq<Op>, fate: map<nat, Fate>, key: KeyHash, op: Op)
    ensures op in FlatMap(UnsettledFor(fate, key), order)
        <==> op in order && op.key == key && op.id !in fate
  {
    if order != [] {
      UnsettledMember(order[1..], fate, key, op);
    }
  }

  lemma {:induction false} UnsettledSame(order: seq<Op>, fate: map<nat, Fate>, fate': map<nat, Fate>, key: KeyHash)
    requires forall i :: 0 <= i < |order| && order[i].key == key ==> (order[i].id in fate <==> order[i].id in fate')
    ensures FlatMap(UnsettledFor(fate', key), order) == FlatMap(UnsettledFor(fate, key), order)
  {
    if order != [] {
      UnsettledSame(order[1..], fate, fate', key);
    }
  }

  /** Ending the oldest unsettled operation of a key removes just it. */
  lemma {:induction false} SettleHead(order: seq<Op>, fate: map<nat, Fate>, op: Op, end: Fate)
    requires Distinct(order)
    requires FlatMap(UnsettledFor(fate, op.key), order) != []
    requires FlatMap(UnsettledFor(fate, op.key), order)[0] == op
    ensures FlatMap(UnsettledFor(fate[op.id := end], op.key), order)
         == FlatMap(UnsettledFor(fate, op.key), order)[1..]
    ensures forall i, j :: 0 <= i < j < |order| && order[j] == op && order[i].key == op.key ==> order[i].id in fate
  {
    var rest := order[1..];
    UnsettledMember(order, fate, op.key, op);
    if order[0] == op {
      UnsettledSame(rest, fate, fate[op.id := end], op.key);
    } else {
      assert order[0].key != op.key || order[0].id in fate;
      SettleHead(rest, fate, op, end);
      forall i, j | 0 <= i < j < |order| && order[j] == op && order[i].key == op.key
        ensures order[i].id in fate
      {
        if i > 0 {
          assert rest[j - 1] == op && rest[i - 1] == order[i];
        }
      }
    }
  }

  /** Ending an operation leaves the other keys' unsettled operations alone. */
  lemma SettleOther(order: seq<Op>, fate: map<nat, Fate>, op: Op, end: Fate, key: KeyHash)
    requires Distinct(order) && op in order && key != op.key
    ensures FlatMap(UnsettledFor(fate[op.id := end], key), order) == FlatMap(UnsettledFor(fate, key), order)
  {
    UnsettledSame(order, fate, fate[op.id := end], key);
  }

  /** Ending the oldest unsettled operation of a key keeps per-key order of endings. */
  lemma SettleFifo(order: seq<Op>, fate: map<nat, Fate>, op: Op, end: Fate)
    requires Distinct(order) && Fifo(order, fate)
    requires FlatMap(UnsettledFor(fate, op.key), order) != []
    requires FlatMap(UnsettledFor(fate, op.key), order)[0] == op
    ensures Fifo(order, fate[op.id := end])
    ensures op in order && op.id !in fate
  {
    UnsettledMember(order, fate, op.key, op);
    SettleHead(order, fate, op, end);
    var fate' := fate[op.id := end];
    forall i, j | 0 <= i < j < |order| && order[i].key == order[j].key && order[j].id in fate'
      ensures order[i].id in fate'
    {
      if order[j].id == op.id {
        var k :| 0 <= k < |order| && order[k] == op;
        assert k == j;
      }
    }
  }

  // ---- Starting --------------------------------------------------------------

  lemma StartTokens(c: Coord, key: KeyHash)
    requires Tokens(c.jobs, c.channel, c.active, c.maintenanceActive)
    requires key !in c.active && Queue(c.queues, key) != [] && QueueKeys(c.queues)
    ensures var s := Start(c, key);
            Tokens(s.jobs, s.channel, s.active, s.maintenanceActive)
  {
    hide FlatMap;
    var job := Fresh(c.queues[key][0]);
    forall k: KeyHash
      ensures FlatMap(JobFor(k), c.jobs + [job]) == FlatMap(JobFor(k), c.jobs) + if k == key then [job] else []
    {
      FlatMapPush(JobFor(k), c.jobs, job);
    }
    FlatMapPush(MaintenanceJob(), c.jobs, job);
  }

  lemma StartLines(c: Coord, key: KeyHash)
    requires Tokens(c.jobs, c.channel, c.active, c.maintenanceActive)
    requires Lines(c.order, c.fate, c.jobs, c.queues, c.pending)
    requires key !in c.active && Queue(c.queues, key) != [] && QueueKeys(c.queues)
    ensures var s := Start(c, key); Lines(s.order, s.fate, s.jobs, s.queues, s.pending)
  {
    hide FlatMap;
    var s := Start(c, key);
    var op := c.queues[key][0];
    forall k: KeyHash
      ensures FlatMap(UnsettledFor(s.fate, k), s.order)
           == FlatMap(FreshFor(k), s.jobs) + Queue(s.queues, k) + FlatMap(PendingFor(k), s.pending)
    {
      FlatMapPush(FreshFor(k), c.jobs, Fresh(op));
      if k == key {
        assert |FlatMap(JobFor(k), c.jobs)| == 0;
        NoJobNoFresh(c.jobs, k);
        assert FlatMap(FreshFor(k), c.jobs) == [];
        assert FlatMap(FreshFor(k), s.jobs) == [op];
        assert c.queues[key] == [op] + s.queues[key];
        assert Queue(s.queues, key) == s.queues[key];
      } else {
        assert FlatMap(FreshFor(k), s.jobs) == FlatMap(FreshFor(k), c.jobs);
        assert Queue(s.queues, k) == Queue(c.queues, k);
      }
    }
  }

  lemma StartRunnable(c: Coord, key: KeyHash)
    requires AllRunnable(c.queues, c.pending, c.channel, c.jobs) && Queue(c.queues, key) != []
    ensures var s := Start(c, key); AllRunnable(s.queues, s.pending, s.channel, s.jobs)
  {
    assert Runnable(c.queues[key][0].operation);
  }

  /** A job that carries no result changes nothing about results. */
  lemma PushPlainJob(c: Coord, job: Job, hand: Hand)
    requires !job.Finished?
    requires InFlight(c.fate, c.jobs, c.channel, hand)
    requires Settled(c.order, c.fate, c.replies, c.jobs, c.channel, hand)
    ensures InFlight(c.fate, c.jobs + [job], c.channel, hand)
    ensures Settled(c.order, c.fate, c.replies, c.jobs + [job], c.channel, hand)
  {
    TallyPush(FinishedIds(), c.jobs, job);
  }

  lemma StartCore(c: Coord, key: KeyHash, hand: Hand)
    requires Core(c, hand) && key !in c.active && Queue(c.queues, key) != []
    ensures Core(Start(c, key), hand)
  {
    hide Tokens, Lines, Fifo, Distinct, Known, Backlog, BarriersHeld, InFlight, Answered, Settled;
    StartTokens(c, key);
    StartLines(c, key);
    StartRunnable(c, key);
    PushPlainJob(c, Fresh(c.queues[key][0]), hand);
  }

  lemma StartEndpoints(c: Coord, key: KeyHash)
    requires Queue(c.queues, key) != []
    ensures Endpoints(Start(c, key)) == Endpoints(c)
  {
    PopShrinks(c.queues, key);
    TallyPush(JobIds(), c.jobs, Fresh(c.queues[key][0]));
  }

  // ---- Refusing --------------------------------------------------------------

  /** The head of an idle key's queue is its oldest unsettled operation. */
  lemma IdleHead(c: Coord, key: KeyHash)
    requires Tokens(c.jobs, c.channel, c.active, c.maintenanceActive)
    requires Lines(c.order, c.fate, c.jobs, c.queues, c.pending)
    requires key !in c.active && Queue(c.queues, key) != []
    ensures FlatMap(UnsettledFor(c.fate, key), c.order) == Queue(c.queues, key) + FlatMap(PendingFor(key), c.pending)
  {
    assert |FlatMap(JobFor(key), c.jobs)| == 0;
    NoJobNoFresh(c.jobs, key);
    assert FlatMap(FreshFor(key), c.jobs) == [];
  }

  lemma RefuseLines(c: Coord, key: KeyHash)
    requires Tokens(c.jobs, c.channel, c.active, c.maintenanceActive)
    requires Lines(c.order, c.fate, c.jobs, c.queues, c.pending)
    requires Distinct(c.order) && QueueKeys(c.queues)
    requires key !in c.active && Queue(c.queues, key) != []
    ensures var s := Refuse(c, key); Lines(s.order, s.fate, s.jobs, s.queues, s.pending)
  {
    hide FlatMap;
    var s := Refuse(c, key);
    var op := c.queues[key][0];
    IdleHead(c, key);
    assert op.key == key;
    SettleHead(c.order, c.fate, op, Refused);
    UnsettledMember(c.order, c.fate, key, op);
    assert FlatMap(FreshFor(key), c.jobs) == [] by {
      assert |FlatMap(JobFor(key), c.jobs)| == 0;
      NoJobNoFresh(c.jobs, key);
    }
    forall k: KeyHash
      ensures FlatMap(UnsettledFor(s.fate, k), s.order)
           == FlatMap(FreshFor(k), s.jobs) + Queue(s.queues, k) + FlatMap(PendingFor(k), s.pending)
    {
      if k == key {
        assert Queue(s.queues, key) == c.queues[key][1..];
      } else {
        SettleOther(c.order, c.fate, op, Refused, k);
        assert Queue(s.queues, k) == Queue(c.queues, k);
      }
    }
  }

  /** Recording an ending and answering it at once keeps every statement about answers. */
  lemma SettleAndAnswer(c: Coord, op: Op, end: Fate, hand: Hand)
    requires Distinct(c.order) && op in c.order && op.id !in c.fate
    requires Answered(c.order, c.fate, c.replies)
    requires Settled(c.order, c.fate, c.replies, c.jobs, c.channel, hand)
    requires InFlight(c.fate, c.jobs, c.channel, hand)
    requires BarriersHeld(c.barriers, c.order, c.replies)
    ensures var replies := c.replies + [OpReply(op, AnswerOf(end))];
            var fate := c.fate[op.id := end];
            && Answered(c.order, fate, replies)
            && Settled(c.order, fate, replies, c.jobs, c.channel, hand)
            && InFlight(fate, c.jobs, c.channel, hand)
            && BarriersHeld(c.barriers, c.order, replies)
  {
    hide InFlight, Answered, Settled, BarriersHeld, Tally;
    AnsweringAnswers(c.order, c.fate, c.replies, op, end);
    AnsweringSettles(c, op, end, hand);
    EndingInFlight(c.fate, c.jobs, c.channel, hand, op.id, end);
    RepliesKeepBarriers(c.barriers, c.order, c.replies, [OpReply(op, AnswerOf(end))]);
  }

  lemma AnsweringAnswers(order: seq<Op>, fate: map<nat, Fate>, replies: seq<Reply>, op: Op, end: Fate)
    requires Distinct(order) && op in order && op.id !in fate && Answered(order, fate, replies)
    ensures Answered(order, fate[op.id := end], replies + [OpReply(op, AnswerOf(end))])
  {
  }

  lemma AnsweringSettles(c: Coord, op: Op, end: Fate, hand: Hand)
    requires Settled(c.order, c.fate, c.replies, c.jobs, c.channel, hand)
    ensures Settled(c.order, c.fate[op.id := end], c.replies + [OpReply(op, AnswerOf(end))], c.jobs, c.channel, hand)
  {
    hide Tally;
    TallyPush(OpReplyIds(), c.replies, OpReply(op, AnswerOf(end)));
  }

  lemma EndingInFlight(fate: map<nat, Fate>, jobs: seq<Job>, channel: seq<Event>, hand: Hand, id: nat, end: Fate)
    requires id !in fate && InFlight(fate, jobs, channel, hand)
    ensures InFlight(fate[id := end], jobs, channel, hand)
  {
  }

  lemma RefuseRunnable(c: Coord, key: KeyHash)
    requires AllRunnable(c.queues, c.pending, c.channel, c.jobs) && Queue(c.queues, key) != []
    ensures AllRunnable(Refuse(c, key).queues, c.pending, c.channel, c.jobs)
    ensures QueueKeys(c.queues) && c.queues[key][0].key == key
  {
  }

  lemma RefuseCore(c: Coord, key: KeyHash, hand: Hand)
    requires Core(c, hand) && key !in c.active && Queue(c.queues, key) != []
    ensures Core(Refuse(c, key), hand)
    ensures OnlyRefusals(c.fate, Refuse(c, key).fate)
  {
    hide Tokens, Lines, Fifo, Distinct, Known, AllRunnable, Backlog, BarriersHeld, InFlight, Answered, Settled, FlatMap;
    var op := c.queues[key][0];
    RefuseRunnable(c, key);
    RefuseLines(c, key);
    IdleHead(c, key);
    SettleFifo(c.order, c.fate, op, Refused);
    SettleKnown(c.order, c.fate, op, Refused);
    SettleAndAnswer(c, op, Refused, hand);
  }

  lemma SettleKnown(order: seq<Op>, fate: map<nat, Fate>, op: Op, end: Fate)
    requires Known(order, fate) && op in order
    ensures Known(order, fate[op.id := end])
  {
  }

  lemma RefuseEndpoints(c: Coord, key: KeyHash)
    requires Queue(c.queues, key) != []
    ensures Endpoints(Refuse(c, key)) == Endpoints(c)
  {
    var op := c.queues[key][0];
    PopShrinks(c.queues, key);
    TallyPush(ReplyIds(), c.replies, OpReply(op, Rejected(WorkerUnavailable)));
  }

  // ---- Dispatching -----------------------------------------------------------

  lemma PoolKeeps(c: Coord, pool: Pool, hand: Hand)
    requires Core(c, hand)
    ensures Core(c.(pool := pool), hand)
    ensures Endpoints(c.(pool := pool)) == Endpoints(c)
  {
  }

  lemma StartKeepsFate(c: Coord, key: KeyHash)
    requires Queue(c.queues, key) != []
    ensures Start(c, key).fate == c.fate
  {
  }

  lemma DispatchCore(env: Env, c: Coord, key: KeyHash, hand: Hand)
    requires Core(c, hand)
    ensures Core(DispatchIfIdle(env, c, key), hand)
    ensures Endpoints(DispatchIfIdle(env, c, key)) == Endpoints(c)
    ensures OnlyRefusals(c.fate, DispatchIfIdle(env, c, key).fate)
  {
    hide Core, Endpoints, Prepared, Start, Refuse;
    if key in c.active || |c.active| >= env.limit || Queue(c.queues, key) == [] {
    } else {
      var (pool, ok) := Prepared(env, c.pool, |c.active| + 1);
      var p := c.(pool := pool);
      PoolKeeps(c, pool, hand);
      StartKeepsFate(p, key);
      StartCore(p, key, hand);
      StartEndpoints(p, key);
      RefuseCore(p, key, hand);
      RefuseEndpoints(p, key);
    }
  }

  /** What dispatching leaves alone. */
  predicate SameBut(c: Coord, s: Coord) {
    && s.pending == c.pending && s.lifecycle == c.lifecycle
    && s.maintenanceActive == c.maintenanceActive && s.order == c.order
    && s.running == c.running && s.channel == c.channel
  }

  lemma DispatchFrame(env: Env, c: Coord, key: KeyHash)
    ensures SameBut(c, DispatchIfIdle(env, c, key))
    ensures NoCloses(c.replies) ==> NoCloses(DispatchIfIdle(env, c, key).replies)
  {
  }

  lemma {:induction false} AvailableFrame(env: Env, c: Coord)
    requires ValidEnv(env)
    ensures SameBut(c, DispatchAvailable(env, c))
    ensures NoCloses(c.replies) ==> NoCloses(DispatchAvailable(env, c).replies)
    decreases |QueueIds(c.queues)|
  {
    hide DispatchIfIdle, QueueIds;
    if |c.active| < env.limit && Ready(c) != {} {
      var key := env.choose(c.picks, Ready(c));
      var picked := c.(picks := c.picks + 1);
      DispatchShrinks(env, picked, key);
      DispatchFrame(env, picked, key);
      AvailableFrame(env, DispatchIfIdle(env, picked, key));
    }
  }

  lemma StartShape(env: Env, c: Coord, pool: Pool, key: KeyHash, except: set<KeyHash>)
    requires Capacity(env, c) && Hygienic(c, except)
    requires key !in c.active && |c.active| < env.limit && Queue(c.queues, key) != []
    requires (pool, true) == Prepared(env, c.pool, |c.active| + 1)
    ensures var s := Start(c.(pool := pool), key);
            Capacity(env, s) && Hygienic(s, except) && SameBut(c, s)
  {
    FlatMapPush(MaintenanceJob(), c.jobs, Fresh(c.queues[key][0]));
    assert |c.active + {key}| == |c.active| + 1;
  }

  lemma RefuseShape(env: Env, c: Coord, pool: Pool, key: KeyHash, except: set<KeyHash>)
    requires Capacity(env, c) && Hygienic(c, except)
    requires key !in c.active && |c.active| < env.limit && Queue(c.queues, key) != []
    requires (pool, false) == Prepared(env, c.pool, |c.active| + 1)
    ensures var s := Refuse(c.(pool := pool), key);
            Capacity(env, s) && Hygienic(s, except) && SameBut(c, s)
  {
  }

  lemma DispatchShape(env: Env, c: Coord, key: KeyHash, except: set<KeyHash>)
    requires Capacity(env, c) && Hygienic(c, except)
    ensures var s := DispatchIfIdle(env, c, key);
            Capacity(env, s) && Hygienic(s, except) && SameBut(c, s)
  {
    if key in c.active || |c.active| >= env.limit || Queue(c.queues, key) == [] {
    } else {
      var (pool, ok) := Prepared(env, c.pool, |c.active| + 1);
      if ok {
        StartShape(env, c, pool, key, except);
      } else {
        RefuseShape(env, c, pool, key, except);
      }
    }
  }

  lemma PickKeeps(c: Coord, hand: Hand)
    requires Core(c, hand)
    ensures Core(c.(picks := c.picks + 1), hand)
    ensures Endpoints(c.(picks := c.picks + 1)) == Endpoints(c)
  {
  }

  lemma {:induction false} AvailableCore(env: Env, c: Coord, hand: Hand)
    requires ValidEnv(env) && Core(c, hand)
    ensures Core(DispatchAvailable(env, c), hand)
    ensures Endpoints(DispatchAvailable(env, c)) == Endpoints(c)
    ensures OnlyRefusals(c.fate, DispatchAvailable(env, c).fate)
    decreases |QueueIds(c.queues)|
  {
    hide Core, Endpoints, DispatchIfIdle, QueueIds;
    if |c.active| < env.limit && Ready(c) != {} {
      var key := env.choose(c.picks, Ready(c));
      var picked := c.(picks := c.picks + 1);
      PickKeeps(c, hand);
      DispatchShrinks(env, picked, key);
      DispatchCore(env, picked, key, hand);
      AvailableCore(env, DispatchIfIdle(env, picked, key), hand);
    }
  }

  lemma PickShape(env: Env, c: Coord, except: set<KeyHash>)
    requires Capacity(env, c) && Hygienic(c, except)
    ensures Capacity(env, c.(picks := c.picks + 1)) && Hygienic(c.(picks := c.picks + 1), except)
  {
  }

  /** Dispatching until nothing more can start leaves no idle slot beside a waiting idle key. */
  lemma {:induction false} AvailableShape(env: Env, c: Coord, except: set<KeyHash>)
    requires ValidEnv(env) && Capacity(env, c) && Hygienic(c, except)
    ensures var s := DispatchAvailable(env, c);
            Capacity(env, s) && Hygienic(s, except) && Conserving(env, s) && SameBut(c, s)
    decreases |QueueIds(c.queues)|
  {
    hide DispatchIfIdle, QueueIds, Capacity, Hygienic;
    if |c.active| < env.limit && Ready(c) != {} {
      var key := env.choose(c.picks, Ready(c));
      var picked := c.(picks := c.picks + 1);
      PickShape(env, c, except);
      DispatchShrinks(env, picked, key);
      DispatchShape(env, picked, key, except);
      AvailableShape(env, DispatchIfIdle(env, picked, key), except);
    } else if |c.active| < env.limit {
      forall key | key in c.queues && c.queues[key] != []
        ensures key in c.active
      {
        assert key !in Ready(c);
      }
    }
  }
}
