/** A worker's steps, and the end of the receive loop, keep the system invariant. */
module WorkerProofs {
  import opened Collections
  import opened EngineTypes
  import opened Workers
  import opened Coordinator
  import opened EngineInvariants
  import opened DispatchProofs
  import opened AdvanceProofs
  import opened EventProofs
  import opened HandleProofs
  import opened StepProofs
  import opened EngineSystem
  import opened SystemProofs

  /** A key's only job, when unstarted, runs its oldest unsettled operation. */
  lemma OnlyFresh(c: Coord, i: nat)
    requires Tokens(c.jobs, c.channel, c.active, c.maintenanceActive)
    requires i < |c.jobs| && c.jobs[i].Fresh?
    ensures var key := c.jobs[i].op.key;
            && FlatMap(FreshFor(key), c.jobs[..i]) == []
            && FlatMap(FreshFor(key), c.jobs[i + 1..]) == []
            && FlatMap(FreshFor(key), c.jobs) == [c.jobs[i].op]
  {
    var key := c.jobs[i].op.key;
    FlatMapSplit(JobFor(key), c.jobs, i);
    FlatMapSplit(FreshFor(key), c.jobs, i);
    assert |FlatMap(JobFor(key), c.jobs)| <= 1;
    NoJobNoFresh(c.jobs[..i], key);
    NoJobNoFresh(c.jobs[i + 1..], key);
  }

  lemma RunningHead(c: Coord, i: nat)
    requires Tokens(c.jobs, c.channel, c.active, c.maintenanceActive)
    requires Lines(c.order, c.fate, c.jobs, c.queues, c.pending)
    requires i < |c.jobs| && c.jobs[i].Fresh?
    ensures var op := c.jobs[i].op;
            FlatMap(UnsettledFor(c.fate, op.key), c.order)
            == [op] + (Queue(c.queues, op.key) + FlatMap(PendingFor(op.key), c.pending))
  {
    hide FlatMap, Tokens;
    OnlyFresh(c, i);
  }

  predicate EndsJob(job: Job, key: KeyHash) {
    IsJobFor(job, key) && !job.Fresh?
  }

  /** Replacing a key's job by an ended one of the same key. */
  lemma EndTokens(c: Coord, i: nat, job: Job)
    requires Tokens(c.jobs, c.channel, c.active, c.maintenanceActive)
    requires i < |c.jobs| && c.jobs[i].Fresh? && EndsJob(job, c.jobs[i].op.key)
    ensures Tokens(c.jobs[i := job], c.channel, c.active, c.maintenanceActive)
    ensures FlatMap(MaintenanceJob(), c.jobs[i := job]) == FlatMap(MaintenanceJob(), c.jobs)
  {
    forall key: KeyHash
      ensures |FlatMap(JobFor(key), c.jobs[i := job])| == |FlatMap(JobFor(key), c.jobs)|
    {
      FlatMapSplit(JobFor(key), c.jobs, i);
      FlatMapUpdate(JobFor(key), c.jobs, i, job);
      assert IsJobFor(c.jobs[i], key) == IsJobFor(job, key);
    }
    FlatMapSplit(MaintenanceJob(), c.jobs, i);
    FlatMapUpdate(MaintenanceJob(), c.jobs, i, job);
  }

  lemma EndLines(c: Coord, i: nat, job: Job, end: Fate)
    requires Tokens(c.jobs, c.channel, c.active, c.maintenanceActive)
    requires Lines(c.order, c.fate, c.jobs, c.queues, c.pending) && Distinct(c.order)
    requires i < |c.jobs| && c.jobs[i].Fresh? && EndsJob(job, c.jobs[i].op.key)
    ensures Lines(c.order, c.fate[c.jobs[i].op.id := end], c.jobs[i := job], c.queues, c.pending)
  {
    hide FlatMap, Tokens;
    var op := c.jobs[i].op;
    var fate := c.fate[op.id := end];
    RunningHead(c, i);
    OnlyFresh(c, i);
    SettleHead(c.order, c.fate, op, end);
    UnsettledMember(c.order, c.fate, op.key, op);
    forall key: KeyHash
      ensures FlatMap(UnsettledFor(fate, key), c.order)
           == FlatMap(FreshFor(key), c.jobs[i := job]) + Queue(c.queues, key) + FlatMap(PendingFor(key), c.pending)
    {
      FlatMapUpdate(FreshFor(key), c.jobs, i, job);
      if key != op.key {
        SettleOther(c.order, c.fate, op, end, key);
        FlatMapSplit(FreshFor(key), c.jobs, i);
      }
    }
  }

  lemma EndRunnable(c: Coord, i: nat, job: Job)
    requires AllRunnable(c.queues, c.pending, c.channel, c.jobs)
    requires i < |c.jobs| && !job.Fresh?
    ensures AllRunnable(c.queues, c.pending, c.channel, c.jobs[i := job])
  {
  }

  lemma RunningSettles(c: Coord, i: nat, end: Fate)
    requires Core(c, None) && i < |c.jobs| && c.jobs[i].Fresh?
    ensures var op := c.jobs[i].op;
            && op in c.order && op.id !in c.fate
            && Fifo(c.order, c.fate[op.id := end])
            && Known(c.order, c.fate[op.id := end])
            && (forall p, q :: 0 <= p < q < |c.order| && c.order[q] == op && c.order[p].key == op.key
                  ==> c.order[p].id in c.fate)
  {
    hide AllRunnable, Backlog, BarriersHeld, InFlight, Answered, Settled, Known;
    RunningHead(c, i);
    SettleFifo(c.order, c.fate, c.jobs[i].op, end);
    SettleHead(c.order, c.fate, c.jobs[i].op, end);
    SettleKnown(c.order, c.fate, c.jobs[i].op, end);
  }

  // ---- Running ------------------------------------------------------------------------

  lemma RunResults(c: Coord, i: nat, end: Fate, done: Op, result: BlockingResult)
    requires InFlight(c.fate, c.jobs, c.channel, None)
    requires Answered(c.order, c.fate, c.replies)
    requires Settled(c.order, c.fate, c.replies, c.jobs, c.channel, None)
    requires Distinct(c.order) && i < |c.jobs| && c.jobs[i].Fresh?
    requires c.jobs[i].op in c.order && c.jobs[i].op.id !in c.fate
    requires done.id == c.jobs[i].op.id && AnswerOf(end) == Delivered(result) && Matches(done.operation, result)
    ensures var fate := c.fate[c.jobs[i].op.id := end];
            var jobs := c.jobs[i := Finished(done, result)];
            && InFlight(fate, jobs, c.channel, None)
            && Answered(c.order, fate, c.replies)
            && Settled(c.order, fate, c.replies, jobs, c.channel, None)
  {
    var fate := c.fate[c.jobs[i].op.id := end];
    var jobs := c.jobs[i := Finished(done, result)];
    assert InFlight(fate, jobs, c.channel, None) by {
      hide Answered, Settled;
    }
    assert Answered(c.order, fate, c.replies) by {
      hide InFlight, Settled;
    }
    assert Settled(c.order, fate, c.replies, jobs, c.channel, None) by {
      hide InFlight, Answered;
      RunTally(c.jobs, i, Finished(done, result));
    }
  }

  lemma RunTally(jobs: seq<Job>, i: nat, job: Job)
    requires i < |jobs| && jobs[i].Fresh? && job.Finished?
    ensures Tally(FinishedIds(), jobs[i := job]) == Tally(FinishedIds(), jobs) + multiset{job.op.id}
  {
    TallyUpdate(FinishedIds(), jobs, i, job);
    assert FinishedIds()(jobs[i]) == multiset{};
  }

  lemma RunCore(c: Coord, i: nat, end: Fate, done: Op, result: BlockingResult)
    requires Core(c, None) && i < |c.jobs| && c.jobs[i].Fresh?
    requires done.id == c.jobs[i].op.id && done.key == c.jobs[i].op.key
    requires AnswerOf(end) == Delivered(result) && Matches(done.operation, result)
    ensures Core(c.(jobs := c.jobs[i := Finished(done, result)], fate := c.fate[done.id := end]), None)
  {
    hide Tokens, Lines, Fifo, Distinct, Known, AllRunnable, Backlog, BarriersHeld, InFlight, Answered, Settled, Matches;
    var job := Finished(done, result);
    RunningSettles(c, i, end);
    EndTokens(c, i, job);
    EndLines(c, i, job, end);
    EndRunnable(c, i, job);
    RunResults(c, i, end, done, result);
  }

  lemma EndEndpoints(c: Coord, i: nat, job: Job)
    requires i < |c.jobs|
    ensures Endpoints(c.(jobs := c.jobs[i := job])) + JobIds()(c.jobs[i]) == Endpoints(c) + JobIds()(job)
  {
    hide QueueIds, Tally;
    TallyUpdate(JobIds(), c.jobs, i, job);
    var rest := Tally(EventIds(), c.channel) + Tally(PendingIds(), c.pending) + QueueIds(c.queues)
      + Tally(ReplyIds(), c.replies);
    Shift(rest, Tally(JobIds(), c.jobs[i := job]), JobIds()(c.jobs[i]), Tally(JobIds(), c.jobs), JobIds()(job));
    assert Endpoints(c) == rest + Tally(JobIds(), c.jobs);
    assert Endpoints(c.(jobs := c.jobs[i := job])) == rest + Tally(JobIds(), c.jobs[i := job]);
  }

  lemma EndShape(env: Env, c: Coord, i: nat, job: Job, fate: map<nat, Fate>)
    requires Shape(env, c) && Awake(c) && i < |c.jobs|
    requires FlatMap(MaintenanceJob(), c.jobs[i := job]) == FlatMap(MaintenanceJob(), c.jobs)
    ensures var s := c.(jobs := c.jobs[i := job], fate := fate); Shape(env, s) && Awake(s)
  {
    hide FlatMap;
  }

  // ---- The effect and the replay --------------------------------------------------------

  /** Operations of a key behind an unended one have not ended either, so they change nothing yet. */
  lemma {:induction false} ValueAfter(initial: map<KeyHash, Blob>, order: seq<Op>, fate: map<nat, Fate>,
                                      p: nat, n: nat)
    requires p < n <= |order| && Fifo(order, fate)
    requires order[p].id !in fate
    ensures ValueAt(initial, order, fate, order[p].key, n) == ValueAt(initial, order, fate, order[p].key, p)
  {
    if n > p + 1 {
      assert order[n - 1].key == order[p].key ==> order[n - 1].id !in fate;
      ValueAfter(initial, order, fate, p, n - 1);
    }
  }

  /** Once the p-th operation has taken effect, and nothing behind it has, it decides the value. */
  lemma {:induction false} ValueDecided(initial: map<KeyHash, Blob>, order: seq<Op>, fate: map<nat, Fate>,
                                        p: nat, n: nat, end: Fate)
    requires p < n <= |order| && Fifo(order, fate) && Distinct(order)
    requires order[p].id !in fate
    ensures var key := order[p].key;
            var before := ValueAt(initial, order, fate, key, p);
            ValueAt(initial, order, fate[order[p].id := end], key, n)
            == if Effective(end) then Apply(order[p].operation, before).0 else before
  {
    var fate' := fate[order[p].id := end];
    if n == p + 1 {
      assert forall q :: 0 <= q < p ==> order[q].id != order[p].id;
      ValueSame(initial, order, fate, order, fate', order[p].key, p);
    } else {
      assert order[n - 1].key == order[p].key ==> order[n - 1].id !in fate;
      assert order[n - 1].id != order[p].id;
      ValueDecided(initial, order, fate, p, n - 1, end);
    }
  }

  lemma EndReplayedKey(s: System, p: nat, end: Fate, key: KeyHash, n: nat)
    requires p < |s.c.order| && n <= |s.c.order| && Distinct(s.c.order)
    requires key != s.c.order[p].key || n <= p
    ensures ValueAt(s.initial, s.c.order, s.c.fate[s.c.order[p].id := end], key, n)
         == ValueAt(s.initial, s.c.order, s.c.fate, key, n)
  {
    var order := s.c.order;
    forall q | 0 <= q < n && order[q].key == key
      ensures order[q].id != order[p].id
    {
      assert q != p;
      assert q < p ==> order[q].id != order[p].id;
      assert p < q ==> order[p].id != order[q].id;
    }
    ValueSame(s.initial, order, s.c.fate, order, s.c.fate[order[p].id := end], key, n);
  }

  /** Ending the operation that a worker runs keeps the disk equal to the sequential replay. */
  lemma EndReplayed(s: System, p: nat, end: Fate, disk: map<KeyHash, Blob>)
    requires Replayed(s.initial, s.disk, s.c.order, s.c.fate)
    requires p < |s.c.order| && s.c.order[p].id !in s.c.fate && Distinct(s.c.order)
    requires Fifo(s.c.order, s.c.fate) && Fifo(s.c.order, s.c.fate[s.c.order[p].id := end])
    requires disk == if Effective(end)
                     then Put(s.disk, s.c.order[p].key, Apply(s.c.order[p].operation, Get(s.disk, s.c.order[p].key)).0)
                     else s.disk
    requires end.Took? ==> end.result == Apply(s.c.order[p].operation, Get(s.disk, s.c.order[p].key)).1
    requires end.Faulted? ==> IsFault(s.c.order[p].operation, end.result)
    ensures Replayed(s.initial, disk, s.c.order, s.c.fate[s.c.order[p].id := end])
  {
    var order := s.c.order;
    var op := order[p];
    var fate := s.c.fate[op.id := end];
    var n := |order|;
    ValueAfter(s.initial, order, s.c.fate, p, n);
    assert Get(s.disk, op.key) == ValueAt(s.initial, order, s.c.fate, op.key, n);
    forall key: KeyHash
      ensures Get(disk, key) == ValueAt(s.initial, order, fate, key, n)
    {
      if key == op.key {
        ValueDecided(s.initial, order, s.c.fate, p, n, end);
      } else {
        EndReplayedKey(s, p, end, key, n);
        assert Get(s.disk, key) == ValueAt(s.initial, order, s.c.fate, key, n);
      }
    }
    forall i | 0 <= i < n
      ensures Sequential(s.initial, order, fate, i)
    {
      EndSequential(s, p, end, i);
    }
  }

  lemma EndSequential(s: System, p: nat, end: Fate, i: nat)
    requires Replayed(s.initial, s.disk, s.c.order, s.c.fate)
    requires p < |s.c.order| && i < |s.c.order| && s.c.order[p].id !in s.c.fate && Distinct(s.c.order)
    requires Fifo(s.c.order, s.c.fate)
    requires end.Took? ==>
      end.result == Apply(s.c.order[p].operation, ValueAt(s.initial, s.c.order, s.c.fate, s.c.order[p].key, p)).1
    requires end.Faulted? ==> IsFault(s.c.order[p].operation, end.result)
    ensures Sequential(s.initial, s.c.order, s.c.fate[s.c.order[p].id := end], i)
  {
    var order := s.c.order;
    assert Sequential(s.initial, order, s.c.fate, i);
    if i <= p || order[i].key != order[p].key {
      EndReplayedKey(s, p, end, order[i].key, i);
      if i != p {
        assert i < p ==> order[i].id != order[p].id;
        assert p < i ==> order[p].id != order[i].id;
      }
    } else {
      assert order[p].id != order[i].id;
      assert order[i].id !in s.c.fate;
    }
  }

  lemma RunReplayed(s: System, i: nat, end: Fate, disk: map<KeyHash, Blob>)
    requires Core(s.c, None) && Replayed(s.initial, s.disk, s.c.order, s.c.fate)
    requires ValidJob(s, i) && s.c.jobs[i].Fresh?
    requires var op := s.c.jobs[i].op;
             && disk == (if Effective(end) then Put(s.disk, op.key, Apply(op.operation, Get(s.disk, op.key)).0)
                         else s.disk)
             && (end.Took? ==> end.result == Apply(op.operation, Get(s.disk, op.key)).1)
             && (end.Faulted? ==> IsFault(op.operation, end.result))
    ensures Replayed(s.initial, disk, s.c.order, s.c.fate[s.c.jobs[i].op.id := end])
  {
    hide Tokens, Lines, Known, AllRunnable, Backlog, BarriersHeld, InFlight, Answered, Settled, Replayed, Fifo,
      Distinct;
    RunningSettles(s.c, i, end);
    var p :| 0 <= p < |s.c.order| && s.c.order[p] == s.c.jobs[i].op;
    EndReplayed(s, p, end, disk);
  }

  lemma StorageIsFault(operation: Operation, code: nat)
    ensures IsFault(operation, ErrorResult(operation, StorageFailure(code)))
  {
  }

  /** A worker that runs an operation changes its key as the sequential replay does. */
  lemma RunInv(env: Env, s: System, i: nat, fault: Fault)
    requires Inv(env, s) && ValidJob(s, i) && s.c.jobs[i].Fresh?
    ensures Inv(env, RunJob(s, i, fault))
  {
    hide Core, Shape, Awake, Replayed, Accounted, Admitted, Apply, Verdicts, Effective, IsFault;
    var op := s.c.jobs[i].op;
    FreshRunnable(s.c, i);
    var end := Decide(op.operation, Get(s.disk, op.key), fault);
    var job := Finished(Spent(op), end.result);
    SpentMatches(op, end.result);
    if fault.Before? || fault.After? {
      StorageIsFault(op.operation, fault.code);
    }
    RunCore(s.c, i, end, Spent(op), end.result);
    RunReplayed(s, i, end, RunJob(s, i, fault).disk);
    JobsTokens(s.c);
    EndTokens(s.c, i, job);
    EndShape(env, s.c, i, job, s.c.fate[op.id := end]);
    EndCounts(s, i, job, s.c.fate[op.id := end]);
    var t := RunJob(s, i, fault);
    assert t.c == s.c.(jobs := s.c.jobs[i := job], fate := s.c.fate[op.id := end]);
    assert Steady(env, t.c);
    assert Accounted(t) && Admitted(t) by {
      CountsFrame(s.(c := t.c), t.disk);
      assert t == s.(c := t.c, disk := t.disk);
    }
  }

  lemma CountsFrame(s: System, disk: map<KeyHash, Blob>)
    requires Accounted(s) && Admitted(s)
    ensures Accounted(s.(disk := disk)) && Admitted(s.(disk := disk))
  {
  }

  lemma SpentMatches(op: Op, result: BlockingResult)
    ensures Matches(Spent(op).operation, result) == Matches(op.operation, result)
  {
  }

  lemma JobsTokens(c: Coord)
    requires Core(c, None)
    ensures Tokens(c.jobs, c.channel, c.active, c.maintenanceActive)
  {
  }

  lemma FreshRunnable(c: Coord, i: nat)
    requires Core(c, None) && i < |c.jobs| && c.jobs[i].Fresh?
    ensures Runnable(c.jobs[i].op.operation)
  {
    hide Tokens, Lines, Fifo, Distinct, Known, Backlog, BarriersHeld, InFlight, Answered, Settled;
  }

  lemma EndCounts(s: System, i: nat, job: Job, fate: map<nat, Fate>)
    requires Accounted(s) && Admitted(s) && ValidJob(s, i) && JobIds()(job) == JobIds()(s.c.jobs[i])
    ensures var t := s.(c := s.c.(jobs := s.c.jobs[i := job], fate := fate)); Accounted(t) && Admitted(t)
  {
    hide QueueIds;
    EndEndpoints(s.c, i, job);
    Cancel(Endpoints(s.c.(jobs := s.c.jobs[i := job])), Endpoints(s.c), JobIds()(job));
  }

  // ---- Panicking --------------------------------------------------------------------------

  lemma UnwindCore(c: Coord, i: nat, applied: bool)
    requires Core(c, None) && i < |c.jobs| && c.jobs[i].Fresh?
    ensures var op := c.jobs[i].op;
            Core(Respond(c, OpReply(op, Dropped)).(
                   jobs := c.jobs[i := Crashed(op.key)], fate := c.fate[op.id := Unwound(applied)]),
                 None)
  {
    hide Tokens, Lines, Fifo, Distinct, Known, AllRunnable, Backlog, BarriersHeld, InFlight, Answered, Settled;
    var op := c.jobs[i].op;
    RunningSettles(c, i, Unwound(applied));
    EndTokens(c, i, Crashed(op.key));
    EndLines(c, i, Crashed(op.key), Unwound(applied));
    EndRunnable(c, i, Crashed(op.key));
    SettleAndAnswer(c, op, Unwound(applied), None);
    CrashResults(c, i, c.fate[op.id := Unwound(applied)], c.replies + [OpReply(op, Dropped)]);
  }

  lemma CrashResults(c: Coord, i: nat, fate: map<nat, Fate>, replies: seq<Reply>)
    requires i < |c.jobs| && c.jobs[i].Fresh?
    requires InFlight(fate, c.jobs, c.channel, None) && Settled(c.order, fate, replies, c.jobs, c.channel, None)
    ensures InFlight(fate, c.jobs[i := Crashed(c.jobs[i].op.key)], c.channel, None)
    ensures Settled(c.order, fate, replies, c.jobs[i := Crashed(c.jobs[i].op.key)], c.channel, None)
  {
    TallyUpdate(FinishedIds(), c.jobs, i, Crashed(c.jobs[i].op.key));
    Cancel(Tally(FinishedIds(), c.jobs[i := Crashed(c.jobs[i].op.key)]), Tally(FinishedIds(), c.jobs), multiset{});
  }

  lemma UnwindCounts(s: System, i: nat, applied: bool)
    requires Accounted(s) && Admitted(s) && ValidJob(s, i) && s.c.jobs[i].Fresh?
    ensures Accounted(Unwind(s, i, applied)) && Admitted(Unwind(s, i, applied))
  {
    hide QueueIds;
    var op := s.c.jobs[i].op;
    EndEndpoints(s.c, i, Crashed(op.key));
    TallyPush(ReplyIds(), s.c.replies, OpReply(op, Dropped));
    assert Endpoints(Unwind(s, i, applied).c)
        == Endpoints(s.c.(jobs := s.c.jobs[i := Crashed(op.key)])) + multiset{op.id};
  }

  lemma UnwindInv(env: Env, s: System, i: nat, applied: bool)
    requires Inv(env, s) && ValidJob(s, i) && s.c.jobs[i].Fresh?
    ensures Inv(env, Unwind(s, i, applied))
  {
    hide Core, Shape, Awake, Replayed, Accounted, Admitted, Apply, Verdicts, IsFault, FlatMap;
    var op := s.c.jobs[i].op;
    UnwindCore(s.c, i, applied);
    RunReplayed(s, i, Unwound(applied), Unwind(s, i, applied).disk);
    UnwindCounts(s, i, applied);
    JobsTokens(s.c);
    EndTokens(s.c, i, Crashed(op.key));
    EndShape(env, s.c, i, Crashed(op.key), s.c.fate[op.id := Unwound(applied)]);
    var d := s.c.(jobs := s.c.jobs[i := Crashed(op.key)], fate := s.c.fate[op.id := Unwound(applied)]);
    ResolveShape(env, d, OpReply(op, Dropped));
    AppendVerdicts(s.c.lifecycle, s.c.replies, OpReply(op, Dropped));
    assert Unwind(s, i, applied).c == Respond(d, OpReply(op, Dropped));
  }
}
