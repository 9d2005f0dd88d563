/** Every step of callers, coordinator and workers keeps the system invariant. */
module SystemProofs {
  import opened Collections
  import opened EngineTypes
  import opened Workers
  import opened Coordinator
  import opened EngineInvariants
  import opened DispatchProofs
  import opened AdvanceProofs
  import opened EventProofs
  import opened HandleProofs
  import opened StepProofs
  import opened EngineSystem

  /** Every endpoint handed out so far is in exactly one place. */
  ghost predicate Accounted(s: System) {
    Endpoints(s.c) == Upto(s.nextId)
  }

  /** No operation is received twice. */
  ghost predicate Admitted(s: System) {
    Tally(IdOf(), s.c.order) + Tally(SubmissionIds(), s.c.channel) <= Upto(s.nextId)
  }

  ghost predicate Inv(env: Env, s: System) {
    && Steady(env, s.c)
    && Accounted(s)
    && Admitted(s)
    && Replayed(s.initial, s.disk, s.c.order, s.c.fate)
  }

  lemma OpenedCore(disk: map<KeyHash, Blob>)
    ensures Core(Opened(disk).c, None) && Endpoints(Opened(disk).c) == multiset{}
  {
  }

  lemma OpenedShape(env: Env, disk: map<KeyHash, Blob>)
    requires ValidEnv(env)
    ensures Shape(env, Opened(disk).c) && Awake(Opened(disk).c)
  {
  }

  lemma OpenedReplayed(disk: map<KeyHash, Blob>)
    ensures Replayed(disk, disk, [], map[])
  {
  }

  lemma OpenedInv(env: Env, disk: map<KeyHash, Blob>)
    requires ValidEnv(env)
    ensures Inv(env, Opened(disk))
  {
    hide Core, Shape, Awake, Endpoints, Replayed;
    var s := Opened(disk);
    assert Tally(IdOf(), s.c.order) == multiset{} && Tally(SubmissionIds(), s.c.channel) == multiset{};
    OpenedCore(disk);
    OpenedShape(env, disk);
    assert Replayed(s.initial, s.disk, s.c.order, s.c.fate) by {
      OpenedReplayed(disk);
    }
  }

  // ---- Freshness of what is still in the channel --------------------------------------

  lemma {:induction false} IdsTally(order: seq<Op>, id: nat)
    ensures id in Ids(order) <==> id in Tally(IdOf(), order)
  {
    if order != [] {
      IdsTally(order[1..], id);
      if id in Ids(order[1..]) {
        var i :| 0 <= i < |order[1..]| && order[1..][i].id == id;
        assert order[i + 1].id == id;
      }
      if id in Ids(order) {
        var i :| 0 <= i < |order| && order[i].id == id;
        assert i > 0 ==> order[1..][i - 1].id == id;
      }
      assert order[0].id in Ids(order);
    }
  }

  lemma {:induction false} OpRepliesAmongReplies(replies: seq<Reply>)
    ensures Tally(OpReplyIds(), replies) <= Tally(ReplyIds(), replies)
  {
    if replies != [] {
      OpRepliesAmongReplies(replies[1..]);
    }
  }

  lemma AdmittedFresh(s: System)
    requires Admitted(s)
    ensures ChannelFresh(s.c)
  {
    forall i | 0 <= i < |s.c.channel| && s.c.channel[i].Submission?
      ensures s.c.channel[i].op.id !in Ids(s.c.order)
    {
      var id := s.c.channel[i].op.id;
      TallySplit(SubmissionIds(), s.c.channel, i);
      IdsTally(s.c.order, id);
      var all := Tally(IdOf(), s.c.order) + Tally(SubmissionIds(), s.c.channel);
      assert all[id] <= Upto(s.nextId)[id];
    }
  }

  lemma HeadUnused(s: System)
    requires Accounted(s) && Admitted(s) && s.c.channel != [] && s.c.channel[0].Submission?
    ensures Unused(s.c, s.c.channel[0].op)
  {
    hide QueueIds;
    var id := s.c.channel[0].op.id;
    AdmittedFresh(s);
    OpRepliesAmongReplies(s.c.replies);
    TallyPop(EventIds(), s.c.channel);
    assert Endpoints(s.c)[id] == Upto(s.nextId)[id];
  }

  // ---- The coordinator's step -----------------------------------------------------------

  lemma ShrinkTally(channel: seq<Event>, channel': seq<Event>)
    requires ChannelShrinks(channel, channel')
    ensures Tally(SubmissionIds(), channel') <= Tally(SubmissionIds(), channel)
  {
    TallyPush(SubmissionIds(), channel, MaintenanceCompletion(None));
  }

  lemma CoordinateAdmitted(env: Env, s: System)
    requires Admitted(s) && s.c.channel != []
    requires ValidEnv(env)
    requires Handle(env, s.c).order
         == s.c.order + if s.c.channel[0].Submission? && s.c.lifecycle == Open then [s.c.channel[0].op] else []
    requires ChannelShrinks(s.c.channel[1..], Handle(env, s.c).channel)
    ensures Admitted(s.(c := Handle(env, s.c)))
  {
    hide Handle;
    ShrinkTally(s.c.channel[1..], Handle(env, s.c).channel);
    TallyPop(SubmissionIds(), s.c.channel);
    var c := Handle(env, s.c);
    if s.c.channel[0].Submission? && s.c.lifecycle == Open {
      TallyPush(IdOf(), s.c.order, s.c.channel[0].op);
      assert SubmissionIds()(s.c.channel[0]) == IdOf()(s.c.channel[0].op);
    } else {
      assert c.order == s.c.order;
    }
    assert Tally(IdOf(), c.order) + Tally(SubmissionIds(), c.channel)
        <= Tally(IdOf(), s.c.order) + Tally(SubmissionIds(), s.c.channel);
  }

  lemma {:induction false} ValueSame(initial: map<KeyHash, Blob>, order: seq<Op>, fate: map<nat, Fate>,
                                     order': seq<Op>, fate': map<nat, Fate>, key: KeyHash, n: nat)
    requires n <= |order| <= |order'| && order'[..n] == order[..n]
    requires forall i :: 0 <= i < n && order[i].key == key ==>
               ((order[i].id in fate && Effective(fate[order[i].id]))
                <==> (order[i].id in fate' && Effective(fate'[order[i].id])))
    ensures ValueAt(initial, order', fate', key, n) == ValueAt(initial, order, fate, key, n)
  {
    if n > 0 {
      assert order'[n - 1] == order[n - 1] by { assert order'[..n][n - 1] == order[..n][n - 1]; }
      assert order'[..n - 1] == order[..n - 1] by {
        assert order'[..n - 1] == order'[..n][..n - 1] && order[..n - 1] == order[..n][..n - 1];
      }
      ValueSame(initial, order, fate, order', fate', key, n - 1);
    }
  }

  /** Refusals and arrivals do not change what the replay says. */
  lemma RefusalsReplayed(s: System, order: seq<Op>, fate: map<nat, Fate>)
    requires Replayed(s.initial, s.disk, s.c.order, s.c.fate) && OnlyRefusals(s.c.fate, fate)
    requires Known(s.c.order, s.c.fate)
    requires order == s.c.order || exists op :: order == s.c.order + [op] && op.id !in s.c.fate
    ensures Replayed(s.initial, s.disk, order, fate)
  {
    var n := |s.c.order|;
    assert order[..n] == s.c.order;
    forall key: KeyHash
      ensures Get(s.disk, key) == ValueAt(s.initial, order, fate, key, |order|)
    {
      ValueSame(s.initial, s.c.order, s.c.fate, order, fate, key, n);
    }
    forall i | 0 <= i < |order|
      ensures Sequential(s.initial, order, fate, i)
    {
      if i < n {
        assert order[i] == s.c.order[i] && Sequential(s.initial, s.c.order, s.c.fate, i);
        assert order[..i] == s.c.order[..i];
        ValueSame(s.initial, s.c.order, s.c.fate, order, fate, order[i].key, i);
      }
    }
  }

  lemma CoreKnown(c: Coord, hand: Hand)
    requires Core(c, hand)
    ensures Known(c.order, c.fate) && Distinct(c.order)
  {
  }

  lemma CoordinateInv(env: Env, s: System)
    requires ValidEnv(env) && Inv(env, s) && Enabled(s, Coordinate)
    ensures Inv(env, Next(env, s, Coordinate))
  {
    hide Core, Shape, Awake, Handle, Endpoints, Unused, ChannelFresh, Replayed, OnlyRefusals, Admitted, Drained,
      Verdicts, Known, Ids;
    AdmittedFresh(s);
    if s.c.channel[0].Submission? {
      HeadUnused(s);
      UnusedUnknown(s.c, s.c.channel[0].op);
    }
    HandleSteady(env, s.c);
    CoordinateAdmitted(env, s);
    CoreKnown(s.c, None);
    RefusalsReplayed(s, Handle(env, s.c).order, Handle(env, s.c).fate);
  }

  lemma UnusedUnknown(c: Coord, op: Op)
    requires Core(c, None) && Unused(c, op)
    ensures op.id !in c.fate
  {
  }

  // ---- Callers' steps ----------------------------------------------------------------------

  lemma PushEventTokens(c: Coord, event: Event)
    requires Tokens(c.jobs, c.channel, c.active, c.maintenanceActive)
    requires !event.Completion? && !event.MaintenanceCompletion?
    ensures Tokens(c.jobs, c.channel + [event], c.active, c.maintenanceActive)
  {
    forall key: KeyHash
      ensures FlatMap(CompletionFor(key), c.channel + [event]) == FlatMap(CompletionFor(key), c.channel)
    {
      FlatMapPush(CompletionFor(key), c.channel, event);
    }
    FlatMapPush(MaintenanceDone(), c.channel, event);
  }

  lemma PushEventResults(c: Coord, event: Event)
    requires InFlight(c.fate, c.jobs, c.channel, None) && Settled(c.order, c.fate, c.replies, c.jobs, c.channel, None)
    requires !event.Completion?
    ensures InFlight(c.fate, c.jobs, c.channel + [event], None)
    ensures Settled(c.order, c.fate, c.replies, c.jobs, c.channel + [event], None)
  {
    TallyPush(CompletedIds(), c.channel, event);
  }

  lemma PushEventRunnable(c: Coord, event: Event)
    requires AllRunnable(c.queues, c.pending, c.channel, c.jobs)
    requires event.Submission? ==> Runnable(event.op.operation)
    ensures AllRunnable(c.queues, c.pending, c.channel + [event], c.jobs)
  {
  }

  lemma PushEventCore(c: Coord, event: Event)
    requires Core(c, None)
    requires !event.Completion? && !event.MaintenanceCompletion?
    requires event.Submission? ==> Runnable(event.op.operation)
    ensures Core(c.(channel := c.channel + [event]), None)
  {
    hide Tokens, Lines, Fifo, Distinct, Known, AllRunnable, Backlog, BarriersHeld, InFlight, Answered, Settled;
    PushEventTokens(c, event);
    PushEventResults(c, event);
    PushEventRunnable(c, event);
  }

  lemma SendCounts(s: System, event: Event)
    requires Accounted(s) && Admitted(s) && EventIds()(event) == multiset{s.nextId}
    ensures Accounted(Send(s, event)) && Admitted(Send(s, event))
  {
    hide QueueIds;
    TallyPush(EventIds(), s.c.channel, event);
    TallyPush(SubmissionIds(), s.c.channel, event);
    SubmissionAmongIds(event);
  }

  lemma SendInv(env: Env, s: System, event: Event)
    requires Inv(env, s) && s.c.running
    requires !event.Completion? && !event.MaintenanceCompletion? && EventIds()(event) == multiset{s.nextId}
    requires event.Submission? ==> Runnable(event.op.operation)
    ensures Inv(env, Send(s, event))
  {
    hide Core, Shape, Awake, Accounted, Admitted, Replayed, Verdicts, EventIds;
    PushEventCore(s.c, event);
    PushEventShape(env, s.c, event);
    SendCounts(s, event);
  }

  lemma SubmissionAmongIds(event: Event)
    ensures SubmissionIds()(event) <= EventIds()(event)
  {
  }

  lemma PushEventShape(env: Env, c: Coord, event: Event)
    requires Shape(env, c) && Awake(c)
    ensures Shape(env, c.(channel := c.channel + [event])) && Awake(c.(channel := c.channel + [event]))
  {
  }

  lemma RejectInv(env: Env, s: System, op: Op, error: Error)
    requires Inv(env, s) && op.id == s.nextId
    ensures Inv(env, Resolve(s, OpReply(op, Rejected(error))))
  {
    hide Core, Shape, Awake, Accounted, Admitted, Replayed, Ids, Tally, Endpoints;
    NextUnused(s, op);
    RejectCore(s.c, op, error);
    ResolveShape(env, s.c, OpReply(op, Rejected(error)));
    ResolveCounts(s, OpReply(op, Rejected(error)));
  }

  lemma AcknowledgeInv(env: Env, s: System, reply: Reply)
    requires Inv(env, s) && !reply.OpReply? && ReplyIds()(reply) == multiset{s.nextId}
    requires reply.CloseReply? ==> Verdicts(s.c.lifecycle, [reply])
    ensures Inv(env, Resolve(s, reply))
  {
    hide Core, Shape, Awake, Accounted, Admitted, Replayed, ReplyIds, Tally, Endpoints;
    AcknowledgeCore(s.c, reply);
    ResolveShape(env, s.c, reply);
    ResolveCounts(s, reply);
    AppendVerdicts(s.c.lifecycle, s.c.replies, reply);
  }

  lemma AppendVerdicts(lifecycle: Lifecycle, replies: seq<Reply>, reply: Reply)
    requires Verdicts(lifecycle, replies) && (reply.CloseReply? ==> Verdicts(lifecycle, [reply]))
    ensures Verdicts(lifecycle, replies + [reply])
  {
    assert [reply][0] == reply;
  }

  lemma ResolveCounts(s: System, reply: Reply)
    requires Accounted(s) && Admitted(s) && ReplyIds()(reply) == multiset{s.nextId}
    ensures Accounted(Resolve(s, reply)) && Admitted(Resolve(s, reply))
  {
    hide QueueIds;
    TallyPush(ReplyIds(), s.c.replies, reply);
  }

  lemma ResolveShape(env: Env, c: Coord, reply: Reply)
    ensures Shape(env, c) ==> Shape(env, Respond(c, reply))
    ensures Awake(c) ==> Awake(Respond(c, reply))
  {
  }

  lemma NextUnused(s: System, op: Op)
    requires Admitted(s) && op.id == s.nextId
    ensures op.id !in Ids(s.c.order)
  {
    IdsTally(s.c.order, op.id);
    var all := Tally(IdOf(), s.c.order) + Tally(SubmissionIds(), s.c.channel);
    assert all[op.id] <= Upto(s.nextId)[op.id];
  }

  lemma CallInv(env: Env, s: System, step: Step)
    requires ValidEnv(env) && Inv(env, s) && Enabled(s, step)
    requires step.Submit? || step.RequestMaintenance? || step.RequestFlush? || step.RequestClose?
    ensures Inv(env, Next(env, s, step))
  {
    hide Inv;
    RunningWhileOpen(env, s);
    match step
    case Submit(key, operation) =>
      if s.c.lifecycle == Open {
        SendInv(env, s, Submission(Op(s.nextId, key, operation)));
      } else {
        RejectInv(env, s, Op(s.nextId, key, operation), Refusal(s.c.lifecycle));
      }
    case RequestMaintenance =>
      if s.c.lifecycle == Open {
        SendInv(env, s, Maintenance(s.nextId));
      } else {
        AcknowledgeInv(env, s, MaintenanceReply(s.nextId, Some(Err(Refusal(s.c.lifecycle)))));
      }
    case RequestFlush =>
      if s.c.lifecycle == Open {
        SendInv(env, s, Flush(s.nextId));
      } else {
        AcknowledgeInv(env, s, FlushReply(s.nextId, Err(Refusal(s.c.lifecycle))));
      }
    case RequestClose =>
      if s.c.lifecycle == Open || s.c.lifecycle == Closing {
        SendInv(env, s, Close(s.nextId));
      } else {
        AcknowledgeInv(env, s, CloseReply(s.nextId, Verdict(s.c.lifecycle == Closed)));
      }
  }

  /** The lifecycle tells whether the coordinator still runs; it never fails without a panic. */
  lemma RunningWhileOpen(env: Env, s: System)
    requires Inv(env, s)
    ensures s.c.running <==> s.c.lifecycle == Open || s.c.lifecycle == Closing
    ensures s.c.lifecycle != Failed
  {
    hide Core;
  }

  lemma HandlesInv(env: Env, s: System, handles: nat)
    requires Inv(env, s)
    ensures Inv(env, s.(handles := handles))
  {
    hide Steady, Endpoints, Replayed;
  }
}
