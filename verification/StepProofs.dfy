/** Every event, from every steady state, leads to a steady state. */
module StepProofs {
  import opened Collections
  import opened EngineTypes
  import opened Workers
  import opened Coordinator
  import opened EngineInvariants
  import opened DispatchProofs
  import opened AdvanceProofs
  import opened EventProofs
  import opened HandleProofs

  /** What holds whenever the coordinator waits for the next event, or has stopped. */
  ghost predicate Steady(env: Env, c: Coord) {
    && Core(c, None)
    && Verdicts(c.lifecycle, c.replies)
    && (c.running ==> Shape(env, c) && Awake(c))
    && (!c.running ==> Drained(c) && (c.lifecycle == Closed || c.lifecycle == ShutdownFailed))
  }

  /** How one event changes the history: endpoints are conserved and only refusals are recorded. */
  ghost predicate Evolves(c: Coord, s: Coord) {
    && Endpoints(s) == Endpoints(c)
    && OnlyRefusals(c.fate, s.fate)
  }

  /** No submission is invented. */
  ghost predicate ChannelShrinks(channel: seq<Event>, channel': seq<Event>) {
    channel' == [] || channel' == channel || channel' == channel + [MaintenanceCompletion(None)]
  }

  lemma Unclosed(env: Env, c: Coord)
    requires Verdicts(c.lifecycle, c.replies) && ClosesLast(c)
    ensures NoCloses(c.replies)
  {
  }

  lemma StopSteady(env: Env, c: Coord)
    requires Core(c, None) && Shape(env, c) && ChannelFresh(c) && NoCloses(c.replies)
    requires c.running && (Awake(c) || MayStop(c))
    ensures var s := StopIfClosed(env, c);
            && Steady(env, s) && Endpoints(s) == Endpoints(c) && s.fate == c.fate && s.order == c.order
            && (s.channel == c.channel || s.channel == [])
  {
    hide Tokens, Lines, Fifo, Distinct, Known, AllRunnable, Backlog, BarriersHeld, InFlight, Answered, Settled,
      Capacity, Conserving, Endpoints, FlatMap;
    if MayStop(c) {
      StopDrains(env, c);
      StopCore(env, c);
      StopEndpoints(env, c);
      StopVerdicts(env, c);
    }
  }

  /** Replaying the deque and then stopping if a close is due. */
  lemma FinishSteady(env: Env, c: Coord)
    requires ValidEnv(env) && Core(c, None) && Shape(env, c) && ChannelFresh(c) && NoCloses(c.replies) && c.running
    ensures var s := StopIfClosed(env, Advance(env, c));
            && Steady(env, s) && Evolves(c, s) && s.order == c.order && ChannelShrinks(c.channel, s.channel)
  {
    hide Core, Shape, Endpoints, Advance, Awake, MayStop, StopIfClosed, Steady, OnlyRefusals;
    AdvanceCore(env, c);
    AdvanceShape(env, c);
    AdvanceFrame(env, c);
    StopSteady(env, Advance(env, c));
  }

  // ---- One lemma per event ---------------------------------------------------------

  lemma BegunFresh(c: Coord)
    requires ChannelFresh(c) && c.channel != []
    ensures ChannelFresh(Begun(c))
  {
  }

  lemma SubmissionAccepted(env: Env, c: Coord)
    requires ValidEnv(env) && Steady(env, c) && c.running && c.channel != [] && c.channel[0].Submission?
    requires Unused(c, c.channel[0].op) && c.lifecycle == Open
    ensures var s := Handle(env, c);
            && Steady(env, s) && Evolves(c, s) && s.order == c.order + [c.channel[0].op]
            && s.channel == c.channel[1..]
  {
    hide Core, Endpoints, Capacity, Conserving, Hygienic, DispatchIfIdle, DispatchAvailable, OnlyRefusals, FlatMap,
      Tally;
    var op := c.channel[0].op;
    var b := Begun(c);
    BegunCore(c);
    BegunEndpoints(c);
    assert AllRunnable(c.queues, c.pending, c.channel, c.jobs) by { CoreRunnable(c, None); }
    PopRunnable(c);
    CapacityBegun(env, c);
    OnlyRefusalsRefl(c.fate);
    if b.maintenanceActive || b.pending != [] {
      ParkCore(b, op);
      ParkShape(env, b, op);
    } else {
      ReceiveCore(b, op);
      var r := Received(b, op);
      var d := DispatchIfIdle(env, Enqueue(r, op), op.key);
      DispatchCore(env, Enqueue(r, op), op.key, None);
      AvailableCore(env, d, None);
      ReceivedCapacity(env, b, op);
      EnqueueDispatchShape(env, r, op);
      AvailableShape(env, d, {});
      DispatchFrame(env, Enqueue(r, op), op.key);
      AvailableFrame(env, d);
      Unclosed(env, c);
      OnlyRefusalsTrans(c.fate, d.fate, DispatchAvailable(env, d).fate);
    }
  }

  lemma CoreRunnable(c: Coord, hand: Hand)
    requires Core(c, hand)
    ensures AllRunnable(c.queues, c.pending, c.channel, c.jobs)
  {
  }

  lemma OnlyRefusalsRefl(fate: map<nat, Fate>)
    ensures OnlyRefusals(fate, fate)
  {
  }

  lemma OnlyRefusalsTrans(a: map<nat, Fate>, b: map<nat, Fate>, c: map<nat, Fate>)
    requires OnlyRefusals(a, b) && OnlyRefusals(b, c)
    ensures OnlyRefusals(a, c)
  {
  }

  lemma CapacityBegun(env: Env, c: Coord)
    requires Capacity(env, c) && c.channel != [] && !c.channel[0].Completion?
    ensures Capacity(env, Begun(c))
    ensures Conserving(env, c) ==> Conserving(env, Begun(c))
    ensures Hygienic(c, {}) ==> Hygienic(Begun(c), {})
  {
    hide FlatMap;
    assert Begun(c).active == c.active && Begun(c).queues == c.queues && Begun(c).jobs == c.jobs;
  }

  lemma ReceivedCapacity(env: Env, c: Coord, op: Op)
    ensures Capacity(env, c) ==> Capacity(env, Received(c, op))
    ensures Conserving(env, c) ==> Conserving(env, Received(c, op))
    ensures Hygienic(c, {}) ==> Hygienic(Received(c, op), {})
  {
  }

  /** A submission that must wait changes only the end of the deque. */
  lemma ParkShape(env: Env, c: Coord, op: Op)
    requires Shape(env, c) && Awake(c) && c.lifecycle == Open && (c.maintenanceActive || c.pending != [])
    ensures Shape(env, Parked(c, op)) && Awake(Parked(c, op))
  {
    var s := Parked(c, op);
    assert Capacity(env, s);
    assert ClosesLast(s) by {
      assert forall i :: 0 <= i < |c.pending| ==> !c.pending[i].PendingClose?;
    }
  }

  lemma SubmissionRejected(env: Env, c: Coord)
    requires ValidEnv(env) && Steady(env, c) && c.running && c.channel != [] && c.channel[0].Submission?
    requires Unused(c, c.channel[0].op) && c.lifecycle != Open
    ensures var s := Handle(env, c);
            Steady(env, s) && Evolves(c, s) && s.order == c.order && s.channel == c.channel[1..]
  {
    hide Core, Endpoints, Capacity, Conserving, Hygienic, OnlyRefusals, FlatMap, Tally;
    BegunCore(c);
    BegunEndpoints(c);
    CapacityBegun(env, c);
    OnlyRefusalsRefl(c.fate);
    RejectCore(Begun(c), c.channel[0].op, StoreClosed);
    RespondCapacity(env, Begun(c), OpReply(c.channel[0].op, Rejected(StoreClosed)));
  }

  lemma RespondCapacity(env: Env, c: Coord, reply: Reply)
    ensures Capacity(env, c) ==> Capacity(env, Respond(c, reply))
    ensures Conserving(env, c) ==> Conserving(env, Respond(c, reply))
    ensures Hygienic(c, {}) ==> Hygienic(Respond(c, reply), {})
  {
  }

  lemma CompletionSteady(env: Env, c: Coord)
    requires ValidEnv(env) && Steady(env, c) && c.running && c.channel != [] && c.channel[0].Completion?
    requires ChannelFresh(c)
    ensures var s := Handle(env, c);
            && Steady(env, s) && Evolves(c, s) && s.order == c.order && ChannelShrinks(c.channel[1..], s.channel)
  {
    hide Core, Endpoints, Capacity, Conserving, Hygienic, Release, Advance, StopIfClosed, OnlyRefusals, FlatMap,
      Exclusive, Awake;
    var key := c.channel[0].key;
    BegunEndpoints(c);
    ReleaseCore(env, c);
    CompletionActive(c);
    PoppedShape(env, c);
    ReleaseShape(env, Popped(c), key);
    ReleaseFrame(env, Popped(c), key);
    Unclosed(env, c);
    var r := Release(env, Popped(c), key);
    match c.channel[0].outcome {
      case Some(pair) =>
        DeliverCore(r, pair.0, pair.1);
        RespondShape(env, r, OpReply(pair.0, Delivered(pair.1)));
        var d := Respond(r, OpReply(pair.0, Delivered(pair.1)));
        FinishSteady(env, d);
        OnlyRefusalsTrans(c.fate, r.fate, StopIfClosed(env, Advance(env, d)).fate);
      case None =>
        FinishSteady(env, r);
        OnlyRefusalsTrans(c.fate, r.fate, StopIfClosed(env, Advance(env, r)).fate);
    }
  }

  lemma CompletionActive(c: Coord)
    requires Core(c, None) && c.channel != [] && c.channel[0].Completion?
    ensures c.channel[0].key in c.active
  {
    PopTokens(c);
  }

  lemma PoppedShape(env: Env, c: Coord)
    requires Shape(env, c) && c.channel != []
    ensures Shape(env, Popped(c))
  {
  }

  lemma RespondShape(env: Env, c: Coord, reply: Reply)
    requires Shape(env, c)
    ensures Shape(env, Respond(c, reply))
  {
  }

  lemma ReleaseFrame(env: Env, c: Coord, key: KeyHash)
    requires ValidEnv(env)
    ensures var s := Release(env, c, key);
            && s.order == c.order && s.channel == c.channel && s.lifecycle == c.lifecycle
            && (NoCloses(c.replies) ==> NoCloses(s.replies))
  {
    hide DispatchIfIdle, DispatchAvailable;
    var b := c.(active := c.active - {key});
    DispatchFrame(env, b, key);
    AvailableFrame(env, DispatchIfIdle(env, b, key));
  }

  lemma MaintenanceCompletionSteady(env: Env, c: Coord)
    requires ValidEnv(env) && Steady(env, c) && c.running && c.channel != [] && c.channel[0].MaintenanceCompletion?
    requires ChannelFresh(c)
    ensures var s := Handle(env, c);
            && Steady(env, s) && Evolves(c, s) && s.order == c.order && ChannelShrinks(c.channel[1..], s.channel)
  {
    hide Core, Endpoints, Capacity, Conserving, Hygienic, Advance, StopIfClosed, OnlyRefusals, FlatMap, Awake, Tally;
    BegunCore(c);
    BegunEndpoints(c);
    CapacityBegun(env, c);
    Unclosed(env, c);
    var b := Begun(c);
    assert Shape(env, b);
    match c.channel[0].report {
      case Some(pair) =>
        var reply := MaintenanceReply(pair.0, Some(pair.1));
        AcknowledgeCore(b, reply);
        RespondShape(env, b, reply);
        FinishSteady(env, Respond(b, reply));
      case None =>
        FinishSteady(env, b);
    }
  }

  lemma MaintenanceSteady(env: Env, c: Coord)
    requires ValidEnv(env) && Steady(env, c) && c.running && c.channel != [] && c.channel[0].Maintenance?
    requires ChannelFresh(c)
    ensures var s := Handle(env, c);
            && Steady(env, s) && Evolves(c, s) && s.order == c.order && ChannelShrinks(c.channel[1..], s.channel)
  {
    hide Core, Endpoints, Capacity, Conserving, Hygienic, Advance, StopIfClosed, OnlyRefusals, FlatMap, Tally;
    BegunCore(c);
    BegunEndpoints(c);
    CapacityBegun(env, c);
    Unclosed(env, c);
    OnlyRefusalsRefl(c.fate);
    var b := Begun(c);
    var id := c.channel[0].id;
    assert Shape(env, b);
    if c.lifecycle != Open {
      AcknowledgeCore(b, MaintenanceReply(id, Some(Err(StoreClosed))));
      RespondShape(env, b, MaintenanceReply(id, Some(Err(StoreClosed))));
    } else {
      BarredCore(b, PendingMaintenance(id, |c.order|));
      BarredShape(env, b, PendingMaintenance(id, |c.order|));
      FinishSteady(env, Barred(b, PendingMaintenance(id, |c.order|)));
    }
  }

  lemma FlushSteady(env: Env, c: Coord)
    requires ValidEnv(env) && Steady(env, c) && c.running && c.channel != [] && c.channel[0].Flush?
    requires ChannelFresh(c)
    ensures var s := Handle(env, c);
            && Steady(env, s) && Evolves(c, s) && s.order == c.order && ChannelShrinks(c.channel[1..], s.channel)
  {
    hide Core, Endpoints, Capacity, Conserving, Hygienic, Advance, StopIfClosed, OnlyRefusals, FlatMap, Tally;
    BegunCore(c);
    BegunEndpoints(c);
    CapacityBegun(env, c);
    Unclosed(env, c);
    OnlyRefusalsRefl(c.fate);
    var b := Begun(c);
    var id := c.channel[0].id;
    assert Shape(env, b);
    if c.lifecycle != Open {
      AcknowledgeCore(b, FlushReply(id, Err(StoreClosed)));
      RespondShape(env, b, FlushReply(id, Err(StoreClosed)));
    } else {
      BarredCore(b, PendingFlush(id, |c.order|));
      BarredShape(env, b, PendingFlush(id, |c.order|));
      FinishSteady(env, Barred(b, PendingFlush(id, |c.order|)));
    }
  }

  lemma CloseSteady(env: Env, c: Coord)
    requires ValidEnv(env) && Steady(env, c) && c.running && c.channel != [] && c.channel[0].Close?
    requires ChannelFresh(c)
    ensures var s := Handle(env, c);
            && Steady(env, s) && Evolves(c, s) && s.order == c.order && ChannelShrinks(c.channel[1..], s.channel)
  {
    hide Core, Endpoints, Capacity, Conserving, Hygienic, Advance, StopIfClosed, OnlyRefusals, FlatMap, Tally, Awake;
    BegunCore(c);
    BegunEndpoints(c);
    CapacityBegun(env, c);
    Unclosed(env, c);
    var b := Begun(c);
    var event := PendingClose(c.channel[0].id);
    assert Shape(env, b);
    BarredCore(b, event);
    BarredShape(env, b, event);
    ClosingCore(Barred(b, event));
    FinishSteady(env, Barred(b, event).(lifecycle := Closing));
  }

  lemma ClosingCore(c: Coord)
    requires Core(c, None)
    ensures Core(c.(lifecycle := Closing), None)
    ensures Endpoints(c.(lifecycle := Closing)) == Endpoints(c)
  {
  }

  /** Handling any event keeps the invariants, conserves endpoints and records only refusals; a submission
      joins the receive order exactly when the store is open. */
  lemma HandleSteady(env: Env, c: Coord)
    requires ValidEnv(env) && Steady(env, c) && c.running && c.channel != [] && ChannelFresh(c)
    requires c.channel[0].Submission? ==> Unused(c, c.channel[0].op)
    ensures Steady(env, Handle(env, c)) && Evolves(c, Handle(env, c))
    ensures Handle(env, c).order
         == c.order + if c.channel[0].Submission? && c.lifecycle == Open then [c.channel[0].op] else []
    ensures ChannelShrinks(c.channel[1..], Handle(env, c).channel)
  {
    hide Steady, Evolves, Handle, Unused, ChannelFresh;
    match c.channel[0]
    case Submission(op) =>
      if c.lifecycle == Open {
        SubmissionAccepted(env, c);
      } else {
        SubmissionRejected(env, c);
      }
    case Completion(_, _) => CompletionSteady(env, c);
    case Maintenance(_) => MaintenanceSteady(env, c);
    case MaintenanceCompletion(_) => MaintenanceCompletionSteady(env, c);
    case Flush(_) => FlushSteady(env, c);
    case Close(_) => CloseSteady(env, c);
  }
}
