/** Identifiers follow the receive order: what a barrier's mark means, without looking at the mark. */
module ReceiveOrder {
  import opened Collections
  import opened EngineTypes
  import opened Workers
  import opened Coordinator
  import opened EngineInvariants
  import opened DispatchProofs
  import opened AdvanceProofs
  import opened EventProofs
  import opened HandleProofs
  import opened StepProofs
  import opened EngineSystem
  import opened SystemProofs
  import opened PostProofs
  import opened EngineTheorems

  /** The identifier of a caller's request. */
  function RequestIds(): Event -> seq<nat> {
    (event: Event) =>
      match event
      case Submission(op) => [op.id]
      case Maintenance(id) => [id]
      case Flush(id) => [id]
      case Close(id) => [id]
      case _ => []
  }

  function Requests(channel: seq<Event>): seq<nat> {
    FlatMap(RequestIds(), channel)
  }

  /** A barrier and the number of submissions it was counted to have in front of it. */
  datatype Stamp = Stamp(id: nat, mark: nat)

  function PendingStamps(): PendingEvent -> seq<Stamp> {
    (event: PendingEvent) =>
      match event
      case PendingMaintenance(id, mark) => [Stamp(id, mark)]
      case PendingFlush(id, mark) => [Stamp(id, mark)]
      case _ => []
  }

  /** The barriers that wait in the deque, and those honoured so far. */
  ghost function Stamps(pending: seq<PendingEvent>, barriers: seq<Barrier>): set<Stamp> {
    (set stamp | stamp in FlatMap(PendingStamps(), pending)) +
    (set b | 0 <= b < |barriers| :: Stamp(barriers[b].id, barriers[b].mark))
  }

  ghost predicate Ascending(ids: seq<nat>) {
    forall i, j :: 0 <= i < j < |ids| ==> ids[i] < ids[j]
  }

  /** The mark counts exactly the accepted operations with a smaller identifier. */
  ghost predicate Right(order: seq<Op>, stamp: Stamp) {
    stamp.mark <= |order| && forall i :: 0 <= i < |order| ==> (i < stamp.mark <==> order[i].id < stamp.id)
  }

  /** Identifiers grow from what was received earlier to what waits in the channel, and stay below `next`. */
  ghost predicate InSequence(order: seq<Op>, requests: seq<nat>, stamps: set<Stamp>, next: nat) {
    && (forall i, j :: 0 <= i < j < |order| ==> order[i].id < order[j].id)
    && (forall i :: 0 <= i < |order| ==> order[i].id < next)
    && Ascending(requests)
    && (forall k :: 0 <= k < |requests| ==> requests[k] < next)
    && (forall i, k :: 0 <= i < |order| && 0 <= k < |requests| ==> order[i].id < requests[k])
    && (forall stamp :: stamp in stamps ==> Right(order, stamp) && stamp.id < next)
    && (forall stamp, k :: stamp in stamps && 0 <= k < |requests| ==> stamp.id < requests[k])
  }

  ghost predicate Sequenced(c: Coord, next: nat) {
    InSequence(c.order, Requests(c.channel), Stamps(c.pending, c.barriers), next)
  }

  // ---- How one step changes the sequence ----------------------------------------------------

  lemma FewerInSequence(order: seq<Op>, requests: seq<nat>, stamps: set<Stamp>, next: nat, requests': seq<nat>,
                        stamps': set<Stamp>, next': nat)
    requires InSequence(order, requests, stamps, next) && stamps' <= stamps && next <= next'
    requires requests' == requests || requests' == [] || (requests != [] && requests' == requests[1..])
    ensures InSequence(order, requests', stamps', next')
  {
    hide Right;
  }

  /** The next request is a submission that is accepted. */
  lemma AcceptInSequence(order: seq<Op>, op: Op, requests: seq<nat>, stamps: set<Stamp>, next: nat)
    requires InSequence(order, [op.id] + requests, stamps, next)
    ensures InSequence(order + [op], requests, stamps, next)
  {
    var ids := [op.id] + requests;
    assert forall k :: 0 <= k < |requests| ==> requests[k] == ids[k + 1];
    assert ids[0] == op.id;
  }

  /** The next request is a barrier that is accepted. */
  lemma StampInSequence(order: seq<Op>, id: nat, requests: seq<nat>, stamps: set<Stamp>, next: nat)
    requires InSequence(order, [id] + requests, stamps, next)
    ensures InSequence(order, requests, stamps + {Stamp(id, |order|)}, next)
  {
    var ids := [id] + requests;
    assert forall k :: 0 <= k < |requests| ==> requests[k] == ids[k + 1];
    assert ids[0] == id;
  }

  /** A new request gets the next identifier. */
  lemma RequestInSequence(order: seq<Op>, requests: seq<nat>, stamps: set<Stamp>, next: nat)
    requires InSequence(order, requests, stamps, next)
    ensures InSequence(order, requests + [next], stamps, next + 1)
  {
    hide Right;
  }

  // ---- The coordinator's step ---------------------------------------------------------------

  /** Only these fields, and which maintenance jobs there are, matter here. */
  predicate Apart(c: Coord, d: Coord) {
    && d.order == c.order && d.pending == c.pending && d.barriers == c.barriers && d.channel == c.channel
    && d.maintenanceActive == c.maintenanceActive
    && forall job :: job in d.jobs && job.Maintain? ==> job in c.jobs
  }

  lemma DispatchApart(env: Env, c: Coord, key: KeyHash)
    ensures Apart(c, DispatchIfIdle(env, c, key))
  {
  }

  lemma {:induction false} AvailableApart(env: Env, c: Coord)
    requires ValidEnv(env)
    ensures Apart(c, DispatchAvailable(env, c))
    decreases |QueueIds(c.queues)|
  {
    hide DispatchIfIdle, QueueIds;
    if |c.active| < env.limit && Ready(c) != {} {
      var key := env.choose(c.picks, Ready(c));
      var picked := c.(picks := c.picks + 1);
      DispatchShrinks(env, picked, key);
      DispatchApart(env, picked, key);
      AvailableApart(env, DispatchIfIdle(env, picked, key));
    }
  }

  lemma ReleaseApart(env: Env, c: Coord, key: KeyHash)
    requires ValidEnv(env)
    ensures Apart(c, Release(env, c, key))
  {
    hide DispatchIfIdle, DispatchAvailable;
    var freed := c.(active := c.active - {key});
    DispatchApart(env, freed, key);
    AvailableApart(env, DispatchIfIdle(env, freed, key));
  }

  lemma RestStamps(pending: seq<PendingEvent>, barriers: seq<Barrier>, n: nat)
    requires n <= |pending|
    ensures Stamps(pending[n..], barriers) <= Stamps(pending, barriers)
  {
    hide FlatMap;
    assert pending == pending[..n] + pending[n..];
    FlatMapAppend(PendingStamps(), pending[..n], pending[n..]);
  }

  /** A barrier that leaves the deque stays among the stamps if it is recorded. */
  lemma HonourStamps(c: Coord, id: nat, mark: nat)
    requires c.pending != [] && PendingStamps()(c.pending[0]) == [Stamp(id, mark)]
    ensures Stamps(c.pending[1..], Honour(c, id, mark).barriers) <= Stamps(c.pending, c.barriers)
  {
    hide FlatMap;
    FlatMapPop(PendingStamps(), c.pending);
  }

  lemma {:induction false} AdvanceStamps(env: Env, c: Coord)
    requires ValidEnv(env)
    ensures var d := Advance(env, c); Stamps(d.pending, d.barriers) <= Stamps(c.pending, c.barriers)
    decreases |c.pending|
  {
    hide DispatchIfIdle, Stamps, Busy;
    if !c.maintenanceActive && c.pending != [] {
      RestStamps(c.pending, c.barriers, 1);
      match c.pending[0]
      case PendingMaintenance(id, mark) =>
        HonourStamps(c, id, mark);
        HonourSame(c, Rest(c).(maintenanceActive := true), id, mark);
      case PendingSubmission(op) =>
        var queued := Enqueue(Rest(c), op);
        DispatchApart(env, queued, op.key);
        DispatchKeepsPending(env, queued, op.key);
        AdvanceStamps(env, DispatchIfIdle(env, queued, op.key));
      case PendingFlush(id, mark) =>
        if !Busy(c) {
          HonourStamps(c, id, mark);
          HonourSame(c, Rest(c), id, mark);
          AdvanceStamps(env, Respond(Honour(Rest(c), id, mark), FlushReply(id, Ok(()))));
        }
      case PendingClose(_) =>
    }
  }

  /** For its stamp, it does not matter from which state a barrier is recorded. */
  lemma HonourSame(c: Coord, d: Coord, id: nat, mark: nat)
    requires d.barriers == c.barriers
    ensures Stamps(d.pending, Honour(d, id, mark).barriers) == Stamps(d.pending, Honour(c, id, mark).barriers)
    ensures forall pool: Pool :: Honour(d.(pool := pool), id, mark).barriers == Honour(d, id, mark).barriers
  {
    hide FlatMap;
    var b, b' := Honour(c, id, mark).barriers, Honour(d, id, mark).barriers;
    assert forall i :: 0 <= i < |b| ==> b[i].id == b'[i].id && b[i].mark == b'[i].mark;
  }

  lemma {:induction false} ClosesStamps(pending: seq<PendingEvent>, barriers: seq<Barrier>)
    ensures Stamps(AfterCloses(pending), barriers) <= Stamps(pending, barriers)
  {
    hide Stamps;
    if pending != [] && pending[0].PendingClose? {
      ClosesStamps(pending[1..], barriers);
      RestStamps(pending, barriers, 1);
    }
  }

  lemma FinishStamps(env: Env, c: Coord)
    requires ValidEnv(env)
    ensures var d := StopIfClosed(env, Advance(env, c)); Stamps(d.pending, d.barriers) <= Stamps(c.pending, c.barriers)
  {
    hide Stamps, Advance;
    AdvanceStamps(env, c);
    var a := Advance(env, c);
    ClosesStamps(a.pending, a.barriers);
  }

  lemma PushStamps(pending: seq<PendingEvent>, barriers: seq<Barrier>, event: PendingEvent)
    ensures Stamps(pending + [event], barriers) ==
      Stamps(pending, barriers) + set stamp | stamp in PendingStamps()(event)
  {
    hide FlatMap;
    FlatMapPush(PendingStamps(), pending, event);
  }

  /** The stamp that the event at the head of the channel adds, if any. */
  ghost function NewStamps(c: Coord): set<Stamp>
    requires c.channel != []
  {
    if (c.channel[0].Flush? || c.channel[0].Maintenance?) && c.lifecycle == Open then
      {Stamp(c.channel[0].id, |c.order|)}
    else {}
  }

  lemma HandleStamps(env: Env, c: Coord)
    requires ValidEnv(env) && c.channel != []
    ensures var d := Handle(env, c); Stamps(d.pending, d.barriers) <= Stamps(c.pending, c.barriers) + NewStamps(c)
  {
    hide Stamps, Advance, Release, StopIfClosed, DispatchIfIdle, DispatchAvailable;
    var rest := c.(channel := c.channel[1..]);
    match c.channel[0]
    case Submission(op) =>
      SubmissionStamps(env, rest, op);
    case Completion(key, outcome) =>
      ReleaseApart(env, rest, key);
      var r := Release(env, rest, key);
      FinishStamps(env, if outcome.Some? then Respond(r, OpReply(outcome.value.0, Delivered(outcome.value.1))) else r);
    case Maintenance(id) =>
      var event := PendingMaintenance(id, |c.order|);
      PushStamps(c.pending, c.barriers, event);
      FinishStamps(env, rest.(pending := c.pending + [event]));
    case MaintenanceCompletion(report) =>
      var r := rest.(maintenanceActive := false);
      FinishStamps(env, if report.Some? then Respond(r, MaintenanceReply(report.value.0, Some(report.value.1))) else r);
    case Flush(id) =>
      var event := PendingFlush(id, |c.order|);
      PushStamps(c.pending, c.barriers, event);
      FinishStamps(env, rest.(pending := c.pending + [event]));
    case Close(id) =>
      PushStamps(c.pending, c.barriers, PendingClose(id));
      FinishStamps(env, rest.(lifecycle := Closing, pending := c.pending + [PendingClose(id)]));
      FinishStamps(env, Respond(rest, CloseReply(id, Ok(()))));
      FinishStamps(env, Respond(rest, CloseReply(id, Err(ShutdownFailure))));
  }

  lemma SubmissionStamps(env: Env, c: Coord, op: Op)
    requires ValidEnv(env)
    ensures var d := OnSubmission(env, c, op); Stamps(d.pending, d.barriers) <= Stamps(c.pending, c.barriers)
  {
    hide Stamps, DispatchIfIdle, DispatchAvailable;
    PushStamps(c.pending, c.barriers, PendingSubmission(op));
    var queued := Enqueue(c.(order := c.order + [op]), op);
    DispatchApart(env, queued, op.key);
    AvailableApart(env, DispatchIfIdle(env, queued, op.key));
    ClosesStamps(c.pending, c.barriers);
  }

  lemma ShrunkRequests(channel: seq<Event>, channel': seq<Event>)
    requires ChannelShrinks(channel, channel')
    ensures Requests(channel') == [] || Requests(channel') == Requests(channel)
  {
    FlatMapPush(RequestIds(), channel, MaintenanceCompletion(None));
  }

  lemma HandleSequenced(env: Env, c: Coord, next: nat)
    requires ValidEnv(env) && c.channel != [] && Sequenced(c, next)
    requires ChannelShrinks(c.channel[1..], Handle(env, c).channel)
    requires Handle(env, c).order
          == c.order + if c.channel[0].Submission? && c.lifecycle == Open then [c.channel[0].op] else []
    ensures Sequenced(Handle(env, c), next)
  {
    hide Handle, Stamps, FlatMap, InSequence, ChannelShrinks;
    var d := Handle(env, c);
    var requests, stamps := Requests(c.channel[1..]), Stamps(c.pending, c.barriers);
    HandleStamps(env, c);
    ShrunkRequests(c.channel[1..], d.channel);
    FlatMapPop(RequestIds(), c.channel);
    assert Requests(c.channel) == RequestIds()(c.channel[0]) + requests;
    if c.channel[0].Submission? && c.lifecycle == Open {
      assert stamps + NewStamps(c) == stamps;
      AcceptInSequence(c.order, c.channel[0].op, requests, stamps, next);
    } else if NewStamps(c) != {} {
      assert d.order == c.order;
      StampInSequence(c.order, c.channel[0].id, requests, stamps, next);
    } else {
      assert d.order == c.order;
      PopInSequence(c.order, RequestIds()(c.channel[0]), requests, stamps, next);
    }
    FewerInSequence(d.order, requests, stamps + NewStamps(c), next, Requests(d.channel),
                    Stamps(d.pending, d.barriers), next);
  }

  lemma PopInSequence(order: seq<Op>, first: seq<nat>, requests: seq<nat>, stamps: set<Stamp>, next: nat)
    requires |first| <= 1 && InSequence(order, first + requests, stamps, next)
    ensures InSequence(order, requests, stamps + {}, next)
  {
    hide InSequence;
    assert stamps + {} == stamps;
    if first == [] {
      assert first + requests == requests;
    } else {
      assert (first + requests)[1..] == requests;
      FewerInSequence(order, first + requests, stamps, next, requests, stamps, next);
    }
  }

  // ---- While maintenance runs, nothing moves ---------------------------------------------------

  predicate NoMaintain(jobs: seq<Job>) {
    forall i :: 0 <= i < |jobs| ==> !jobs[i].Maintain?
  }

  /** A maintenance job has its record, and nothing has left the deque since. */
  ghost predicate Held(c: Coord) {
    forall i :: 0 <= i < |c.jobs| && c.jobs[i].Maintain? ==>
      exists b :: 0 <= b < |c.barriers| && c.barriers[b].id == c.jobs[i].id && c.barriers[b].mark == Moved(c)
  }

  lemma NothingHeld(c: Coord)
    requires NoMaintain(c.jobs)
    ensures Held(c)
  {
  }

  lemma IdleNoMaintain(c: Coord, hand: Hand)
    requires Core(c, hand) && !c.maintenanceActive
    ensures NoMaintain(c.jobs)
  {
    hide FlatMap;
    assert FlatMap(MaintenanceJob(), c.jobs) == [];
    forall i | 0 <= i < |c.jobs| ensures !c.jobs[i].Maintain? {
      FlatMapSplit(MaintenanceJob(), c.jobs, i);
    }
  }

  lemma ApartHeld(c: Coord, d: Coord)
    requires Held(c) && d.barriers == c.barriers && Moved(d) == Moved(c)
    requires forall job :: job in d.jobs && job.Maintain? ==> job in c.jobs
    ensures Held(d)
  {
    hide Moved;
    forall i | 0 <= i < |d.jobs| && d.jobs[i].Maintain?
      ensures exists b :: 0 <= b < |d.barriers| && d.barriers[b].id == d.jobs[i].id && d.barriers[b].mark == Moved(d)
    {
      assert d.jobs[i] in c.jobs;
    }
  }

  lemma BeginHeld(env: Env, c: Coord)
    requires Core(c, None) && !c.maintenanceActive && c.pending != [] && c.pending[0].PendingMaintenance?
    ensures Held(BeginMaintenance(env, c))
  {
    IdleNoMaintain(c, None);
    hide Tokens, Lines, Fifo, Distinct, Known, AllRunnable, BarriersHeld, InFlight, Answered, Settled, FlatMap;
    var d := BeginMaintenance(env, c);
    assert MarkFits(c.pending[0], |c.order| - |FlatMap(SubmissionOf(), c.pending[1..])|);
    if d.jobs != c.jobs {
      assert d.barriers[|c.barriers|].id == c.pending[0].id;
    }
  }

  lemma {:induction false} AdvanceHeld(env: Env, c: Coord)
    requires ValidEnv(env) && Core(c, None) && (c.maintenanceActive ==> Held(c))
    ensures Held(Advance(env, c))
    decreases |c.pending|
  {
    hide Core, Endpoints, Held, NoMaintain, DispatchIfIdle, DispatchMaintenance, Busy, OnlyRefusals;
    if !c.maintenanceActive {
      IdleNoMaintain(c, None);
      NothingHeld(c);
    }
    if !c.maintenanceActive && c.pending != [] {
      match c.pending[0]
      case PendingMaintenance(id, mark) =>
        BeginHeld(env, c);
      case PendingSubmission(op) =>
        var s := Enqueue(Rest(c), op);
        UnparkCore(c, None);
        DispatchCore(env, s, op.key, None);
        DispatchKeepsPending(env, s, op.key);
        AdvanceHeld(env, DispatchIfIdle(env, s, op.key));
      case PendingFlush(id, mark) =>
        if !Busy(c) {
          FlushCore(c);
          AdvanceHeld(env, Respond(Honour(Rest(c), id, mark), FlushReply(id, Ok(()))));
        }
      case PendingClose(_) =>
    }
  }

  lemma FinishHeld(env: Env, c: Coord)
    requires ValidEnv(env) && Core(c, None) && (c.maintenanceActive ==> Held(c))
    ensures Held(StopIfClosed(env, Advance(env, c)))
  {
    hide Core, Advance, Held, Endpoints, OnlyRefusals, Moved;
    AdvanceCore(env, c);
    AdvanceHeld(env, c);
    var a := Advance(env, c);
    if MayStop(a) {
      IdleNoMaintain(a, None);
      NothingHeld(Stop(env, a));
    }
  }

  lemma BarredHeld(c: Coord, event: PendingEvent)
    requires Held(c) && !event.PendingSubmission?
    ensures Held(Barred(c, event))
  {
    hide FlatMap, Held;
    FlatMapPush(SubmissionOf(), c.pending, event);
    ApartHeld(c, Barred(c, event));
  }

  lemma ParkedHeld(c: Coord, op: Op)
    requires Held(c)
    ensures Held(Parked(c, op))
  {
    hide FlatMap, Held;
    FlatMapPush(SubmissionOf(), c.pending, PendingSubmission(op));
    ApartHeld(c, Parked(c, op));
  }

  lemma SubmissionHeld(env: Env, c: Coord)
    requires ValidEnv(env) && Core(c, None) && Held(c) && c.channel != [] && c.channel[0].Submission?
    ensures Held(Handle(env, c))
  {
    hide Core, Held, DispatchIfIdle, DispatchAvailable, Moved, NoMaintain;
    var op := c.channel[0].op;
    var b := Popped(c);
    MovedSame(c, b);
    ApartHeld(c, b);
    if c.lifecycle != Open {
      MovedSame(b, Handle(env, c));
      ApartHeld(b, Handle(env, c));
    } else if c.maintenanceActive || c.pending != [] {
      ParkedHeld(b, op);
    } else {
      IdleNoMaintain(c, None);
      var queued := Enqueue(Received(b, op), op);
      var d := DispatchIfIdle(env, queued, op.key);
      DispatchApart(env, queued, op.key);
      AvailableApart(env, d);
      MaintainNone(queued.jobs, DispatchAvailable(env, d).jobs);
      NothingHeld(DispatchAvailable(env, d));
    }
  }

  lemma MovedSame(c: Coord, d: Coord)
    requires d.order == c.order && d.pending == c.pending
    ensures Moved(d) == Moved(c)
  {
  }

  lemma MaintainNone(jobs: seq<Job>, jobs': seq<Job>)
    requires NoMaintain(jobs) && forall job :: job in jobs' && job.Maintain? ==> job in jobs
    ensures NoMaintain(jobs')
  {
  }

  lemma CompletionHeld(env: Env, c: Coord)
    requires ValidEnv(env) && Core(c, None) && Held(c) && c.channel != [] && c.channel[0].Completion?
    ensures Held(Handle(env, c))
  {
    hide Core, Held, Release, Advance, StopIfClosed, Moved, Endpoints, OnlyRefusals;
    var key := c.channel[0].key;
    var r := Release(env, Popped(c), key);
    ReleaseCore(env, c);
    ReleaseApart(env, Popped(c), key);
    MovedSame(c, r);
    ApartHeld(c, r);
    match c.channel[0].outcome
    case Some(pair) =>
      var d := Respond(r, OpReply(pair.0, Delivered(pair.1)));
      DeliverCore(r, pair.0, pair.1);
      MovedSame(r, d);
      ApartHeld(r, d);
      FinishHeld(env, d);
    case None =>
      FinishHeld(env, r);
  }

  lemma BarrierHeld(env: Env, c: Coord)
    requires ValidEnv(env) && Core(c, None) && Held(c) && c.channel != []
    requires c.lifecycle == Open || c.lifecycle == Closing
    requires !c.channel[0].Submission? && !c.channel[0].Completion?
    ensures Held(Handle(env, c))
  {
    hide Core, Held, Advance, StopIfClosed, Moved, Endpoints, FlatMap;
    var b := Begun(c);
    BegunCore(c);
    MovedSame(c, b);
    ApartHeld(c, b);
    match c.channel[0]
    case MaintenanceCompletion(report) =>
      if report.Some? {
        var reply := MaintenanceReply(report.value.0, Some(report.value.1));
        AcknowledgeCore(b, reply);
        FinishHeld(env, Respond(b, reply));
      } else {
        FinishHeld(env, b);
      }
    case Maintenance(id) =>
      RespondHeld(b, MaintenanceReply(id, Some(Err(StoreClosed))));
      BarredCore(b, PendingMaintenance(id, |c.order|));
      BarredHeld(b, PendingMaintenance(id, |c.order|));
      FinishHeld(env, Barred(b, PendingMaintenance(id, |c.order|)));
    case Flush(id) =>
      RespondHeld(b, FlushReply(id, Err(StoreClosed)));
      BarredCore(b, PendingFlush(id, |c.order|));
      BarredHeld(b, PendingFlush(id, |c.order|));
      FinishHeld(env, Barred(b, PendingFlush(id, |c.order|)));
    case Close(id) =>
      var d := Barred(b, PendingClose(id));
      BarredCore(b, PendingClose(id));
      ClosingCore(d);
      BarredHeld(b, PendingClose(id));
      MovedSame(d, d.(lifecycle := Closing));
      ApartHeld(d, d.(lifecycle := Closing));
      FinishHeld(env, d.(lifecycle := Closing));
  }

  lemma RespondHeld(c: Coord, reply: Reply)
    requires Held(c)
    ensures Held(Respond(c, reply))
  {
    hide Held, Moved;
    MovedSame(c, Respond(c, reply));
    ApartHeld(c, Respond(c, reply));
  }

  // ---- Runs ------------------------------------------------------------------------------------

  ghost predicate Placed(s: System) {
    Sequenced(s.c, s.nextId) && Held(s.c)
  }

  lemma CoordinatePlaced(env: Env, s: System)
    requires ValidEnv(env) && Inv(env, s) && Enabled(s, Coordinate) && Placed(s)
    ensures Placed(s.(c := Handle(env, s.c)))
  {
    hide Handle, Core, Endpoints, Replayed, Unused, ChannelFresh, Conserving, Hygienic, Exclusive, Awake, Capacity,
      Held, InSequence, Stamps, FlatMap, Drained, Verdicts;
    AdmittedFresh(s);
    if s.c.channel[0].Submission? {
      HeadUnused(s);
    }
    HandleSteady(env, s.c);
    HandleSequenced(env, s.c, s.nextId);
    if s.c.channel[0].Submission? {
      SubmissionHeld(env, s.c);
    } else if s.c.channel[0].Completion? {
      CompletionHeld(env, s.c);
    } else {
      BarrierHeld(env, s.c);
    }
  }

  /** Steps that touch neither requests nor barriers. */
  lemma ApartPlaced(s: System, t: System)
    requires Placed(s) && t.c.order == s.c.order && t.c.pending == s.c.pending && t.c.barriers == s.c.barriers
    requires Requests(t.c.channel) == Requests(s.c.channel) && t.nextId >= s.nextId
    requires forall job :: job in t.c.jobs && job.Maintain? ==> job in s.c.jobs
    ensures Placed(t)
  {
    hide InSequence, Held, Moved, FlatMap;
    MovedSame(s.c, t.c);
    ApartHeld(s.c, t.c);
    var stamps := Stamps(s.c.pending, s.c.barriers);
    FewerInSequence(s.c.order, Requests(s.c.channel), stamps, s.nextId, Requests(t.c.channel), stamps, t.nextId);
  }

  lemma SentPlaced(s: System, event: Event)
    requires Placed(s) && RequestIds()(event) == [s.nextId]
    ensures Placed(Send(s, event))
  {
    hide InSequence, Held, Moved, FlatMap;
    var t := Send(s, event);
    MovedSame(s.c, t.c);
    ApartHeld(s.c, t.c);
    FlatMapPush(RequestIds(), s.c.channel, event);
    RequestInSequence(s.c.order, Requests(s.c.channel), Stamps(s.c.pending, s.c.barriers), s.nextId);
  }

  lemma CallPlaced(s: System, step: Step)
    requires step.Submit? || step.RequestMaintenance? || step.RequestFlush? || step.RequestClose?
    requires Placed(s)
    ensures Placed(Call(s, step))
  {
    hide Placed, Send, Resolve, FlatMap, Requests;
    forall event: Event | RequestIds()(event) == [s.nextId] ensures Placed(Send(s, event)) {
      SentPlaced(s, event);
    }
    forall reply: Reply ensures Placed(Resolve(s, reply)) {
      ResolvePlaced(s, reply);
    }
    var id := s.nextId;
    if step.Submit? {
      assert RequestIds()(Submission(Op(id, step.key, step.operation))) == [id];
    }
    assert RequestIds()(Maintenance(id)) == RequestIds()(Flush(id)) == RequestIds()(Close(id)) == [id];
  }

  lemma ResolvePlaced(s: System, reply: Reply)
    requires Placed(s)
    ensures Placed(Resolve(s, reply))
  {
    hide Placed, FlatMap;
    ApartPlaced(s, Resolve(s, reply));
  }

  lemma PostPlaced(s: System, t: System, i: nat, event: Event)
    requires Placed(s) && i < |s.c.jobs| && RequestIds()(event) == []
    requires t.c.order == s.c.order && t.c.pending == s.c.pending && t.c.barriers == s.c.barriers
    requires t.nextId == s.nextId
    requires t.c.channel == s.c.channel + [event] && t.c.jobs == Without(s.c.jobs, i)
    ensures Placed(t)
  {
    hide Placed, FlatMap;
    FlatMapPush(RequestIds(), s.c.channel, event);
    ApartPlaced(s, t);
  }

  lemma JobPlaced(s: System, t: System, i: nat, job: Job)
    requires Placed(s) && i < |s.c.jobs| && !job.Maintain?
    requires t.c.order == s.c.order && t.c.pending == s.c.pending && t.c.barriers == s.c.barriers
    requires t.nextId == s.nextId
    requires t.c.channel == s.c.channel && t.c.jobs == s.c.jobs[i := job]
    ensures Placed(t)
  {
    hide Placed, FlatMap;
    ApartPlaced(s, t);
  }

  lemma RunPlaced(s: System, i: nat, fault: Fault, applied: bool)
    requires ValidJob(s, i) && s.c.jobs[i].Fresh? && Placed(s)
    ensures Placed(RunJob(s, i, fault)) && Placed(Unwind(s, i, applied))
  {
    hide Placed, Decide, Apply, Put, Get, Effective;
    JobPlaced(s, Unwind(s, i, applied), i, Crashed(s.c.jobs[i].op.key));
    JobPlaced(s, Unwind(s, i, false), i, Crashed(s.c.jobs[i].op.key));
    if Runnable(s.c.jobs[i].op.operation) {
      JobPlaced(s, RunJob(s, i, fault), i, RunJob(s, i, fault).c.jobs[i]);
    }
  }

  lemma StepPlaced(env: Env, s: System, step: Step)
    requires ValidEnv(env) && Inv(env, s) && Enabled(s, step) && Placed(s)
    ensures Placed(Next(env, s, step))
  {
    hide Placed, Inv, Handle, Call, RunJob, Unwind, CompletionOf, Without, FlatMap;
    match step
    case Coordinate => CoordinatePlaced(env, s);
    case Disconnect => ApartPlaced(s, Leave(s));
    case CloneHandle => ApartPlaced(s, s.(handles := s.handles + 1));
    case DropHandle => ApartPlaced(s, s.(handles := s.handles - 1));
    case Run(i, fault) => RunPlaced(s, i, fault, false);
    case Panic(i, applied) => RunPlaced(s, i, NoFault, applied);
    case Post(i) =>
      CompletionIsNoRequest(s.c.jobs[i]);
      PostPlaced(s, PostJob(s, i), i, CompletionOf(s.c.jobs[i]));
    case PostMaintenance(i, report) =>
      var event := MaintenanceCompletion(if report.Some? then Some((s.c.jobs[i].id, report.value)) else None);
      PostPlaced(s, PostMaintained(s, i, report), i, event);
    case _ => CallPlaced(s, step);
  }

  lemma CompletionIsNoRequest(job: Job)
    requires job.Finished? || job.Crashed?
    ensures RequestIds()(CompletionOf(job)) == []
  {
  }

  lemma {:induction false} RunsPlaced(env: Env, s: System, run: seq<Step>)
    requires ValidEnv(env) && Inv(env, s) && Legal(env, s, run) && Placed(s)
    ensures Placed(Outcome(env, s, run))
    decreases |run|
  {
    hide Inv, Next, Placed, Enabled;
    if run != [] {
      NextInv(env, s, run[0]);
      StepPlaced(env, s, run[0]);
      RunsPlaced(env, Next(env, s, run[0]), run[1..]);
    }
  }

  lemma OpenedPlaced(disk: map<KeyHash, Blob>)
    ensures Placed(Opened(disk))
  {
  }

  lemma ReachablePlaced(env: Env, s: System)
    requires ValidEnv(env) && Reachable(env, s)
    ensures Placed(s)
  {
    hide Inv, Placed;
    var disk, run :| Legal(env, Opened(disk), run) && Outcome(env, Opened(disk), run) == s;
    OpenedInv(env, disk);
    OpenedPlaced(disk);
    RunsPlaced(env, Opened(disk), run);
  }

  /** Operations are accepted in the order in which they were sent, ahead of everything still in the channel. */
  lemma ReceiveOrderIsSendOrder(env: Env, s: System)
    requires ValidEnv(env) && Reachable(env, s)
    ensures forall i, j :: 0 <= i < j < |s.c.order| ==> s.c.order[i].id < s.c.order[j].id
    ensures forall i, k :: 0 <= i < |s.c.order| && 0 <= k < |Requests(s.c.channel)| ==>
      s.c.order[i].id < Requests(s.c.channel)[k]
    ensures Ascending(Requests(s.c.channel))
  {
    hide Reachable, Held, Requests;
    ReachablePlaced(env, s);
  }
}
