/** What handling one event tells its caller, those whose requests are parked, and those still in the channel. */
module EventAnswers {
  import opened Collections
  import opened EngineTypes
  import opened Workers
  import opened Coordinator
  import opened EngineInvariants
  import opened StepProofs
  import EngineSystem
  import opened SystemProofs
  import opened EngineTheorems
  import opened BarrierWitness
  import opened EventEffects
  import opened ReplyCauses
  import opened BarrierOutcomes

  // ---- Requests left in the channel ------------------------------------------------------

  /** The answer, of its own kind, to a request that a stopping coordinator never handles. */
  predicate TurnedAway(event: Event, replies: seq<Reply>, verdict: Result<()>) {
    match event
    case Close(id) => CloseReply(id, verdict) in replies
    case Submission(op) => OpReply(op, Rejected(StoreClosed)) in replies
    case Maintenance(id) => MaintenanceReply(id, Some(Err(StoreClosed))) in replies
    case Flush(id) => FlushReply(id, Err(StoreClosed)) in replies
    case Completion(_, _) => true
    case MaintenanceCompletion(_) => true
  }

  lemma {:induction false} DrainTurnsAway(channel: seq<Event>, ok: bool, i: nat)
    requires i < |channel|
    ensures TurnedAway(channel[i], FlatMap(DrainReply(ok), channel), Verdict(ok))
  {
    if i == 0 {
      FlatMapPop(DrainReply(ok), channel);
      var told := DrainReply(ok)(channel[0]);
      assert forall reply :: reply in told ==> reply in FlatMap(DrainReply(ok), channel);
      if !channel[0].Completion? && !channel[0].MaintenanceCompletion? {
        assert told[0] in told;
      }
    } else {
      DrainTurnsAway(channel[1..], ok, i - 1);
      FlatMapPop(DrainReply(ok), channel);
    }
  }

  /** A close that waits is answered when the coordinator stops, or waits on. */
  lemma {:induction false} FrontAnswersClose(pending: seq<PendingEvent>, ok: bool, id: nat)
    requires PendingClose(id) in pending
    ensures PendingClose(id) in AfterCloses(pending) || CloseReply(id, Verdict(ok)) in CloseFront(pending, ok)
  {
    if pending[0].PendingClose? && pending[0] != PendingClose(id) {
      FrontAnswersClose(pending[1..], ok, id);
    }
  }

  lemma {:induction false} AfterKeeps(pending: seq<PendingEvent>, p: PendingEvent)
    requires p in pending && !p.PendingClose?
    ensures p in AfterCloses(pending)
  {
    if pending[0].PendingClose? {
      AfterKeeps(pending[1..], p);
    }
  }

  lemma StopReplies(env: Env, c: Coord)
    ensures var ok := Joins(env, c.pool);
            && (forall reply :: reply in c.replies ==> reply in Stop(env, c).replies)
            && (forall reply :: reply in CloseFront(c.pending, ok) ==> reply in Stop(env, c).replies)
            && (forall reply :: reply in FlatMap(DrainReply(ok), c.channel) ==> reply in Stop(env, c).replies)
            && Stop(env, c).lifecycle == (if ok then Closed else ShutdownFailed)
  {
    hide CloseFront, FlatMap, DrainReply, Joins;
  }

  /** Stopping answers every request in the channel. */
  lemma StopTurnsAway(env: Env, c: Coord, i: nat)
    requires MayStop(c) && i < |c.channel|
    ensures var d := StopIfClosed(env, c);
            TurnedAway(c.channel[i], d.replies, Verdict(d.lifecycle == Closed))
  {
    hide Stop, FlatMap, DrainReply, Joins;
    DrainTurnsAway(c.channel, Joins(env, c.pool), i);
    StopReplies(env, c);
  }

  // ---- Parked requests --------------------------------------------------------------------

  /** What became of a parked request: it still waits, or has what it waited for. Only for want of a worker is
      maintenance refused instead. */
  predicate StillDue(p: PendingEvent, d: Coord) {
    match p
    case PendingFlush(id, _) => p in d.pending || FlushReply(id, Ok(())) in d.replies
    case PendingMaintenance(id, _) =>
      || p in d.pending || Maintain(id) in d.jobs || MaintenanceReply(id, Some(Err(WorkerUnavailable))) in d.replies
    case PendingClose(id) =>
      p in d.pending || CloseReply(id, Verdict(d.lifecycle == Closed)) in d.replies
    case PendingSubmission(_) => true
  }

  lemma StopStillDue(env: Env, a: Coord, p: PendingEvent)
    requires Kept(p, a)
    ensures StillDue(p, StopIfClosed(env, a))
  {
    hide Stop, FlatMap, DrainReply, Joins, CloseFront, AfterCloses, MayStop;
    if MayStop(a) {
      StopReplies(env, a);
      StopPending(env, a);
      if p in a.pending && p.PendingClose? {
        FrontAnswersClose(a.pending, Joins(env, a.pool), p.id);
      } else if p in a.pending {
        AfterKeeps(a.pending, p);
      }
    }
  }

  lemma StopPending(env: Env, c: Coord)
    ensures Stop(env, c).pending == AfterCloses(c.pending) && Stop(env, c).jobs == c.jobs
  {
  }

  lemma EventStillDue(env: Env, c: Coord, p: PendingEvent)
    requires ValidEnv(env) && c.channel != [] && ClosesLast(c) && Awake(c) && p in Taken(c).pending
    ensures StillDue(p, Handle(env, c))
  {
    hide Handle, Moves, Taken, Kept, StillDue;
    var a := HandleMoves(env, c);
    StopStillDue(env, a, p);
  }

  // ---- The event itself -------------------------------------------------------------------

  /** What an event leads to for the one who sent it. */
  predicate Attended(c: Coord, d: Coord)
    requires c.channel != []
  {
    var open := c.lifecycle == Open;
    match c.channel[0]
    case Submission(op) =>
      if open then d.order == c.order + [op] else d.replies == c.replies + [OpReply(op, Rejected(StoreClosed))]
    case Completion(_, outcome) =>
      outcome.Some? ==> OpReply(outcome.value.0, Delivered(outcome.value.1)) in d.replies
    case Maintenance(id) =>
      if open then StillDue(PendingMaintenance(id, |c.order|), d)
      else d.replies == c.replies + [MaintenanceReply(id, Some(Err(StoreClosed)))]
    case MaintenanceCompletion(report) =>
      report.Some? ==> c.replies + [MaintenanceReply(report.value.0, Some(report.value.1))] <= d.replies
    case Flush(id) =>
      if open then StillDue(PendingFlush(id, |c.order|), d)
      else d.replies == c.replies + [FlushReply(id, Err(StoreClosed))]
    case Close(id) => StillDue(PendingClose(id), d) && d.lifecycle != Open
  }

  lemma ParkedNow(c: Coord)
    requires c.channel != []
    ensures c.channel[0].Flush? && c.lifecycle == Open ==>
      PendingFlush(c.channel[0].id, |c.order|) in Taken(c).pending
    ensures c.channel[0].Maintenance? && c.lifecycle == Open ==>
      PendingMaintenance(c.channel[0].id, |c.order|) in Taken(c).pending
    ensures c.channel[0].Close? ==> PendingClose(c.channel[0].id) in Taken(c).pending
  {
    var n := |c.pending|;
    match c.channel[0]
    case Flush(id) =>
      assert c.lifecycle == Open ==> Taken(c).pending[n] == PendingFlush(id, |c.order|);
    case Maintenance(id) =>
      assert c.lifecycle == Open ==> Taken(c).pending[n] == PendingMaintenance(id, |c.order|);
    case Close(id) =>
      assert Taken(c).pending[n] == PendingClose(id);
    case _ =>
  }

  lemma StopKeeps(env: Env, a: Coord)
    ensures var d := StopIfClosed(env, a);
            && a.replies <= d.replies && d.order == a.order
            && (forall reply :: reply in a.replies ==> reply in d.replies)
            && (d.lifecycle == a.lifecycle || d.lifecycle == Closed || d.lifecycle == ShutdownFailed)
  {
    hide CloseFront, FlatMap, Joins, AfterCloses, DrainReply;
    if MayStop(a) {
      var ok := Joins(env, a.pool);
      assert Stop(env, a).replies == a.replies + (CloseFront(a.pending, ok) + FlatMap(DrainReply(ok), a.channel));
    }
  }

  lemma CompletionAttended(env: Env, c: Coord)
    requires ValidEnv(env) && c.channel != [] && c.channel[0].Completion?
    ensures Attended(c, Handle(env, c))
  {
    hide Handle, Moves, AllKept, Taken, StopIfClosed;
    var a := CompletionMoves(env, c);
    StopKeeps(env, a);
  }

  lemma ReportAttended(env: Env, c: Coord)
    requires ValidEnv(env) && c.channel != [] && c.channel[0].MaintenanceCompletion? && ClosesLast(c) && Awake(c)
    ensures Attended(c, Handle(env, c))
  {
    hide Handle, Moves, AllKept, Taken, StopIfClosed;
    var report := c.channel[0].report;
    var a := HandleMoves(env, c);
    MovesControl(env, Taken(c), a);
    StopKeeps(env, a);
    if report.Some? {
      ReportPassed(c, report.value.0);
    }
  }

  lemma SubmissionAttended(env: Env, c: Coord)
    requires ValidEnv(env) && c.channel != [] && c.channel[0].Submission? && ClosesLast(c) && Awake(c)
    ensures Attended(c, Handle(env, c))
  {
    hide Moves, AllKept, StopIfClosed, DispatchIfIdle, DispatchAvailable, Enqueue;
    if c.lifecycle == Open {
      var a := HandleMoves(env, c);
      MovesControl(env, Taken(c), a);
      StopKeeps(env, a);
    }
  }

  lemma CloseAttended(env: Env, c: Coord)
    requires ValidEnv(env) && c.channel != [] && c.channel[0].Close? && ClosesLast(c) && Awake(c)
    ensures Attended(c, Handle(env, c))
  {
    hide Handle, Moves, AllKept, StopIfClosed, StillDue, Awake, ClosesLast;
    ParkedNow(c);
    EventStillDue(env, c, PendingClose(c.channel[0].id));
    var a := HandleMoves(env, c);
    MovesControl(env, Taken(c), a);
    StopKeeps(env, a);
  }

  lemma EventAttended(env: Env, c: Coord)
    requires ValidEnv(env) && c.channel != [] && ClosesLast(c) && Awake(c)
    ensures Attended(c, Handle(env, c))
  {
    hide Advance, Awake, ClosesLast, StopIfClosed, StillDue;
    match c.channel[0]
    case Submission(_) => SubmissionAttended(env, c);
    case Completion(_, _) => CompletionAttended(env, c);
    case Maintenance(id) =>
      if c.lifecycle == Open {
        ParkedNow(c);
        EventStillDue(env, c, PendingMaintenance(id, |c.order|));
      }
    case MaintenanceCompletion(_) => ReportAttended(env, c);
    case Flush(id) =>
      if c.lifecycle == Open {
        ParkedNow(c);
        EventStillDue(env, c, PendingFlush(id, |c.order|));
      }
    case Close(_) => CloseAttended(env, c);
  }

  /** What is behind the event stays in the channel, unless the coordinator stops: then each request there is answered
      that the store is closed, a close with the verdict. */
  lemma EventBehind(env: Env, c: Coord)
    requires ValidEnv(env) && c.channel != [] && ClosesLast(c) && Awake(c) && c.running
    ensures var d := Handle(env, c);
            if d.running then c.channel[1..] <= d.channel
            else forall i :: 1 <= i < |c.channel| ==>
              TurnedAway(c.channel[i], d.replies, Verdict(d.lifecycle == Closed))
  {
    hide Handle, Moves, AllKept, Taken, TurnedAway, MayStop, Awake, ClosesLast;
    var a := HandleMoves(env, c);
    MovesControl(env, Taken(c), a);
    TakenKeeps(c);
    TakenFields(c);
    if MayStop(a) {
      forall i | 1 <= i < |c.channel|
        ensures TurnedAway(c.channel[i], Handle(env, c).replies, Verdict(Handle(env, c).lifecycle == Closed))
      {
        assert a.channel[i - 1] == Taken(c).channel[i - 1] == c.channel[i];
        StopTurnsAway(env, a, i - 1);
      }
    }
  }

  /** Handling an event tells its sender what it should: a result or a report is passed on as it is; a flush,
      maintenance or an operation is accepted exactly while the store is open and otherwise told that it is closed. A
      request that was parked stays parked until it has what it waits for; and one left in the channel by a coordinator
      that stops is told that the store is closed, a close with the verdict. */
  lemma EventTells(env: Env, s: System)
    requires ValidEnv(env) && Reachable(env, s) && s.c.running && s.c.channel != []
    ensures var d := Handle(env, s.c);
            && Attended(s.c, d)
            && (forall p :: p in s.c.pending ==> StillDue(p, d))
            && (if d.running then s.c.channel[1..] <= d.channel
                else forall i :: 1 <= i < |s.c.channel| ==>
                  TurnedAway(s.c.channel[i], d.replies, Verdict(d.lifecycle == Closed)))
  {
    hide Reachable, Handle, Inv, Shape, Awake, ClosesLast, Attended, StillDue, TurnedAway, Taken;
    ReachableInv(env, s);
    RunningShape(env, s);
    ShapeCloses(env, s.c);
    EventAttended(env, s.c);
    EventBehind(env, s.c);
    TakenGrows(s.c);
    forall p | p in s.c.pending
      ensures StillDue(p, Handle(env, s.c))
    {
      EventStillDue(env, s.c, p);
    }
  }

  // ---- Promises over whole runs ---------------------------------------------------------------

  /** What a caller may count on: an accepted flush succeeds, accepted maintenance is not turned away because the store
      closes, and a report arrives as it was sent. */
  datatype Promise =
    | FlushSucceeds(id: nat, mark: nat)
    | MaintenanceStarts(id: nat, mark: nat)
    | ReportArrives(id: nat, result: Result<()>)

  predicate Holds(c: Coord, promise: Promise) {
    match promise
    case FlushSucceeds(id, mark) => PendingFlush(id, mark) in c.pending || FlushReply(id, Ok(())) in c.replies
    case MaintenanceStarts(id, mark) =>
      || PendingMaintenance(id, mark) in c.pending
      || Recorded(c.barriers, id, |c.replies|)
      || MaintenanceReply(id, Some(Err(WorkerUnavailable))) in c.replies
    case ReportArrives(id, result) =>
      MaintenanceCompletion(Some((id, result))) in c.channel || MaintenanceReply(id, Some(result)) in c.replies
  }

  /** A worker sends a report as it is, and drops the endpoint of maintenance that panicked. */
  lemma ReportSent(env: Env, s: System, i: nat, report: Option<Result<()>>)
    requires ValidEnv(env) && EngineSystem.Enabled(s, EngineSystem.PostMaintenance(i, report))
    ensures var t, id := EngineSystem.Next(env, s, EngineSystem.PostMaintenance(i, report)), s.c.jobs[i].id;
            if report.Some? then Holds(t.c, ReportArrives(id, report.value)) && t.c.replies == s.c.replies
            else t.c.replies == s.c.replies + [MaintenanceReply(id, None)]
  {
    hide EngineSystem.Without, Handle;
    var t := EngineSystem.Next(env, s, EngineSystem.PostMaintenance(i, report));
    if report.Some? {
      assert t.c.channel[|s.c.channel|] == MaintenanceCompletion(Some((s.c.jobs[i].id, report.value)));
    }
  }

  lemma OnwardHolds(c: Coord, d: Coord, promise: Promise)
    requires Onward(c, d) && Holds(c, promise)
    ensures Holds(d, promise)
  {
    hide Recorded, UnderMaintenance;
    assert forall reply :: reply in c.replies ==> reply in d.replies;
    assert forall event :: event in c.channel ==> event in d.channel;
    if promise.MaintenanceStarts? && Recorded(c.barriers, promise.id, |c.replies|) {
      RecordedLater(c.barriers, [], promise.id, |c.replies|, |d.replies|);
      assert c.barriers + [] == c.barriers;
    }
  }

  lemma FlushHolds(env: Env, s: System, id: nat, mark: nat)
    requires ValidEnv(env) && Reachable(env, s) && s.c.running && s.c.channel != []
    requires Holds(s.c, FlushSucceeds(id, mark))
    ensures Holds(Handle(env, s.c), FlushSucceeds(id, mark))
  {
    hide Reachable, Handle, Attended, TurnedAway;
    EventTells(env, s);
    EventGrows(env, s);
    if PendingFlush(id, mark) in s.c.pending {
      assert StillDue(PendingFlush(id, mark), Handle(env, s.c));
    }
  }

  /** An event takes back no reply and no record, and stops the coordinator only without maintenance. */
  lemma EventGrows(env: Env, s: System)
    requires ValidEnv(env) && Reachable(env, s) && s.c.running && s.c.channel != []
    ensures var d := Handle(env, s.c);
            && s.c.replies <= d.replies && s.c.barriers <= d.barriers
            && (forall reply :: reply in s.c.replies ==> reply in d.replies)
            && (s.c.maintenanceActive && !s.c.channel[0].MaintenanceCompletion? ==> d.running)
  {
    hide Reachable, Handle, Inv, Shape, Awake, ClosesLast, Taken, Moves, AllKept, StopIfClosed;
    ReachableInv(env, s);
    RunningShape(env, s);
    ShapeCloses(env, s.c);
    var a := HandleMoves(env, s.c);
    MovesControl(env, Taken(s.c), a);
    StopFollows(env, Taken(s.c), a);
    TakenKeeps(s.c);
    TakenGrows(s.c);
    TakenFields(s.c);
  }

  lemma MaintenanceHolds(env: Env, s: System, id: nat, mark: nat)
    requires ValidEnv(env) && Reachable(env, s) && s.c.running && s.c.channel != []
    requires Reachable(env, s.(c := Handle(env, s.c)))
    requires Holds(s.c, MaintenanceStarts(id, mark))
    ensures Holds(Handle(env, s.c), MaintenanceStarts(id, mark))
  {
    hide Reachable, Handle, Attended, TurnedAway, Recorded;
    var d := Handle(env, s.c);
    EventTells(env, s);
    EventGrows(env, s);
    if PendingMaintenance(id, mark) in s.c.pending {
      assert StillDue(PendingMaintenance(id, mark), d);
      if i :| 0 <= i < |d.jobs| && d.jobs[i] == Maintain(id) {
        ReachableWitnessed(env, s.(c := d));
        JobRecorded(d, i);
      }
    } else if Recorded(s.c.barriers, id, |s.c.replies|) {
      RecordedLater(s.c.barriers, d.barriers[|s.c.barriers|..], id, |s.c.replies|, |d.replies|);
      assert s.c.barriers + d.barriers[|s.c.barriers|..] == d.barriers;
    }
  }

  lemma ReportHolds(env: Env, s: System, id: nat, result: Result<()>)
    requires ValidEnv(env) && Reachable(env, s) && s.c.running && s.c.channel != []
    requires Holds(s.c, ReportArrives(id, result))
    ensures Holds(Handle(env, s.c), ReportArrives(id, result))
  {
    hide Reachable, Handle, StillDue, TurnedAway, Tokens, Inv;
    var d := Handle(env, s.c);
    EventTells(env, s);
    EventGrows(env, s);
    if i :| 0 <= i < |s.c.channel| && s.c.channel[i] == MaintenanceCompletion(Some((id, result))) {
      if i == 0 {
        assert d.replies[|s.c.replies|] == MaintenanceReply(id, Some(result));
      } else {
        ReachableInv(env, s);
        InvTokens(env, s);
        ReportBehind(s.c, i);
        assert d.channel[i - 1] == s.c.channel[1..][i - 1];
      }
    }
  }

  lemma StepHolds(env: Env, s: System, step: Step, promise: Promise)
    requires ValidEnv(env) && Reachable(env, s) && EngineSystem.Enabled(s, step)
    requires Reachable(env, EngineSystem.Next(env, s, step)) && Holds(s.c, promise)
    ensures Holds(EngineSystem.Next(env, s, step).c, promise)
  {
    hide Reachable, Holds, Handle, Onward, EngineSystem.Call, EngineSystem.RunJob, EngineSystem.Unwind,
      EngineSystem.PostJob, EngineSystem.PostMaintained, EngineSystem.Leave;
    if step.Coordinate? {
      match promise
      case FlushSucceeds(id, mark) => FlushHolds(env, s, id, mark);
      case MaintenanceStarts(id, mark) => MaintenanceHolds(env, s, id, mark);
      case ReportArrives(id, result) => ReportHolds(env, s, id, result);
    } else {
      StepOnward(env, s, step);
      OnwardHolds(s.c, EngineSystem.Next(env, s, step).c, promise);
    }
  }

  lemma {:induction false} LegalAppend(env: Env, s: System, run: seq<Step>, step: Step)
    requires ValidEnv(env) && EngineSystem.Legal(env, s, run)
    requires EngineSystem.Enabled(EngineSystem.Outcome(env, s, run), step)
    ensures EngineSystem.Legal(env, s, run + [step])
    ensures EngineSystem.Outcome(env, s, run + [step])
         == EngineSystem.Next(env, EngineSystem.Outcome(env, s, run), step)
    decreases |run|
  {
    hide EngineSystem.Next, EngineSystem.Enabled;
    if run == [] {
      assert run + [step] == [step] && [step][1..] == [];
    } else {
      LegalAppend(env, EngineSystem.Next(env, s, run[0]), run[1..], step);
      assert (run + [step])[0] == run[0] && (run + [step])[1..] == run[1..] + [step];
    }
  }

  lemma NextReachable(env: Env, s: System, step: Step)
    requires ValidEnv(env) && Reachable(env, s) && EngineSystem.Enabled(s, step)
    ensures Reachable(env, EngineSystem.Next(env, s, step))
  {
    hide EngineSystem.Next, EngineSystem.Enabled;
    var disk, run :|
      EngineSystem.Legal(env, EngineSystem.Opened(disk), run)
      && EngineSystem.Outcome(env, EngineSystem.Opened(disk), run) == s;
    LegalAppend(env, EngineSystem.Opened(disk), run, step);
  }

  /** A promise once made is kept: however a run goes on, an accepted flush is waiting or has succeeded, accepted
      maintenance is waiting, has been started or was refused for want of a worker, and a report is on its way or has
      been delivered unchanged. */
  lemma {:induction false} PromisesKept(env: Env, s: System, run: seq<Step>, promise: Promise)
    requires ValidEnv(env) && Reachable(env, s) && EngineSystem.Legal(env, s, run) && Holds(s.c, promise)
    ensures Holds(EngineSystem.Outcome(env, s, run).c, promise)
    decreases |run|
  {
    hide Reachable, Holds, EngineSystem.Next, EngineSystem.Enabled;
    if run != [] {
      NextReachable(env, s, run[0]);
      StepHolds(env, s, run[0], promise);
      PromisesKept(env, EngineSystem.Next(env, s, run[0]), run[1..], promise);
    }
  }
}
