/** What becomes of every flush and of all maintenance: parked, honoured, reported on or refused. */
module BarrierOutcomes {
  import opened Collections
  import opened EngineTypes
  import opened Workers
  import opened Coordinator
  import opened EngineInvariants
  import opened StepProofs
  import EngineSystem
  import opened SystemProofs
  import opened EngineTheorems
  import opened BarrierWitness
  import opened EventEffects
  import opened ReplyCauses

  // ---- Recorded barriers are served --------------------------------------------------------

  /** Maintenance that runs, whose report is on its way, or that has been reported on. */
  predicate UnderMaintenance(c: Coord, id: nat) {
    || Maintain(id) in c.jobs
    || (exists i :: 0 <= i < |c.channel| && ReportFor(c.channel[i], id))
    || (exists j :: 0 <= j < |c.replies| && c.replies[j].MaintenanceReply? && c.replies[j].id == id)
  }

  predicate ReportFor(event: Event, id: nat) {
    event.MaintenanceCompletion? && event.report.Some? && event.report.value.0 == id
  }

  /** A barrier on record is a flush that was acknowledged at that moment, or maintenance. */
  predicate Honoured(c: Coord, b: Barrier) {
    || (b.answered < |c.replies| && c.replies[b.answered] == FlushReply(b.id, Ok(())))
    || UnderMaintenance(c, b.id)
  }

  predicate AllHonoured(c: Coord) {
    forall i :: 0 <= i < |c.barriers| ==> Honoured(c, c.barriers[i])
  }

  /** A report that is still behind the head of the channel keeps the maintenance flag. */
  lemma ReportBehind(c: Coord, i: nat)
    requires Tokens(c.jobs, c.channel, c.active, c.maintenanceActive)
    requires 0 < i < |c.channel| && c.channel[i].MaintenanceCompletion?
    ensures c.maintenanceActive && !c.channel[0].MaintenanceCompletion?
  {
    FlatMapPop(MaintenanceDone(), c.channel);
    FlatMapSplit(MaintenanceDone(), c.channel[1..], i - 1);
  }

  lemma ReportPassed(c: Coord, id: nat)
    requires c.channel != [] && ReportFor(c.channel[0], id)
    ensures Taken(c).replies == c.replies + [MaintenanceReply(id, Some(c.channel[0].report.value.1))]
  {
  }

  /** How far a state may be from the one it came from: the coordinator moved on, and then it may have stopped. */
  predicate Follows(c: Coord, d: Coord) {
    && c.jobs <= d.jobs && c.replies <= d.replies && c.barriers <= d.barriers
    && (c.maintenanceActive ==> d.maintenanceActive && c.channel <= d.channel)
  }

  lemma StopFollows(env: Env, b: Coord, a: Coord)
    requires EventEffects.SameControl(b, a)
    ensures var d := StopIfClosed(env, a);
            && Follows(b, d) && d.barriers == a.barriers && a.replies <= d.replies && a.jobs == d.jobs
            && (a.maintenanceActive ==> d == a)
  {
    hide CloseFront, FlatMap, Joins, AfterCloses;
    if MayStop(a) {
      var ok := Joins(env, a.pool);
      assert Stop(env, a).replies == a.replies + (CloseFront(a.pending, ok) + FlatMap(DrainReply(ok), a.channel));
    }
  }

  lemma UnderMaintenanceFollows(c: Coord, b: Coord, d: Coord, id: nat)
    requires UnderMaintenance(c, id) && Tokens(c.jobs, c.channel, c.active, c.maintenanceActive)
    requires c.channel != [] && b == Taken(c) && Follows(b, d)
    ensures UnderMaintenance(d, id)
  {
    hide Taken, Tokens;
    TakenKeeps(c);
    TakenGrows(c);
    if Maintain(id) in c.jobs {
    } else if i :| 0 <= i < |c.channel| && ReportFor(c.channel[i], id) {
      if i == 0 {
        ReportPassed(c, id);
        assert d.replies[|c.replies|] == b.replies[|c.replies|];
      } else {
        ReportBehind(c, i);
        assert d.channel[i - 1] == b.channel[i - 1] == c.channel[i];
      }
    } else {
      var j :| 0 <= j < |c.replies| && c.replies[j].MaintenanceReply? && c.replies[j].id == id;
      assert d.replies[j] == b.replies[j] == c.replies[j];
    }
  }

  lemma HonouredFollows(c: Coord, b: Coord, d: Coord)
    requires AllHonoured(c) && Tokens(c.jobs, c.channel, c.active, c.maintenanceActive)
    requires c.channel != [] && b == Taken(c) && Follows(b, d)
    ensures forall i :: 0 <= i < |c.barriers| ==> Honoured(d, c.barriers[i])
  {
    hide Taken, Tokens, UnderMaintenance, Follows;
    forall i | 0 <= i < |c.barriers|
      ensures Honoured(d, c.barriers[i])
    {
      if UnderMaintenance(c, c.barriers[i].id) {
        UnderMaintenanceFollows(c, b, d, c.barriers[i].id);
      } else {
        RepliesStay(c, b, d, c.barriers[i].answered);
      }
    }
  }

  lemma RepliesStay(c: Coord, b: Coord, d: Coord, j: nat)
    requires c.channel != [] && b == Taken(c) && Follows(b, d) && j < |c.replies|
    ensures j < |d.replies| && d.replies[j] == c.replies[j]
  {
    hide Taken;
    TakenGrows(c);
    assert d.replies[j] == b.replies[j];
  }

  /** What dispatching and replaying recorded is served, also if the coordinator then stops. */
  lemma NewHonoured(env: Env, b: Coord, a: Coord, i: nat)
    requires Moves(env, b, a) && |b.barriers| <= i < |a.barriers|
    ensures Honoured(StopIfClosed(env, a), a.barriers[i])
  {
    hide StopIfClosed, PoolMoves, GrowthBusy;
    assert Served(a, a.barriers[i]);
    MovesControl(env, b, a);
    StopFollows(env, b, a);
  }

  lemma EventHonoured(env: Env, c: Coord)
    requires ValidEnv(env) && c.channel != [] && ClosesLast(c) && Awake(c) && AllHonoured(c)
    requires Tokens(c.jobs, c.channel, c.active, c.maintenanceActive)
    ensures AllHonoured(Handle(env, c))
  {
    hide Handle, Moves, AllKept, StopIfClosed, Tokens, Honoured, Follows, Taken;
    var a := HandleMoves(env, c);
    var b, d := Taken(c), Handle(env, c);
    MovesControl(env, b, a);
    StopFollows(env, b, a);
    HonouredFollows(c, b, d);
    TakenKeeps(c);
    forall i | 0 <= i < |d.barriers|
      ensures Honoured(d, d.barriers[i])
    {
      if i < |c.barriers| {
        FollowsBarrier(b, d, i);
      } else {
        NewHonoured(env, b, a, i);
      }
    }
  }

  lemma FollowsBarrier(b: Coord, d: Coord, i: nat)
    requires Follows(b, d) && i < |b.barriers|
    ensures i < |d.barriers| && d.barriers[i] == b.barriers[i]
  {
  }

  // ---- The other steps ------------------------------------------------------------------------

  /** Nothing is taken from the channel or the replies, and a job that is maintenance stays or sends its report. */
  ghost predicate Onward(c: Coord, d: Coord) {
    && d.barriers == c.barriers && d.pending == c.pending && c.channel <= d.channel && c.replies <= d.replies
    && forall id: nat :: Maintain(id) in c.jobs ==> UnderMaintenance(d, id)
  }

  lemma OnwardHonoured(c: Coord, d: Coord)
    requires Onward(c, d) && AllHonoured(c)
    ensures AllHonoured(d)
  {
    forall i | 0 <= i < |d.barriers|
      ensures Honoured(d, d.barriers[i])
    {
      OnwardOne(c, d, d.barriers[i]);
    }
  }

  lemma OnwardOne(c: Coord, d: Coord, b: Barrier)
    requires Onward(c, d) && Honoured(c, b)
    ensures Honoured(d, b)
  {
    if b.answered < |c.replies| && c.replies[b.answered] == FlushReply(b.id, Ok(())) {
    } else if i :| 0 <= i < |c.channel| && ReportFor(c.channel[i], b.id) {
      assert d.channel[i] == c.channel[i];
    } else if j :| 0 <= j < |c.replies| && c.replies[j].MaintenanceReply? && c.replies[j].id == b.id {
      assert d.replies[j] == c.replies[j];
    }
  }

  lemma SentOnward(s: System, event: Event, reply: Reply)
    ensures Onward(s.c, EngineSystem.Send(s, event).c) && Onward(s.c, EngineSystem.Resolve(s, reply).c)
  {
  }

  lemma CallOnward(s: System, step: Step)
    requires step.Submit? || step.RequestMaintenance? || step.RequestFlush? || step.RequestClose?
    ensures Onward(s.c, EngineSystem.Call(s, step).c)
  {
    hide Onward, EngineSystem.Send, EngineSystem.Resolve;
    forall event: Event ensures Onward(s.c, EngineSystem.Send(s, event).c) {
      SentOnward(s, event, CloseReply(0, Ok(())));
    }
    forall reply: Reply ensures Onward(s.c, EngineSystem.Resolve(s, reply).c) {
      SentOnward(s, Close(0), reply);
    }
  }

  /** Any other job stays when one is replaced or removed. */
  lemma OtherJobs(jobs: seq<Job>, i: nat, job: Job)
    requires i < |jobs|
    ensures forall other :: other in jobs && other != jobs[i] ==>
              other in jobs[i := job] && other in EngineSystem.Without(jobs, i)
  {
    forall other | other in jobs && other != jobs[i]
      ensures other in jobs[i := job] && other in EngineSystem.Without(jobs, i)
    {
      var k :| 0 <= k < |jobs| && jobs[k] == other;
      assert jobs[i := job][k] == other;
      assert EngineSystem.Without(jobs, i)[if k < i then k else k - 1] == other;
    }
  }

  lemma RunOnward(s: System, i: nat, fault: EngineSystem.Fault, applied: bool)
    requires EngineSystem.ValidJob(s, i) && s.c.jobs[i].Fresh?
    ensures Onward(s.c, EngineSystem.Unwind(s, i, applied).c) && Onward(s.c, EngineSystem.RunJob(s, i, fault).c)
  {
    hide EngineSystem.Decide, EngineSystem.Apply, EngineSystem.Put, EngineSystem.Get, EngineSystem.Effective;
    OtherJobs(s.c.jobs, i, EngineSystem.Unwind(s, i, applied).c.jobs[i]);
    OtherJobs(s.c.jobs, i, EngineSystem.RunJob(s, i, fault).c.jobs[i]);
  }

  lemma PostOnward(s: System, i: nat)
    requires EngineSystem.ValidJob(s, i) && (s.c.jobs[i].Finished? || s.c.jobs[i].Crashed?)
    ensures Onward(s.c, EngineSystem.PostJob(s, i).c)
  {
    OtherJobs(s.c.jobs, i, s.c.jobs[i]);
  }

  lemma ReportOnward(s: System, i: nat, report: Option<Result<()>>)
    requires EngineSystem.ValidJob(s, i) && s.c.jobs[i].Maintain?
    ensures Onward(s.c, EngineSystem.PostMaintained(s, i, report).c)
  {
    OtherJobs(s.c.jobs, i, s.c.jobs[i]);
    var id, d := s.c.jobs[i].id, EngineSystem.PostMaintained(s, i, report).c;
    if report.Some? {
      assert ReportFor(d.channel[|s.c.channel|], id);
    } else {
      assert d.replies[|s.c.replies|] == MaintenanceReply(id, None);
    }
    assert UnderMaintenance(d, id);
  }

  /** Only the coordinator takes anything back. */
  lemma StepOnward(env: Env, s: System, step: Step)
    requires ValidEnv(env) && EngineSystem.Enabled(s, step) && !step.Coordinate?
    ensures Onward(s.c, EngineSystem.Next(env, s, step).c)
  {
    hide EngineSystem.Call, EngineSystem.RunJob, EngineSystem.Unwind, EngineSystem.PostJob,
      EngineSystem.PostMaintained, Handle, Onward;
    match step
    case Disconnect => SameOnward(s.c, EngineSystem.Leave(s).c);
    case CloneHandle => SameOnward(s.c, s.c);
    case DropHandle => SameOnward(s.c, s.c);
    case Run(i, fault) => RunOnward(s, i, fault, false);
    case Panic(i, applied) => RunOnward(s, i, EngineSystem.NoFault, applied);
    case Post(i) => PostOnward(s, i);
    case PostMaintenance(i, report) => ReportOnward(s, i, report);
    case _ => CallOnward(s, step);
  }

  lemma SameOnward(c: Coord, d: Coord)
    ensures d == c.(pool := d.pool, lifecycle := d.lifecycle, running := d.running) ==> Onward(c, d)
  {
  }

  lemma StepHonoured(env: Env, s: System, step: Step)
    requires ValidEnv(env) && Inv(env, s) && AllHonoured(s.c) && EngineSystem.Enabled(s, step)
    ensures AllHonoured(EngineSystem.Next(env, s, step).c)
  {
    hide Inv, Handle, Onward, AllHonoured, Tokens, Shape, Awake, ClosesLast;
    if step.Coordinate? {
      RunningShape(env, s);
      ShapeCloses(env, s.c);
      InvTokens(env, s);
      EventHonoured(env, s.c);
    } else {
      StepOnward(env, s, step);
      OnwardHonoured(s.c, EngineSystem.Next(env, s, step).c);
    }
  }

  lemma ShapeCloses(env: Env, c: Coord)
    requires Shape(env, c)
    ensures ClosesLast(c)
  {
    hide Capacity, Conserving, Hygienic, Exclusive, ClosesLast;
  }

  lemma InvTokens(env: Env, s: System)
    requires Inv(env, s)
    ensures Tokens(s.c.jobs, s.c.channel, s.c.active, s.c.maintenanceActive)
  {
    hide Lines, Fifo, Distinct, Known, AllRunnable, Backlog, BarriersHeld, InFlight, Answered, Settled, Shape, Awake,
      Drained, Verdicts, Accounted, Admitted, EngineSystem.Replayed, Tokens;
  }

  lemma {:induction false} RunsHonoured(env: Env, s: System, run: seq<Step>)
    requires ValidEnv(env) && Inv(env, s) && AllHonoured(s.c) && EngineSystem.Legal(env, s, run)
    ensures AllHonoured(EngineSystem.Outcome(env, s, run).c)
    decreases |run|
  {
    hide Inv, AllHonoured, EngineSystem.Next, EngineSystem.Enabled;
    if run != [] {
      NextInv(env, s, run[0]);
      StepHonoured(env, s, run[0]);
      RunsHonoured(env, EngineSystem.Next(env, s, run[0]), run[1..]);
    }
  }

  lemma ReachableHonoured(env: Env, s: System)
    requires ValidEnv(env) && Reachable(env, s)
    ensures AllHonoured(s.c)
  {
    hide AllHonoured, Inv;
    var disk, run :|
      EngineSystem.Legal(env, EngineSystem.Opened(disk), run)
      && EngineSystem.Outcome(env, EngineSystem.Opened(disk), run) == s;
    OpenedInv(env, disk);
    assert AllHonoured(EngineSystem.Opened(disk).c) by { NothingHonoured(disk); }
    RunsHonoured(env, EngineSystem.Opened(disk), run);
  }

  lemma NothingHonoured(disk: map<KeyHash, Blob>)
    ensures AllHonoured(EngineSystem.Opened(disk).c)
  {
  }

  // ---- Every reply has its cause -------------------------------------------------------------

  lemma TwoReplies(replies: seq<Reply>, i: nat, j: nat)
    requires i < |replies| && j < |replies| && i != j && ReplyIds()(replies[i]) == ReplyIds()(replies[j])
    ensures forall id: nat :: id in ReplyIds()(replies[i]) ==> Tally(ReplyIds(), replies)[id] >= 2
  {
    hide Tally, ReplyIds;
    var rest, k := replies[..i] + replies[i + 1..], if j < i then j else j - 1;
    assert rest[k] == replies[j];
    TallySplit(ReplyIds(), replies, i);
    TallySplit(ReplyIds(), rest, k);
  }

  /** A request that has been answered is nowhere else, and has been answered once. */
  lemma OnePlace(env: Env, s: System, j: nat, id: nat)
    requires ValidEnv(env) && Reachable(env, s)
    requires j < |s.c.replies| && ReplyIds()(s.c.replies[j]) == multiset{id}
    ensures id !in Tally(JobIds(), s.c.jobs) && id !in Tally(EventIds(), s.c.channel)
    ensures forall k :: 0 <= k < |s.c.replies| && ReplyIds()(s.c.replies[k]) == multiset{id} ==> k == j
  {
    hide Reachable, Tally, ReplyIds, EventIds, JobIds, PendingIds;
    ExactlyOnce(env, s);
    TallySplit(ReplyIds(), s.c.replies, j);
    assert Endpoints(s.c)[id] <= 1;
    forall k | 0 <= k < |s.c.replies| && ReplyIds()(s.c.replies[k]) == multiset{id}
      ensures k == j
    {
      if k != j {
        TwoReplies(s.c.replies, j, k);
      }
    }
  }

  lemma MaintenanceNotFlush(env: Env, s: System, j: nat)
    requires ValidEnv(env) && Reachable(env, s)
    requires j < |s.c.replies| && s.c.replies[j].FlushReply?
    ensures !UnderMaintenance(s.c, s.c.replies[j].id)
  {
    hide Reachable, Tally;
    var id := s.c.replies[j].id;
    OnePlace(env, s, j, id);
    if Maintain(id) in s.c.jobs {
      var i :| 0 <= i < |s.c.jobs| && s.c.jobs[i] == Maintain(id);
      TallySplit(JobIds(), s.c.jobs, i);
    }
    if i :| 0 <= i < |s.c.channel| && ReportFor(s.c.channel[i], id) {
      TallySplit(EventIds(), s.c.channel, i);
    }
  }

  predicate Unrecorded(barriers: seq<Barrier>, id: nat) {
    forall b :: 0 <= b < |barriers| ==> barriers[b].id != id
  }

  /** A flush that was refused is on no record. */
  lemma RefusedUnrecorded(env: Env, s: System, j: nat)
    requires ValidEnv(env) && Reachable(env, s)
    requires j < |s.c.replies| && s.c.replies[j].FlushReply? && s.c.replies[j].flushed.Err?
    ensures Unrecorded(s.c.barriers, s.c.replies[j].id)
  {
    hide Reachable, UnderMaintenance;
    ReachableHonoured(env, s);
    MaintenanceNotFlush(env, s, j);
    OnePlace(env, s, j, s.c.replies[j].id);
    assert forall b :: 0 <= b < |s.c.barriers| ==> Honoured(s.c, s.c.barriers[b]);
  }

  /** Every barrier on record is a flush acknowledged with success by the very next reply, or maintenance that runs or
      has reported. A flush is acknowledged with success exactly if it is on record; otherwise it is told that the
      store is closed, and the store is no longer open. Maintenance that is not on record was refused for want of a
      worker or because the store is closed, and so was an operation that was refused. */
  lemma BarriersAnswered(env: Env, s: System)
    requires ValidEnv(env) && Reachable(env, s)
    ensures AllHonoured(s.c)
    ensures forall j :: 0 <= j < |s.c.replies| && s.c.replies[j].FlushReply? ==>
      || (s.c.replies[j].flushed.Ok? && RecordedAt(s.c.barriers, s.c.replies[j].id, j))
      || (s.c.replies[j].flushed == Err(StoreClosed) && s.c.lifecycle != Open
          && Unrecorded(s.c.barriers, s.c.replies[j].id))
    ensures forall j :: 0 <= j < |s.c.replies| && s.c.replies[j].MaintenanceReply? ==>
      || Recorded(s.c.barriers, s.c.replies[j].id, j)
      || s.c.replies[j].maintained == Some(Err(WorkerUnavailable))
      || (s.c.replies[j].maintained == Some(Err(StoreClosed)) && s.c.lifecycle != Open)
    ensures forall j :: 0 <= j < |s.c.replies| && s.c.replies[j].OpReply? && s.c.replies[j].answer.Rejected? ==>
      || s.c.replies[j].answer == Rejected(WorkerUnavailable)
      || (s.c.replies[j].answer == Rejected(StoreClosed) && s.c.lifecycle != Open)
  {
    hide Reachable, AllHonoured, Recorded, RecordedAt, Unrecorded;
    ReachableHonoured(env, s);
    ReachableWitnessed(env, s);
    forall j | 0 <= j < |s.c.replies| && s.c.replies[j].FlushReply? && s.c.replies[j].flushed.Err?
      ensures Unrecorded(s.c.barriers, s.c.replies[j].id)
    {
      RefusedUnrecorded(env, s, j);
    }
    assert forall j :: 0 <= j < |s.c.replies| ==> Caused(s.c.lifecycle, s.c.barriers, s.c.replies[j], j);
  }
}
