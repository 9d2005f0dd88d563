/** What every reachable coordinator state satisfies. */
module EngineInvariants {
  import opened Collections
  import opened EngineTypes
  import opened Workers
  import opened Coordinator

  // ---- Projections --------------------------------------------------------

  predicate IsJobFor(job: Job, key: KeyHash) {
    match job
    case Fresh(op) => op.key == key
    case Finished(op, _) => op.key == key
    case Crashed(k) => k == key
    case Maintain(_) => false
  }

  function JobFor(key: KeyHash): Job -> seq<Job> {
    (job: Job) => if IsJobFor(job, key) then [job] else []
  }

  function CompletionFor(key: KeyHash): Event -> seq<Event> {
    (event: Event) => if event.Completion? && event.key == key then [event] else []
  }

  function MaintenanceJob(): Job -> seq<Job> {
    (job: Job) => if job.Maintain? then [job] else []
  }

  function MaintenanceDone(): Event -> seq<Event> {
    (event: Event) => if event.MaintenanceCompletion? then [event] else []
  }

  /** The operation of this key that a job will still run. */
  function FreshFor(key: KeyHash): Job -> seq<Op> {
    (job: Job) => if job.Fresh? && job.op.key == key then [job.op] else []
  }

  function PendingFor(key: KeyHash): PendingEvent -> seq<Op> {
    (event: PendingEvent) => if event.PendingSubmission? && event.op.key == key then [event.op] else []
  }

  function UnsettledFor(fate: map<nat, Fate>, key: KeyHash): Op -> seq<Op> {
    (op: Op) => if op.key == key && op.id !in fate then [op] else []
  }

  function EventIds(): Event -> multiset<nat> {
    (event: Event) =>
      match event
      case Submission(op) => multiset{op.id}
      case Completion(_, outcome) => if outcome.Some? then multiset{outcome.value.0.id} else multiset{}
      case Maintenance(id) => multiset{id}
      case MaintenanceCompletion(report) => if report.Some? then multiset{report.value.0} else multiset{}
      case Flush(id) => multiset{id}
      case Close(id) => multiset{id}
  }

  function PendingIds(): PendingEvent -> multiset<nat> {
    (event: PendingEvent) =>
      match event
      case PendingSubmission(op) => multiset{op.id}
      case PendingMaintenance(id, _) => multiset{id}
      case PendingFlush(id, _) => multiset{id}
      case PendingClose(id) => multiset{id}
  }

  function JobIds(): Job -> multiset<nat> {
    (job: Job) =>
      match job
      case Fresh(op) => multiset{op.id}
      case Finished(op, _) => multiset{op.id}
      case Crashed(_) => multiset{}
      case Maintain(id) => multiset{id}
  }

  function ReplyIds(): Reply -> multiset<nat> {
    (reply: Reply) =>
      match reply
      case OpReply(op, _) => multiset{op.id}
      case FlushReply(id, _) => multiset{id}
      case MaintenanceReply(id, _) => multiset{id}
      case CloseReply(id, _) => multiset{id}
  }

  function SubmissionIds(): Event -> multiset<nat> {
    (event: Event) => if event.Submission? then multiset{event.op.id} else multiset{}
  }

  /** Identifiers of operations that were answered, or whose answer is on its way. */
  function OpReplyIds(): Reply -> multiset<nat> {
    (reply: Reply) => if reply.OpReply? then multiset{reply.op.id} else multiset{}
  }

  function FinishedIds(): Job -> multiset<nat> {
    (job: Job) => if job.Finished? then multiset{job.op.id} else multiset{}
  }

  function CompletedIds(): Event -> multiset<nat> {
    (event: Event) =>
      if event.Completion? && event.outcome.Some? then multiset{event.outcome.value.0.id} else multiset{}
  }

  /** The result the coordinator took from the channel and has not delivered yet. */
  type Hand = Option<(Op, BlockingResult)>

  function HandIds(hand: Hand): multiset<nat> {
    if hand.Some? then multiset{hand.value.0.id} else multiset{}
  }

  // ---- Conservation of reply endpoints ------------------------------------

  /** Every endpoint the coordinator, the pool or the channel holds, and every one already resolved. */
  ghost function Endpoints(c: Coord): multiset<nat> {
    Tally(EventIds(), c.channel) + Tally(PendingIds(), c.pending) + Tally(JobIds(), c.jobs)
    + QueueIds(c.queues) + Tally(ReplyIds(), c.replies)
  }

  // ---- One slot, one job or completion -------------------------------------

  ghost predicate Tokens(jobs: seq<Job>, channel: seq<Event>, active: set<KeyHash>, maintenance: bool) {
    && (forall key: KeyHash ::
          |FlatMap(JobFor(key), jobs)| + |FlatMap(CompletionFor(key), channel)| == if key in active then 1 else 0)
    && |FlatMap(MaintenanceJob(), jobs)| + |FlatMap(MaintenanceDone(), channel)| == if maintenance then 1 else 0
  }

  // ---- Per-key FIFO ----------------------------------------------------------

  /** The accepted operations of a key that have not ended, in receive order, are exactly the one being
      run, then its queue, then its share of the pending deque. */
  ghost predicate Lines(order: seq<Op>, fate: map<nat, Fate>, jobs: seq<Job>,
                        queues: map<KeyHash, seq<Op>>, pending: seq<PendingEvent>) {
    forall key: KeyHash ::
      FlatMap(UnsettledFor(fate, key), order)
      == FlatMap(FreshFor(key), jobs) + Queue(queues, key) + FlatMap(PendingFor(key), pending)
  }

  /** Operations of one key end in receive order. */
  ghost predicate Fifo(order: seq<Op>, fate: map<nat, Fate>) {
    forall i, j :: 0 <= i < j < |order| && order[i].key == order[j].key && order[j].id in fate
      ==> order[i].id in fate
  }

  ghost predicate Distinct(order: seq<Op>) {
    forall i, j :: 0 <= i < j < |order| ==> order[i].id != order[j].id
  }

  ghost function Ids(order: seq<Op>): set<nat> {
    set i | 0 <= i < |order| :: order[i].id
  }

  /** Only accepted operations have ended. */
  ghost predicate Known(order: seq<Op>, fate: map<nat, Fate>) {
    fate.Keys <= Ids(order)
  }

  /** The later history only adds refusals. */
  ghost predicate OnlyRefusals(fate: map<nat, Fate>, fate': map<nat, Fate>) {
    && (forall id :: id in fate ==> id in fate' && fate'[id] == fate[id])
    && (forall id :: id in fate' && id !in fate ==> fate'[id] == Refused)
  }

  predicate QueueKeys(queues: map<KeyHash, seq<Op>>) {
    forall key, i :: key in queues && 0 <= i < |queues[key]|
      ==> queues[key][i].key == key && Runnable(queues[key][i].operation)
  }

  /** Whatever will still be run owns its endpoints. */
  predicate AllRunnable(queues: map<KeyHash, seq<Op>>, pending: seq<PendingEvent>,
                        channel: seq<Event>, jobs: seq<Job>) {
    && QueueKeys(queues)
    && (forall i :: 0 <= i < |pending| && pending[i].PendingSubmission? ==> Runnable(pending[i].op.operation))
    && (forall i :: 0 <= i < |channel| && channel[i].Submission? ==> Runnable(channel[i].op.operation))
    && (forall i :: 0 <= i < |jobs| && jobs[i].Fresh? ==> Runnable(jobs[i].op.operation))
  }

  // ---- Barriers --------------------------------------------------------------

  predicate MarkFits(event: PendingEvent, n: int) {
    match event
    case PendingMaintenance(_, mark) => mark == n
    case PendingFlush(_, mark) => mark == n
    case _ => true
  }

  /** The pending submissions are the latest ones received, and a barrier's mark counts what precedes it. */
  ghost predicate Backlog(order: seq<Op>, pending: seq<PendingEvent>) {
    && |FlatMap(SubmissionOf(), pending)| <= |order|
    && FlatMap(SubmissionOf(), pending) == order[|order| - |FlatMap(SubmissionOf(), pending)|..]
    && forall i :: 0 <= i < |pending| ==>
         MarkFits(pending[i], |order| - |FlatMap(SubmissionOf(), pending[i + 1..])|)
  }

  /** At every barrier honoured so far, exactly the submissions before it had left the deque, each of them had been
      answered, and none of the later ones had. */
  ghost predicate BarriersHeld(barriers: seq<Barrier>, order: seq<Op>, replies: seq<Reply>) {
    forall b :: 0 <= b < |barriers| ==>
      && barriers[b].mark == barriers[b].moved <= |order|
      && barriers[b].answered <= |replies|
      && forall i :: 0 <= i < |order| ==>
           (i < barriers[b].mark <==> order[i].id in Tally(OpReplyIds(), replies[..barriers[b].answered]))
  }

  /** Replies only add to what a barrier saw. */
  lemma RepliesKeepBarriers(barriers: seq<Barrier>, order: seq<Op>, replies: seq<Reply>, more: seq<Reply>)
    requires BarriersHeld(barriers, order, replies)
    ensures BarriersHeld(barriers, order, replies + more)
  {
    hide Tally;
    forall b | 0 <= b < |barriers|
      ensures (replies + more)[..barriers[b].answered] == replies[..barriers[b].answered]
    {
    }
  }

  // ---- Results ---------------------------------------------------------------

  function AnswerOf(fate: Fate): Answer {
    match fate
    case Took(result) => Delivered(result)
    case Faulted(_, result) => Delivered(result)
    case Refused => Rejected(WorkerUnavailable)
    case Unwound(_) => Dropped
  }

  predicate Carries(fate: map<nat, Fate>, op: Op, result: BlockingResult) {
    && op.id in fate
    && AnswerOf(fate[op.id]) == Delivered(result)
    && Matches(op.operation, result)
  }

  /** Results in flight are the ones recorded, and answer the right kind of operation. */
  ghost predicate InFlight(fate: map<nat, Fate>, jobs: seq<Job>, channel: seq<Event>, hand: Hand) {
    && (hand.Some? ==> Carries(fate, hand.value.0, hand.value.1))
    && (forall i :: 0 <= i < |jobs| && jobs[i].Finished? ==> Carries(fate, jobs[i].op, jobs[i].result))
    && (forall i :: 0 <= i < |channel| && channel[i].Completion? && channel[i].outcome.Some? ==>
          Carries(fate, channel[i].outcome.value.0, channel[i].outcome.value.1))
  }

  /** An accepted operation is answered only after it ended, and with the recorded answer. */
  ghost predicate Answered(order: seq<Op>, fate: map<nat, Fate>, replies: seq<Reply>) {
    forall i, j :: 0 <= i < |order| && 0 <= j < |replies| && replies[j].OpReply? && replies[j].op.id == order[i].id
      ==> order[i].id in fate && replies[j].answer == AnswerOf(fate[order[i].id])
  }

  /** An ended operation has been answered, or its result is with a worker, in the channel or in hand. */
  ghost predicate Settled(order: seq<Op>, fate: map<nat, Fate>, replies: seq<Reply>,
                          jobs: seq<Job>, channel: seq<Event>, hand: Hand) {
    forall i :: 0 <= i < |order| && order[i].id in fate ==>
      order[i].id in Tally(OpReplyIds(), replies) + Tally(FinishedIds(), jobs) + Tally(CompletedIds(), channel)
                     + HandIds(hand)
  }

  /** The part that holds between any two steps of the coordinator, with `hand` the result it carries. */
  ghost predicate Core(c: Coord, hand: Hand) {
    && Tokens(c.jobs, c.channel, c.active, c.maintenanceActive)
    && Lines(c.order, c.fate, c.jobs, c.queues, c.pending)
    && Fifo(c.order, c.fate)
    && Distinct(c.order)
    && Known(c.order, c.fate)
    && AllRunnable(c.queues, c.pending, c.channel, c.jobs)
    && Backlog(c.order, c.pending)
    && BarriersHeld(c.barriers, c.order, c.replies)
    && InFlight(c.fate, c.jobs, c.channel, hand)
    && Answered(c.order, c.fate, c.replies)
    && Settled(c.order, c.fate, c.replies, c.jobs, c.channel, hand)
  }

  // ---- Shape -----------------------------------------------------------------

  /** Never more operations than the limit, never fewer workers than jobs need, never more than capacity. */
  ghost predicate Capacity(env: Env, c: Coord) {
    && |c.active| <= env.limit
    && |c.active| <= c.pool.workers <= env.limit
    && c.pool.open
    && (FlatMap(MaintenanceJob(), c.jobs) != [] ==> 1 <= c.pool.workers)
  }

  /** Either every slot is taken or every waiting key is already being served. */
  predicate Conserving(env: Env, c: Coord) {
    |c.active| < env.limit ==> forall key :: key in c.queues && c.queues[key] != [] ==> key in c.active
  }

  /** An empty queue is kept only for a key being served. */
  predicate Hygienic(c: Coord, except: set<KeyHash>) {
    forall key :: key in c.queues && c.queues[key] == [] ==> key in c.active || key in except
  }

  /** Maintenance runs alone. */
  predicate Exclusive(c: Coord) {
    c.maintenanceActive ==> c.active == {} && c.queues == map[]
  }

  /** Something outstanding will wake whatever waits in the deque. */
  predicate Awake(c: Coord) {
    && (c.pending != [] ==> c.active != {} || c.maintenanceActive)
    && (c.pending != [] && !c.maintenanceActive ==> !c.pending[0].PendingSubmission?)
  }

  /** Nothing but closes is behind a close, and the lifecycle says whether there is one. */
  predicate ClosesLast(c: Coord) {
    && (forall i, j :: 0 <= i < j < |c.pending| && c.pending[i].PendingClose? ==> c.pending[j].PendingClose?)
    && (c.lifecycle == Open || c.lifecycle == Closing)
    && (c.lifecycle == Closing <==> exists i :: 0 <= i < |c.pending| && c.pending[i].PendingClose?)
  }

  ghost predicate Shape(env: Env, c: Coord) {
    && Capacity(env, c)
    && Conserving(env, c)
    && Hygienic(c, {})
    && Exclusive(c)
    && ClosesLast(c)
  }

  predicate NoCloses(replies: seq<Reply>) {
    forall j :: 0 <= j < |replies| ==> !replies[j].CloseReply?
  }

  /** Every close is answered with the verdict the lifecycle records. */
  predicate Verdicts(lifecycle: Lifecycle, replies: seq<Reply>) {
    forall j :: 0 <= j < |replies| && replies[j].CloseReply? ==>
      || (lifecycle == Closed && replies[j].closed == Ok(()))
      || (lifecycle == ShutdownFailed && replies[j].closed == Err(ShutdownFailure))
  }

  /** After shutdown nothing is left anywhere. */
  predicate Drained(c: Coord) {
    c.queues == map[] && c.active == {} && c.pending == [] && c.channel == [] && c.jobs == []
    && !c.maintenanceActive
  }
}
