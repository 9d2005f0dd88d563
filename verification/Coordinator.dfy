/** The coordinator's reaction to one event, as functions on the values it owns. */
module Coordinator {
  import opened Collections
  import opened EngineTypes
  import opened Workers

  datatype Coord = Coord(
    // The coordinator's own variables.
    queues: map<KeyHash, seq<Op>>,
    active: set<KeyHash>,
    pending: seq<PendingEvent>,
    maintenanceActive: bool,
    pool: Pool,
    picks: nat,
    running: bool,
    // Shared with callers and workers.
    lifecycle: Lifecycle,
    channel: seq<Event>,
    jobs: seq<Job>,
    replies: seq<Reply>,
    // History: accepted operations in receive order, how each ended, and the barriers honoured.
    order: seq<Op>,
    fate: map<nat, Fate>,
    barriers: seq<Barrier>)

  function Queue(queues: map<KeyHash, seq<Op>>, key: KeyHash): seq<Op> {
    if key in queues then queues[key] else []
  }

  function IdOf(): Op -> multiset<nat> {
    (op: Op) => multiset{op.id}
  }

  function QueueTally(): seq<Op> -> multiset<nat> {
    (ops: seq<Op>) => Tally(IdOf(), ops)
  }

  /** Every identifier waiting in some queue, with multiplicity. */
  ghost function QueueIds(queues: map<KeyHash, seq<Op>>): multiset<nat> {
    Gather(QueueTally(), queues)
  }

  predicate AllQueuesEmpty(queues: map<KeyHash, seq<Op>>) {
    forall key :: key in queues ==> queues[key] == []
  }

  predicate Busy(c: Coord) {
    c.active != {} || !AllQueuesEmpty(c.queues)
  }

  function Respond(c: Coord, reply: Reply): Coord {
    c.(replies := c.replies + [reply])
  }

  function Enqueue(c: Coord, op: Op): Coord {
    c.(queues := c.queues[op.key := Queue(c.queues, op.key) + [op]])
  }

  /** Hands the head of an idle key's queue to the pool. */
  function Start(c: Coord, key: KeyHash): Coord
    requires Queue(c.queues, key) != []
  {
    c.(queues := c.queues[key := c.queues[key][1..]],
       active := c.active + {key},
       jobs := c.jobs + [Fresh(c.queues[key][0])])
  }

  /** Answers the head of a queue with an error and forgets the queue once it is empty. */
  function Refuse(c: Coord, key: KeyHash): Coord
    requires Queue(c.queues, key) != []
  {
    var op := c.queues[key][0];
    Respond(c, OpReply(op, Rejected(WorkerUnavailable))).(
      queues := if |c.queues[key]| == 1 then c.queues - {key} else c.queues[key := c.queues[key][1..]],
      fate := c.fate[op.id := Refused])
  }

  function DispatchIfIdle(env: Env, c: Coord, key: KeyHash): Coord {
    if key in c.active || |c.active| >= env.limit || Queue(c.queues, key) == [] then
      c
    else
      var (pool, ok) := Prepared(env, c.pool, |c.active| + 1);
      if ok then Start(c.(pool := pool), key) else Refuse(c.(pool := pool), key)
  }

  /** The keys that have work and no running operation. */
  function Ready(c: Coord): set<KeyHash> {
    set key | key in c.queues && c.queues[key] != [] && key !in c.active
  }

  /** Popping a queue's head removes that identifier, whether or not an emptied queue is forgotten. */
  lemma PopShrinks(queues: map<KeyHash, seq<Op>>, key: KeyHash)
    requires Queue(queues, key) != []
    ensures QueueIds(queues[key := queues[key][1..]]) + multiset{queues[key][0].id} == QueueIds(queues)
    ensures |queues[key]| == 1 ==> QueueIds(queues - {key}) + multiset{queues[key][0].id} == QueueIds(queues)
  {
    var ops := queues[key];
    var f := QueueTally();
    assert f(ops) == multiset{ops[0].id} + f(ops[1..]);
    GatherSet(f, queues, key, ops[1..]);
    Cancel(QueueIds(queues[key := ops[1..]]) + multiset{ops[0].id}, QueueIds(queues), f(ops[1..]));
    if |ops| == 1 {
      GatherAt(f, queues, key);
      assert f(ops[1..]) == multiset{};
    }
  }

  lemma DispatchShrinks(env: Env, c: Coord, key: KeyHash)
    requires key !in c.active && |c.active| < env.limit && Queue(c.queues, key) != []
    ensures QueueIds(DispatchIfIdle(env, c, key).queues) + multiset{c.queues[key][0].id} == QueueIds(c.queues)
  {
    PopShrinks(c.queues, key);
  }

  function DispatchAvailable(env: Env, c: Coord): Coord
    requires ValidEnv(env)
    decreases |QueueIds(c.queues)|
  {
    if |c.active| < env.limit && Ready(c) != {} then
      var key := env.choose(c.picks, Ready(c));
      var picked := c.(picks := c.picks + 1);
      DispatchShrinks(env, picked, key);
      DispatchAvailable(env, DispatchIfIdle(env, picked, key))
    else
      c
  }

  function Moved(c: Coord): int {
    |c.order| - |FlatMap(SubmissionOf(), c.pending)|
  }

  /** The submission a pending entry holds, if any. */
  function SubmissionOf(): PendingEvent -> seq<Op> {
    (event: PendingEvent) => if event.PendingSubmission? then [event.op] else []
  }

  function Honour(c: Coord, id: nat, mark: nat): Coord {
    c.(barriers := c.barriers + [Barrier(id, mark, if Moved(c) < 0 then 0 else Moved(c), |c.replies|)])
  }

  function DispatchMaintenance(env: Env, c: Coord, id: nat, mark: nat): Coord {
    var (pool, ok) := Prepared(env, c.pool, 1);
    var c := c.(pool := pool);
    if ok then
      Honour(c, id, mark).(jobs := c.jobs + [Maintain(id)])
    else
      Respond(c, MaintenanceReply(id, Some(Err(WorkerUnavailable)))).(
        channel := c.channel + [MaintenanceCompletion(None)])
  }

  /** Replays the pending deque up to the first barrier that must wait. */
  function Advance(env: Env, c: Coord): Coord
    requires ValidEnv(env)
    decreases |c.pending|
  {
    if c.maintenanceActive || c.pending == [] then
      c
    else
      var rest := c.(pending := c.pending[1..]);
      match c.pending[0]
      case PendingMaintenance(id, mark) =>
        if Busy(c) then c else DispatchMaintenance(env, rest.(maintenanceActive := true), id, mark)
      case PendingSubmission(op) =>
        DispatchKeepsPending(env, Enqueue(rest, op), op.key);
        Advance(env, DispatchIfIdle(env, Enqueue(rest, op), op.key))
      case PendingFlush(id, mark) =>
        if Busy(c) then c else Advance(env, Respond(Honour(rest, id, mark), FlushReply(id, Ok(()))))
      case PendingClose(_) =>
        c
  }

  lemma DispatchKeepsPending(env: Env, c: Coord, key: KeyHash)
    ensures DispatchIfIdle(env, c, key).pending == c.pending
    ensures DispatchIfIdle(env, c, key).maintenanceActive == c.maintenanceActive
  {
  }

  function Verdict(ok: bool): Result<()> {
    if ok then Ok(()) else Err(ShutdownFailure)
  }

  /** The replies to the closes at the front of the deque. */
  function CloseFront(pending: seq<PendingEvent>, ok: bool): seq<Reply> {
    if pending == [] || !pending[0].PendingClose? then []
    else [CloseReply(pending[0].id, Verdict(ok))] + CloseFront(pending[1..], ok)
  }

  function AfterCloses(pending: seq<PendingEvent>): seq<PendingEvent> {
    if pending == [] || !pending[0].PendingClose? then pending else AfterCloses(pending[1..])
  }

  /** What the shutdown drain answers to an event still in the channel; completions are discarded. */
  function DrainReply(ok: bool): Event -> seq<Reply> {
    (event: Event) =>
      match event
      case Close(id) => [CloseReply(id, Verdict(ok))]
      case Submission(op) => [OpReply(op, Rejected(StoreClosed))]
      case Maintenance(id) => [MaintenanceReply(id, Some(Err(StoreClosed)))]
      case Flush(id) => [FlushReply(id, Err(StoreClosed))]
      case Completion(_, _) => []
      case MaintenanceCompletion(_) => []
  }

  function ShutdownPool(pool: Pool): Pool {
    Pool(0, pool.attempts, false)
  }

  predicate MayStop(c: Coord) {
    && c.pending != []
    && c.pending[0].PendingClose?
    && !Busy(c)
    && !c.maintenanceActive
  }

  /** Joins the workers, publishes the verdict, answers every close and drains the channel. */
  function Stop(env: Env, c: Coord): Coord {
    var ok := Joins(env, c.pool);
    c.(pool := ShutdownPool(c.pool),
       lifecycle := if ok then Closed else ShutdownFailed,
       replies := c.replies + CloseFront(c.pending, ok) + FlatMap(DrainReply(ok), c.channel),
       pending := AfterCloses(c.pending),
       channel := [],
       running := false)
  }

  function StopIfClosed(env: Env, c: Coord): Coord {
    if MayStop(c) then Stop(env, c) else c
  }

  /** The completed key's slot is released and refilled before its result is delivered. */
  function Release(env: Env, c: Coord, key: KeyHash): Coord
    requires ValidEnv(env)
  {
    var c := DispatchAvailable(env, DispatchIfIdle(env, c.(active := c.active - {key}), key));
    if key !in c.active && key in c.queues && c.queues[key] == [] then
      c.(queues := c.queues - {key})
    else
      c
  }

  function OnSubmission(env: Env, c: Coord, op: Op): Coord
    requires ValidEnv(env)
  {
    if c.lifecycle != Open then
      Respond(c, OpReply(op, Rejected(StoreClosed)))
    else
      var c := c.(order := c.order + [op]);
      if c.maintenanceActive || c.pending != [] then
        c.(pending := c.pending + [PendingSubmission(op)])
      else
        StopIfClosed(env, DispatchAvailable(env, DispatchIfIdle(env, Enqueue(c, op), op.key)))
  }

  function OnCompletion(env: Env, c: Coord, key: KeyHash, outcome: Option<(Op, BlockingResult)>): Coord
    requires ValidEnv(env)
  {
    var c := Release(env, c, key);
    var c := if outcome.Some? then Respond(c, OpReply(outcome.value.0, Delivered(outcome.value.1))) else c;
    StopIfClosed(env, Advance(env, c))
  }

  function OnMaintenance(env: Env, c: Coord, id: nat): Coord
    requires ValidEnv(env)
  {
    if c.lifecycle != Open then
      Respond(c, MaintenanceReply(id, Some(Err(StoreClosed))))
    else
      StopIfClosed(env, Advance(env, c.(pending := c.pending + [PendingMaintenance(id, |c.order|)])))
  }

  function OnMaintenanceCompletion(env: Env, c: Coord, report: Option<(nat, Result<()>)>): Coord
    requires ValidEnv(env)
  {
    var c := c.(maintenanceActive := false);
    var c := if report.Some? then Respond(c, MaintenanceReply(report.value.0, Some(report.value.1))) else c;
    StopIfClosed(env, Advance(env, c))
  }

  function OnFlush(env: Env, c: Coord, id: nat): Coord
    requires ValidEnv(env)
  {
    if c.lifecycle != Open then
      Respond(c, FlushReply(id, Err(StoreClosed)))
    else
      StopIfClosed(env, Advance(env, c.(pending := c.pending + [PendingFlush(id, |c.order|)])))
  }

  function OnClose(env: Env, c: Coord, id: nat): Coord
    requires ValidEnv(env)
  {
    var c :=
      match c.lifecycle
      case Open => c.(lifecycle := Closing, pending := c.pending + [PendingClose(id)])
      case Closing => c.(pending := c.pending + [PendingClose(id)])
      case Closed => Respond(c, CloseReply(id, Ok(())))
      case ShutdownFailed => Respond(c, CloseReply(id, Err(ShutdownFailure)))
      case Failed => Respond(c, CloseReply(id, Err(ShutdownFailure)));
    StopIfClosed(env, Advance(env, c))
  }

  /** One iteration of the event loop. */
  function Handle(env: Env, c: Coord): Coord
    requires ValidEnv(env) && c.channel != []
  {
    var rest := c.(channel := c.channel[1..]);
    match c.channel[0]
    case Submission(op) => OnSubmission(env, rest, op)
    case Completion(key, outcome) => OnCompletion(env, rest, key, outcome)
    case Maintenance(id) => OnMaintenance(env, rest, id)
    case MaintenanceCompletion(report) => OnMaintenanceCompletion(env, rest, report)
    case Flush(id) => OnFlush(env, rest, id)
    case Close(id) => OnClose(env, rest, id)
  }
}
