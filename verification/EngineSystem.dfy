/** Callers, the channel, the coordinator, the workers and the disk, as one transition system. */
module EngineSystem {
  import opened Collections
  import opened EngineTypes
  import opened Workers
  import opened Coordinator
  import opened EngineInvariants
  import Envelope

  datatype System = System(
    c: Coord,
    handles: nat,
    disk: map<KeyHash, Blob>,
    initial: map<KeyHash, Blob>,
    nextId: nat)

  /** How storage treats one operation: as asked, with an error before the effect, or with one after it. */
  datatype Fault = NoFault | Before(code: nat) | After(code: nat)

  datatype Step =
    | Submit(key: KeyHash, operation: Operation)
    | RequestMaintenance
    | RequestFlush
    | RequestClose
    | CloneHandle
    | DropHandle
    | Coordinate
    | Disconnect
    | Run(job: nat, fault: Fault)
    | Panic(job: nat, applied: bool)
    | Post(job: nat)
    | PostMaintenance(job: nat, report: Option<Result<()>>)

  // ---- What an operation does to its key ---------------------------------------------

  /** The value and the result of an operation on a plain key-to-blob map. */
  function Apply(operation: Operation, value: Option<Blob>): (r: (Option<Blob>, BlockingResult))
    ensures Matches(operation, r.1)
  {
    match operation
    case Load => (value, LoadResult(Ok(value)))
    case LoadStream(_) => (value, LoadStreamResult(Ok(if value.Some? then Some(|value.value|) else None)))
    case Save(payload) => (Some(payload), SaveResult(Ok(())))
    case SaveStream(payload) => (Some(payload), SaveStreamResult(Ok(())))
    case Clear => (None, ClearResult(Ok(())))
    case Inspect => (value, InspectResult(Ok(if value.Some? then Some(|value.value| + Envelope.OVERHEAD) else None)))
    case Quarantine =>
      (None, QuarantineResult(if value.Some? then Ok(()) else Err(QuarantineSourceMissing)))
  }

  function ErrorResult(operation: Operation, error: Error): (r: BlockingResult)
    ensures Matches(operation, r)
  {
    match operation
    case Load => LoadResult(Err(error))
    case LoadStream(_) => LoadStreamResult(Err(error))
    case Save(_) => SaveResult(Err(error))
    case SaveStream(_) => SaveStreamResult(Err(error))
    case Clear => ClearResult(Err(error))
    case Inspect => InspectResult(Err(error))
    case Quarantine => QuarantineResult(Err(error))
  }

  /** A streaming load gives up its endpoints when it runs. */
  function Spent(op: Op): Op {
    if op.operation.LoadStream? then op.(operation := LoadStream(false)) else op
  }

  function Get(disk: map<KeyHash, Blob>, key: KeyHash): Option<Blob> {
    if key in disk then Some(disk[key]) else None
  }

  function Put(disk: map<KeyHash, Blob>, key: KeyHash, value: Option<Blob>): map<KeyHash, Blob> {
    if value.Some? then disk[key := value.value] else disk - {key}
  }

  function Decide(operation: Operation, value: Option<Blob>, fault: Fault): Fate {
    match fault
    case NoFault => Took(Apply(operation, value).1)
    case Before(code) => Faulted(false, ErrorResult(operation, StorageFailure(code)))
    case After(code) => Faulted(true, ErrorResult(operation, StorageFailure(code)))
  }

  predicate Effective(fate: Fate) {
    fate.Took? || ((fate.Faulted? || fate.Unwound?) && fate.applied)
  }

  // ---- Steps ---------------------------------------------------------------------------

  predicate ValidJob(s: System, i: nat) {
    i < |s.c.jobs|
  }

  /** No live sender of the event channel: no handle, and nothing queued or running that owns one. */
  predicate NoSenders(s: System) {
    && s.handles == 0
    && s.c.jobs == []
    && AllQueuesEmpty(s.c.queues)
    && forall i :: 0 <= i < |s.c.pending| ==> s.c.pending[i].PendingFlush? || s.c.pending[i].PendingClose?
  }

  predicate Enabled(s: System, step: Step) {
    match step
    case Submit(_, operation) => s.handles > 0 && Runnable(operation)
    case RequestMaintenance => s.handles > 0
    case RequestFlush => s.handles > 0
    case RequestClose => s.handles > 0
    case CloneHandle => s.handles > 0
    case DropHandle => s.handles > 0
    case Coordinate => s.c.running && s.c.channel != []
    case Disconnect => s.c.running && s.c.channel == [] && NoSenders(s)
    case Run(i, _) => ValidJob(s, i) && s.c.jobs[i].Fresh?
    case Panic(i, _) => ValidJob(s, i) && s.c.jobs[i].Fresh?
    case Post(i) => ValidJob(s, i) && (s.c.jobs[i].Finished? || s.c.jobs[i].Crashed?)
    case PostMaintenance(i, _) => ValidJob(s, i) && s.c.jobs[i].Maintain?
  }

  function Send(s: System, event: Event): System {
    s.(c := s.c.(channel := s.c.channel + [event]), nextId := s.nextId + 1)
  }

  function Resolve(s: System, reply: Reply): System {
    s.(c := Respond(s.c, reply), nextId := s.nextId + 1)
  }

  function Refusal(lifecycle: Lifecycle): Error {
    if lifecycle == Failed then EngineFailed else StoreClosed
  }

  /** A caller holds the lifecycle lock while it checks the state and sends. */
  function Call(s: System, step: Step): System
    requires step.Submit? || step.RequestMaintenance? || step.RequestFlush? || step.RequestClose?
  {
    var id := s.nextId;
    var open := s.c.lifecycle == Open;
    match step
    case Submit(key, operation) =>
      if open then Send(s, Submission(Op(id, key, operation)))
      else Resolve(s, OpReply(Op(id, key, operation), Rejected(Refusal(s.c.lifecycle))))
    case RequestMaintenance =>
      if open then Send(s, Maintenance(id)) else Resolve(s, MaintenanceReply(id, Some(Err(Refusal(s.c.lifecycle)))))
    case RequestFlush =>
      if open then Send(s, Flush(id)) else Resolve(s, FlushReply(id, Err(Refusal(s.c.lifecycle))))
    case RequestClose =>
      match s.c.lifecycle
      case Closed => Resolve(s, CloseReply(id, Ok(())))
      case ShutdownFailed => Resolve(s, CloseReply(id, Err(ShutdownFailure)))
      case Failed => Resolve(s, CloseReply(id, Err(ShutdownFailure)))
      case Open => Send(s, Close(id))
      case Closing => Send(s, Close(id))
  }

  predicate SameControl(s: System, t: System) {
    t.c.lifecycle == s.c.lifecycle && t.c.running == s.c.running && t.c.pool == s.c.pool
  }

  /** The request is in the channel, under a fresh identifier, and nothing has been answered. */
  predicate Sent(s: System, t: System) {
    && t.nextId == s.nextId + 1 && t.c.replies == s.c.replies
    && |t.c.channel| == |s.c.channel| + 1 && s.c.channel <= t.c.channel
    && EventIds()(t.c.channel[|s.c.channel|]) == multiset{s.nextId}
  }

  /** The request has been answered on the spot, under a fresh identifier, and nothing has been sent. */
  predicate Resolved(s: System, t: System) {
    && t.nextId == s.nextId + 1 && t.c.channel == s.c.channel
    && |t.c.replies| == |s.c.replies| + 1 && s.c.replies <= t.c.replies
    && ReplyIds()(t.c.replies[|s.c.replies|]) == multiset{s.nextId}
  }

  lemma SendIsSent(s: System, event: Event)
    requires EventIds()(event) == multiset{s.nextId}
    ensures var t := Send(s, event); SameControl(s, t) && Sent(s, t) && t.c.channel == s.c.channel + [event]
  {
  }

  lemma ResolveIsResolved(s: System, reply: Reply)
    requires ReplyIds()(reply) == multiset{s.nextId}
    ensures var t := Resolve(s, reply); SameControl(s, t) && Resolved(s, t) && t.c.replies == s.c.replies + [reply]
  {
  }

  /** The message that asks the coordinator for what the caller asks. */
  predicate AsksFor(step: Step, id: nat, event: Event) {
    match step
    case Submit(key, operation) => event == Submission(Op(id, key, operation))
    case RequestMaintenance => event == Maintenance(id)
    case RequestFlush => event == Flush(id)
    case RequestClose => event == Close(id)
    case _ => false
  }

  /** The error of a store that is not open: a failed engine says so, any other that it is closed. */
  predicate ClosedError(lifecycle: Lifecycle, error: Error) {
    if lifecycle.Failed? then error.EngineFailed? else error.StoreClosed?
  }

  /** What a request is told when it is not sent: a close the verdict, anything else the refusal. */
  predicate Told(step: Step, id: nat, lifecycle: Lifecycle, reply: Reply) {
    match reply
    case OpReply(op, answer) =>
      && step.Submit? && op == Op(id, step.key, step.operation)
      && answer.Rejected? && ClosedError(lifecycle, answer.error)
    case MaintenanceReply(i, answer) =>
      && step.RequestMaintenance? && i == id
      && answer.Some? && answer.value.Err? && ClosedError(lifecycle, answer.value.error)
    case FlushReply(i, answer) =>
      step.RequestFlush? && i == id && answer.Err? && ClosedError(lifecycle, answer.error)
    case CloseReply(i, answer) =>
      && step.RequestClose? && i == id
      && answer == if lifecycle.Closed? then Ok(()) else Err(ShutdownFailure)
  }

  /** Every request is either sent or answered on the spot: a close is sent until there is a verdict, which is then
      its answer, and anything else is sent exactly while the store is open and refused otherwise. Callers never
      change the lifecycle or the pool. */
  lemma CallSplits(s: System, step: Step)
    requires step.Submit? || step.RequestMaintenance? || step.RequestFlush? || step.RequestClose?
    ensures var t := Call(s, step);
            && SameControl(s, t)
            && (if s.c.lifecycle == Open || (step.RequestClose? && s.c.lifecycle == Closing)
                then Sent(s, t) && AsksFor(step, s.nextId, t.c.channel[|s.c.channel|])
                else Resolved(s, t) && Told(step, s.nextId, s.c.lifecycle, t.c.replies[|s.c.replies|]))
  {
    hide Send, Resolve, Sent, Resolved, SameControl;
    var id, refusal := s.nextId, Refusal(s.c.lifecycle);
    match step {
      case Submit(key, operation) =>
        SendIsSent(s, Submission(Op(id, key, operation)));
        ResolveIsResolved(s, OpReply(Op(id, key, operation), Rejected(refusal)));
      case RequestMaintenance =>
        SendIsSent(s, Maintenance(id));
        ResolveIsResolved(s, MaintenanceReply(id, Some(Err(refusal))));
      case RequestFlush =>
        SendIsSent(s, Flush(id));
        ResolveIsResolved(s, FlushReply(id, Err(refusal)));
      case RequestClose =>
        SendIsSent(s, Close(id));
        ResolveIsResolved(s, CloseReply(id, Verdict(s.c.lifecycle == Closed)));
    }
  }

  /** A panic inside an operation is caught, before or after its effect; its reply sender is dropped. */
  function Unwind(s: System, i: nat, applied: bool): System
    requires ValidJob(s, i) && s.c.jobs[i].Fresh?
  {
    var op := s.c.jobs[i].op;
    s.(c := Respond(s.c, OpReply(op, Dropped)).(
        jobs := s.c.jobs[i := Crashed(op.key)],
        fate := s.c.fate[op.id := Unwound(applied)]),
       disk := if applied then Put(s.disk, op.key, Apply(op.operation, Get(s.disk, op.key)).0) else s.disk)
  }

  /** Running an operation takes its endpoints, so one that lost them would panic. */
  function RunJob(s: System, i: nat, fault: Fault): System
    requires ValidJob(s, i) && s.c.jobs[i].Fresh?
  {
    var op := s.c.jobs[i].op;
    if !Runnable(op.operation) then
      Unwind(s, i, false)
    else
      var value := Get(s.disk, op.key);
      var fate := Decide(op.operation, value, fault);
      s.(c := s.c.(jobs := s.c.jobs[i := Finished(Spent(op), fate.result)], fate := s.c.fate[op.id := fate]),
         disk := if Effective(fate) then Put(s.disk, op.key, Apply(op.operation, value).0) else s.disk)
  }

  function CompletionOf(job: Job): Event
    requires job.Finished? || job.Crashed?
  {
    if job.Finished? then Completion(job.op.key, Some((job.op, job.result))) else Completion(job.key, None)
  }

  function Without(jobs: seq<Job>, i: nat): seq<Job>
    requires i < |jobs|
  {
    jobs[..i] + jobs[i + 1..]
  }

  function PostJob(s: System, i: nat): System
    requires ValidJob(s, i) && (s.c.jobs[i].Finished? || s.c.jobs[i].Crashed?)
  {
    s.(c := s.c.(jobs := Without(s.c.jobs, i), channel := s.c.channel + [CompletionOf(s.c.jobs[i])]))
  }

  function PostMaintained(s: System, i: nat, report: Option<Result<()>>): System
    requires ValidJob(s, i) && s.c.jobs[i].Maintain?
  {
    var id := s.c.jobs[i].id;
    var c := s.c.(jobs := Without(s.c.jobs, i));
    s.(c :=
      match report
      case Some(result) => c.(channel := c.channel + [MaintenanceCompletion(Some((id, result)))])
      case None => Respond(c, MaintenanceReply(id, None)).(channel := c.channel + [MaintenanceCompletion(None)]))
  }

  /** The receive loop ends because nobody can send any more. */
  function Leave(s: System): System {
    s.(c := s.c.(pool := ShutdownPool(s.c.pool), lifecycle := Closed, running := false))
  }

  function Next(env: Env, s: System, step: Step): System
    requires ValidEnv(env) && Enabled(s, step)
  {
    match step
    case Submit(_, _) => Call(s, step)
    case RequestMaintenance => Call(s, step)
    case RequestFlush => Call(s, step)
    case RequestClose => Call(s, step)
    case CloneHandle => s.(handles := s.handles + 1)
    case DropHandle => s.(handles := s.handles - 1)
    case Coordinate => s.(c := Handle(env, s.c))
    case Disconnect => Leave(s)
    case Run(i, fault) => RunJob(s, i, fault)
    case Panic(i, applied) => Unwind(s, i, applied)
    case Post(i) => PostJob(s, i)
    case PostMaintenance(i, report) => PostMaintained(s, i, report)
  }

  // ---- Runs ------------------------------------------------------------------------------

  function Opened(disk: map<KeyHash, Blob>): System {
    System(
      Coord(map[], {}, [], false, Pool(0, 0, true), 0, true, Open, [], [], [], [], map[], []),
      1, disk, disk, 0)
  }

  /** Every step is enabled when its turn comes. */
  predicate Legal(env: Env, s: System, run: seq<Step>)
    requires ValidEnv(env)
    decreases |run|
  {
    run == [] || (Enabled(s, run[0]) && Legal(env, Next(env, s, run[0]), run[1..]))
  }

  function Outcome(env: Env, s: System, run: seq<Step>): System
    requires ValidEnv(env) && Legal(env, s, run)
    decreases |run|
  {
    if run == [] then s else Outcome(env, Next(env, s, run[0]), run[1..])
  }

  // ---- The sequential reference ------------------------------------------------------------

  /** The value of a key after replaying the first n accepted operations on a plain map, skipping those
      that had no effect. */
  function ValueAt(initial: map<KeyHash, Blob>, order: seq<Op>, fate: map<nat, Fate>, key: KeyHash,
                   n: nat): Option<Blob>
    requires n <= |order|
  {
    if n == 0 then Get(initial, key) else
      var op := order[n - 1];
      var value := ValueAt(initial, order, fate, key, n - 1);
      if op.key == key && op.id in fate && Effective(fate[op.id]) then Apply(op.operation, value).0 else value
  }

  /** The error that a result reports, if any. */
  function ErrorIn(result: BlockingResult): Option<Error> {
    match result
    case LoadResult(r) => if r.Err? then Some(r.error) else None
    case LoadStreamResult(r) => if r.Err? then Some(r.error) else None
    case SaveResult(r) => if r.Err? then Some(r.error) else None
    case SaveStreamResult(r) => if r.Err? then Some(r.error) else None
    case ClearResult(r) => if r.Err? then Some(r.error) else None
    case InspectResult(r) => if r.Err? then Some(r.error) else None
    case QuarantineResult(r) => if r.Err? then Some(r.error) else None
  }

  /** A result of the operation's own kind that reports an error of storage. */
  predicate IsFault(operation: Operation, result: BlockingResult) {
    Matches(operation, result) && ErrorIn(result).Some? && ErrorIn(result).value.StorageFailure?
  }

  /** The recorded ending of the i-th accepted operation is the one the sequential replay gives it. */
  predicate Sequential(initial: map<KeyHash, Blob>, order: seq<Op>, fate: map<nat, Fate>, i: nat)
    requires i < |order|
  {
    var op := order[i];
    op.id in fate ==>
      match fate[op.id]
      case Took(result) => result == Apply(op.operation, ValueAt(initial, order, fate, op.key, i)).1
      case Faulted(_, result) => IsFault(op.operation, result)
      case Refused => true
      case Unwound(_) => true
  }

  ghost predicate Replayed(initial: map<KeyHash, Blob>, disk: map<KeyHash, Blob>, order: seq<Op>,
                           fate: map<nat, Fate>)
  {
    && (forall key: KeyHash :: Get(disk, key) == ValueAt(initial, order, fate, key, |order|))
    && (forall i :: 0 <= i < |order| ==> Sequential(initial, order, fate, i))
  }
}
