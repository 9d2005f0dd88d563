/** A streaming load as a protocol: validated chunks one way, an acknowledgement the other. */
module LoadHandshake {
  import opened Collections
  import opened Crc32c
  import opened Envelope
  import opened StreamFormat

  /** What validating the file yields: it is missing, or rejected, or holds a payload. */
  datatype Stored = Absent | Rejected(error: BlobError) | Valid(payload: seq<Byte>)

  datatype WorkerError = NotRun | StreamError(error: BlobError)

  datatype Answer = Loaded(size: Option<nat>) | Failed(error: WorkerError) | Lost

  datatype CallerOutcome = OutputFailed | Answered(answer: Answer)

  datatype Caller =
    | Draining
    | Writing(chunk: seq<Byte>)
    | Waiting(fault: bool)
    | Returned(outcome: CallerOutcome)
    | Gone

  datatype Worker =
    | Queued
    | Sending(rest: seq<seq<Byte>>)
    | AwaitingAck
    | Replying(answer: Answer)
    | Idle

  /** `passed` and `written` are history: the chunks sent and the chunks completely written out. */
  datatype State = State(
    stored: Stored,
    caller: Caller,
    worker: Worker,
    channel: seq<seq<Byte>>,
    acked: bool,
    answer: Option<Answer>,
    output: seq<Byte>,
    passed: seq<seq<Byte>>,
    written: seq<seq<Byte>>)

  datatype Step =
    // The caller, and what its writer does
    | Recv
    | Write(taken: Option<nat>)
    | Collect
    | Abandon
    // The worker, and what its storage does
    | Start(ok: bool)
    | Refuse
    | Emit(ok: bool)
    | Acknowledge
    | Reply
    | Panic

  function Initial(stored: Stored): State {
    State(stored, Draining, Queued, [], false, None, [], [], [])
  }

  /** The worker's end of the chunk channel is open until everything is sent or it gives up. */
  predicate ChunksOpen(worker: Worker) {
    worker.Queued? || worker.Sending?
  }

  predicate Listening(caller: Caller) {
    caller.Draining? || caller.Writing?
  }

  predicate Enabled(s: State, step: Step) {
    match step
    case Recv => s.caller.Draining? && (s.channel != [] || !ChunksOpen(s.worker))
    case Write(taken) => s.caller.Writing? && (taken.Some? ==> taken.value <= |s.caller.chunk|)
    case Collect => s.caller.Waiting? && s.answer.Some?
    case Abandon => !s.caller.Returned? && !s.caller.Gone?
    case Start(_) => s.worker.Queued?
    case Refuse => s.worker.Queued?
    case Emit(ok) =>
      s.worker.Sending? && (s.worker.rest == [] || !ok || !Listening(s.caller) || |s.channel| < STREAM_CHANNEL_CAPACITY)
    case Acknowledge => s.worker.AwaitingAck? && (s.acked || !Listening(s.caller))
    case Reply => s.worker.Replying?
    case Panic => s.worker.Sending? || s.worker.AwaitingAck?
  }

  function Fail(error: BlobError): Worker {
    Replying(Failed(StreamError(error)))
  }

  function Next(s: State, step: Step): State
    requires Enabled(s, step)
  {
    match step
    case Recv =>
      if s.channel != [] then s.(caller := Writing(s.channel[0]), channel := s.channel[1..])
      else s.(caller := Waiting(false), acked := true)
    case Write(None) =>
      s.(caller := Draining, output := s.output + s.caller.chunk, written := s.written + [s.caller.chunk])
    case Write(Some(taken)) => s.(caller := Waiting(true), output := s.output + s.caller.chunk[..taken])
    case Collect => s.(caller := Returned(if s.caller.fault then OutputFailed else Answered(s.answer.value)))
    case Abandon => s.(caller := Gone)
    case Start(ok) =>
      if !ok then s.(worker := Fail(Io))
      else (match s.stored
            case Absent => s.(worker := Replying(Loaded(None)))
            case Rejected(error) => s.(worker := Fail(error))
            case Valid(payload) => s.(worker := Sending(Chunked(payload))))
    case Refuse => s.(worker := Idle, answer := Some(Failed(NotRun)))
    case Emit(ok) =>
      if s.worker.rest == [] then s.(worker := AwaitingAck)
      else if !ok then s.(worker := Fail(Io))
      else if !Listening(s.caller) then s.(worker := Fail(StreamCancelled))
      else
        var chunk := s.worker.rest[0];
        s.(worker := Sending(s.worker.rest[1..]), channel := s.channel + [chunk], passed := s.passed + [chunk])
    case Acknowledge =>
      s.(worker := if s.acked then Replying(Loaded(if s.stored.Valid? then Some(|s.stored.payload|) else None))
                   else Fail(StreamCancelled))
    case Reply => s.(worker := Idle, answer := Some(s.worker.answer))
    case Panic => s.(worker := Idle, answer := Some(Lost))
  }

  // ---- The invariant -----------------------------------------------------------------------------

  predicate WorkerKeeps(s: State) {
    && (s.answer.Some? <==> s.worker.Idle?)
    && (s.passed != [] ==> s.stored.Valid?)
    && (s.stored.Valid? ==> s.passed <= Chunked(s.stored.payload))
    && match s.worker
       case Queued => s.passed == []
       case Sending(rest) => s.stored.Valid? && Chunked(s.stored.payload) == s.passed + rest
       case AwaitingAck => s.stored.Valid? && Chunked(s.stored.payload) == s.passed
       case Replying(answer) => Justified(s, answer)
       case Idle => s.answer.Some? ==> Justified(s, s.answer.value)
  }

  predicate Justified(s: State, answer: Answer) {
    match answer
    case Loaded(None) => s.stored.Absent?
    case Loaded(Some(size)) =>
      s.stored.Valid? && size == |s.stored.payload| && s.acked && s.passed == Chunked(s.stored.payload)
    case Failed(StreamError(StreamCancelled)) =>
      s.stored == Rejected(StreamCancelled) || (s.stored.Valid? && !Listening(s.caller))
    case Failed(StreamError(error)) => error == Io || s.stored == Rejected(error)
    case _ => true
  }

  /** What has been written out, against what has been sent. */
  predicate CallerKeeps(s: State) {
    && |s.channel| <= STREAM_CHANNEL_CAPACITY
    && (s.acked ==> s.caller == Waiting(false) || s.caller.Returned? || s.caller.Gone?)
    && (s.acked ==> s.channel == [] && s.written == s.passed && !ChunksOpen(s.worker))
    && match s.caller
       case Draining => s.output == Flatten(s.written) && s.passed == s.written + s.channel
       case Writing(chunk) => s.output == Flatten(s.written) && s.passed == s.written + [chunk] + s.channel
       case Waiting(false) => s.acked && s.output == Flatten(s.written)
       case Waiting(true) => !s.acked && s.output <= Flatten(s.passed)
       case Returned(Answered(answer)) => s.acked && s.answer == Some(answer) && s.output == Flatten(s.written)
       case Returned(OutputFailed) => !s.acked && s.output <= Flatten(s.passed)
       case Gone => (s.acked ==> s.output == Flatten(s.written)) && s.output <= Flatten(s.passed)
  }

  predicate Inv(s: State) {
    WorkerKeeps(s) && CallerKeeps(s)
  }

  lemma FlattenPush(chunks: seq<seq<Byte>>, chunk: seq<Byte>, taken: nat)
    requires taken <= |chunk|
    ensures Flatten(chunks + [chunk]) == Flatten(chunks) + chunk
    ensures Flatten(chunks) + chunk[..taken] <= Flatten(chunks + [chunk])
  {
    FlattenAppend(chunks, [chunk]);
    assert Flatten([chunk]) == chunk + Flatten([]);
  }

  lemma FlattenPrefix(a: seq<seq<Byte>>, b: seq<seq<Byte>>)
    requires a <= b
    ensures Flatten(a) <= Flatten(b)
  {
    hide Flatten;
    assert b == a + b[|a|..];
    FlattenAppend(a, b[|a|..]);
  }

  lemma NothingOpen()
    ensures Flatten([]) == []
  {
  }

  lemma InitialInv(stored: Stored)
    ensures Inv(Initial(stored))
  {
    NothingOpen();
  }

  lemma CallerStepInv(s: State, step: Step)
    requires Inv(s) && Enabled(s, step)
    requires step.Recv? || step.Write? || step.Collect? || step.Abandon?
    ensures Inv(Next(s, step))
  {
    hide Flatten, Chunked;
    FlattenPrefix(s.written, s.written + s.channel);
    if s.caller.Writing? {
      var taken := if step.Write? && step.taken.Some? then step.taken.value else 0;
      FlattenPush(s.written, s.caller.chunk, taken);
      FlattenPrefix(s.written + [s.caller.chunk], s.passed);
      FlattenPrefix(s.written, s.passed);
    }
  }

  lemma WorkerStepInv(s: State, step: Step)
    requires Inv(s) && Enabled(s, step)
    requires step.Start? || step.Refuse? || step.Emit? || step.Acknowledge? || step.Reply? || step.Panic?
    ensures Inv(Next(s, step))
  {
    hide Flatten, Chunked;
    if s.worker.Sending? && s.worker.rest != [] {
      assert s.passed + s.worker.rest == s.passed + [s.worker.rest[0]] + s.worker.rest[1..];
      FlattenPrefix(s.passed, s.passed + [s.worker.rest[0]]);
    }
  }

  lemma NextInv(s: State, step: Step)
    requires Inv(s) && Enabled(s, step)
    ensures Inv(Next(s, step)) && Next(s, step).stored == s.stored
  {
    hide Inv, Flatten, Chunked;
    if step.Recv? || step.Write? || step.Collect? || step.Abandon? {
      CallerStepInv(s, step);
    } else {
      WorkerStepInv(s, step);
    }
  }

  // ---- Runs ------------------------------------------------------------------------------------

  predicate Legal(s: State, steps: seq<Step>)
    decreases |steps|
  {
    steps == [] || (Enabled(s, steps[0]) && Legal(Next(s, steps[0]), steps[1..]))
  }

  function Run(s: State, steps: seq<Step>): State
    requires Legal(s, steps)
    decreases |steps|
  {
    if steps == [] then s else Run(Next(s, steps[0]), steps[1..])
  }

  lemma {:induction false} RunInv(s: State, steps: seq<Step>)
    requires Inv(s) && Legal(s, steps)
    ensures Inv(Run(s, steps)) && Run(s, steps).stored == s.stored
    decreases |steps|
  {
    hide Inv, Next, Enabled;
    if steps != [] {
      NextInv(s, steps[0]);
      RunInv(Next(s, steps[0]), steps[1..]);
    }
  }

  /** What holds at every moment of every run, whatever the writer, the storage and the caller's fate. */
  lemma LoadSafety(stored: Stored, steps: seq<Step>)
    requires Legal(Initial(stored), steps)
    ensures var s := Run(Initial(stored), steps);
      // A file that is missing or does not validate produces no output at all; a valid one only its payload.
      && (!stored.Valid? ==> s.output == [])
      && (stored.Valid? ==> s.output <= stored.payload)
      // Success means that the whole payload has been written out, or that there is no blob.
      && (s.caller.Returned? && s.caller.outcome.Answered? && s.caller.outcome.answer.Loaded? ==>
            var size := s.caller.outcome.answer.size;
            if size.Some? then stored.Valid? && s.output == stored.payload && size.value == |stored.payload|
            else stored.Absent? && s.output == [])
      // A worker only reports a cancellation to a caller that has stopped listening.
      && (s.answer == Some(Failed(StreamError(StreamCancelled))) ==>
            stored == Rejected(StreamCancelled) || (stored.Valid? && !Listening(s.caller)))
      && |s.channel| <= 2
  {
    hide Legal, Run, Flatten, Chunked;
    InitialInv(stored);
    RunInv(Initial(stored), steps);
    var s := Run(Initial(stored), steps);
    OutputWithinPassed(s);
    if stored.Valid? {
      ChunksMakePayload(stored.payload);
      FlattenPrefix(s.passed, Chunked(stored.payload));
    }
  }

  lemma OutputWithinPassed(s: State)
    requires Inv(s)
    ensures s.output <= Flatten(s.passed)
    ensures s.acked ==> s.output == Flatten(s.passed)
  {
    hide Flatten, Chunked;
    if s.written <= s.passed {
      FlattenPrefix(s.written, s.passed);
    }
  }

  // ---- Progress ----------------------------------------------------------------------------------

  predicate Settled(s: State) {
    (s.caller.Returned? || s.caller.Gone?) && s.worker.Idle?
  }

  /** Steps that need neither a crash nor a change of mind. */
  predicate Willing(step: Step) {
    !step.Abandon? && !step.Refuse? && !step.Panic?
  }

  /** Neither side can be left waiting for the other. */
  lemma NoDeadlock(s: State) returns (step: Step)
    requires Inv(s) && !Settled(s)
    ensures Enabled(s, step) && Willing(step)
  {
    hide Flatten, Chunked;
    if s.caller.Writing? {
      step := Write(None);
    } else if s.worker.Queued? {
      step := Start(true);
    } else if s.worker.Replying? {
      step := Reply;
    } else if s.caller.Draining? {
      if s.worker.Sending? && s.channel == [] {
        step := Emit(true);
      } else {
        step := Recv;
      }
    } else {
      match s.worker
      case Sending(_) => step := Emit(true);
      case AwaitingAck => step := Acknowledge;
      case Idle => step := Collect;
    }
  }

  function CallerWork(caller: Caller): nat {
    match caller
    case Draining => 3
    case Writing(_) => 4
    case Waiting(_) => 2
    case _ => 0
  }

  function ChunkCount(stored: Stored): nat {
    if stored.Valid? then |Chunked(stored.payload)| else 0
  }

  function WorkerWork(s: State): nat {
    match s.worker
    case Queued => 3 * ChunkCount(s.stored) + 7
    case Sending(rest) => 3 * |rest| + 6
    case AwaitingAck => 4
    case Replying(_) => 2
    case Idle => 0
  }

  function Work(s: State): nat {
    CallerWork(s.caller) + 2 * |s.channel| + WorkerWork(s)
  }

  lemma StepsShrink(s: State, step: Step)
    requires Enabled(s, step)
    ensures Work(Next(s, step)) < Work(s)
  {
    hide Chunked;
  }

  lemma {:induction false} RunsAreBounded(s: State, steps: seq<Step>)
    requires Legal(s, steps)
    ensures |steps| + Work(Run(s, steps)) <= Work(s)
    decreases |steps|
  {
    hide Work, Next, Enabled;
    if steps != [] {
      StepsShrink(s, steps[0]);
      RunsAreBounded(Next(s, steps[0]), steps[1..]);
    }
  }

  /** Every run that is taken as far as it goes ends with both sides done, within three steps a chunk and ten more. */
  lemma LoadTerminates(stored: Stored, steps: seq<Step>)
    requires Legal(Initial(stored), steps)
    ensures |steps| <= 3 * ChunkCount(stored) + 10
    ensures (forall step :: !Enabled(Run(Initial(stored), steps), step)) ==> Settled(Run(Initial(stored), steps))
  {
    hide Legal, Run, Enabled, Settled, Flatten, Chunked;
    InitialInv(stored);
    var s := Run(Initial(stored), steps);
    RunsAreBounded(Initial(stored), steps);
    RunInv(Initial(stored), steps);
    if !Settled(s) {
      var step := NoDeadlock(s);
    }
  }
}
