/** A streaming save as a protocol between the caller and a worker over a channel of two messages. */
module SaveHandshake {
  import opened Collections
  import opened Crc32c
  import opened Envelope
  import opened StreamFormat
  import opened Blocking

  datatype WorkerError = NotRun | StreamError(error: BlobError) | CommitFailed | SyncFailed

  /** What arrives on the reply channel; it is lost when the operation is dropped without a reply. */
  datatype Answer = Saved | Failed(error: WorkerError) | Lost

  datatype CallerOutcome = InputFailed(error: SaveReturn) | Answered(answer: Answer)

  datatype Caller =
    | Reading
    | Sending(chunk: seq<Byte>)
    | Completing
    | Waiting(error: Option<SaveReturn>)
    | Returned(outcome: CallerOutcome)
    | Gone

  datatype Worker =
    | Queued
    | Receiving(got: seq<Byte>)
    | Committing(whole: seq<Byte>)
    | Replying(answer: Answer)
    | Replied
    | Idle

  /** The last four fields are history: bytes read, end of input seen, messages sent and received, payload published. */
  datatype State = State(
    declared: nat,
    caller: Caller,
    worker: Worker,
    channel: seq<Message>,
    sender: bool,
    receiver: bool,
    answer: Option<Answer>,
    taken: seq<Byte>,
    eof: bool,
    sent: seq<Message>,
    received: seq<Message>,
    published: Option<seq<Byte>>)

  datatype Step =
    // The caller, and what its reader does
    | ReadData(bytes: seq<Byte>)
    | ReadEnd
    | ReadFail
    | ProbeEnd
    | ProbeData
    | ProbeFail
    | Send
    | Collect
    // The non-blocking facade: an answer pre-empts reading, and the caller may be dropped
    | Preempt
    | Abandon
    // The worker, and what its storage does
    | Start(ok: bool)
    | Refuse
    | Receive(ok: bool)
    | Publish(effect: bool, sync: Option<bool>)
    | Panic(effect: bool)
    | Reply
    | Release

  function Initial(declared: nat): State {
    State(declared, Reading, Queued, [], true, true, None, [], false, [], [], None)
  }

  predicate InputLeft(s: State) {
    |s.taken| < s.declared
  }

  predicate CanSend(s: State) {
    !s.receiver || |s.channel| < STREAM_CHANNEL_CAPACITY
  }

  predicate Enabled(s: State, step: Step) {
    match step
    case ReadData(bytes) =>
      s.caller.Reading? && 0 < |bytes| <= STREAM_CHUNK_SIZE && |s.taken| + |bytes| <= s.declared
    case ReadEnd => s.caller.Reading? && InputLeft(s)
    case ReadFail => s.caller.Reading? && InputLeft(s)
    case ProbeEnd => s.caller.Reading? && !InputLeft(s)
    case ProbeData => s.caller.Reading? && !InputLeft(s)
    case ProbeFail => s.caller.Reading? && !InputLeft(s)
    case Send => (s.caller.Sending? || s.caller.Completing?) && CanSend(s)
    case Collect => s.caller.Waiting? && s.answer.Some?
    case Preempt => s.caller.Reading? && s.answer.Some?
    case Abandon => !s.caller.Returned? && !s.caller.Gone?
    case Start(_) => s.worker.Queued?
    case Refuse => s.worker.Queued?
    case Receive(_) => s.worker.Receiving? && (s.channel != [] || !s.sender)
    case Publish(effect, sync) => s.worker.Committing? && (sync.Some? ==> effect)
    case Panic(effect) => (s.worker.Receiving? && !effect) || s.worker.Committing?
    case Reply => s.worker.Replying?
    case Release => s.worker.Replied?
  }

  function GiveUp(s: State, error: SaveReturn): State {
    s.(caller := Waiting(Some(error)), sender := false)
  }

  /** The message the caller has in hand. */
  function InHand(caller: Caller): Message
    requires caller.Sending? || caller.Completing?
  {
    if caller.Sending? then Chunk(caller.chunk) else Complete
  }

  function SendNext(s: State): State
    requires s.caller.Sending? || s.caller.Completing?
  {
    var message := InHand(s.caller);
    if !s.receiver then s.(caller := Waiting(None))
    else
      var t := s.(channel := s.channel + [message], sent := s.sent + [message]);
      if message.Chunk? then t.(caller := Reading) else t.(caller := Waiting(None), sender := false)
  }

  function Take(s: State, message: Message, ok: bool): State
    requires s.worker.Receiving? && s.channel != []
  {
    var t := s.(channel := s.channel[1..], received := s.received + [message]);
    match message
    case Chunk(bytes) =>
      if |s.worker.got| + |bytes| > s.declared then
        t.(worker := Replying(Failed(StreamError(InputHasTrailingData(s.declared)))))
      else if !ok then t.(worker := Replying(Failed(StreamError(Io))))
      else t.(worker := Receiving(s.worker.got + bytes))
    case Complete =>
      if |s.worker.got| != s.declared then
        t.(worker := Replying(Failed(StreamError(InputEndedEarly(s.declared, |s.worker.got|)))))
      else if !ok then t.(worker := Replying(Failed(StreamError(Io))))
      else t.(worker := Committing(s.worker.got))
  }

  function Next(s: State, step: Step): State
    requires Enabled(s, step)
  {
    match step
    case ReadData(bytes) => s.(caller := Sending(bytes), taken := s.taken + bytes)
    case ReadEnd => GiveUp(s, EndedEarly(s.declared, |s.taken|))
    case ReadFail => GiveUp(s, InputFault)
    case ProbeEnd => s.(caller := Completing, eof := true)
    case ProbeData => GiveUp(s, TrailingInput(s.declared))
    case ProbeFail => GiveUp(s, InputFault)
    case Send => SendNext(s)
    case Collect =>
      s.(sender := false,
         caller := Returned(
           if s.caller.error.Some? then InputFailed(s.caller.error.value) else Answered(s.answer.value)))
    case Preempt => s.(sender := false, caller := Returned(Answered(s.answer.value)))
    case Abandon => s.(sender := false, caller := Gone)
    case Start(ok) => s.(worker := if ok then Receiving([]) else Replying(Failed(StreamError(Io))))
    case Refuse => s.(worker := Replying(Failed(NotRun)))
    case Receive(ok) =>
      if s.channel != [] then Take(s, s.channel[0], ok)
      else s.(worker := Replying(Failed(StreamError(StreamCancelled))))
    case Publish(effect, sync) =>
      s.(published := if effect then Some(s.worker.whole) else s.published,
         worker := Replying(
           if sync == Some(true) then Saved else if sync.Some? then Failed(SyncFailed) else Failed(CommitFailed)))
    case Panic(effect) =>
      s.(published := if effect then Some(s.worker.whole) else s.published,
         worker := Idle, receiver := false, channel := [], answer := Some(Lost))
    case Reply => s.(worker := Replied, answer := Some(s.worker.answer))
    case Release => s.(worker := Idle, receiver := false, channel := [])
  }

  // ---- The invariant -----------------------------------------------------------------------

  /** What the caller has sent, against what it has read. */
  predicate CallerKeeps(s: State) {
    && |s.taken| <= s.declared
    && (s.eof ==> |s.taken| == s.declared)
    && match s.caller
       case Reading => s.sender && !Completed(s.sent) && Sent(s.sent) == s.taken && !s.eof
       case Sending(chunk) =>
         s.sender && !s.eof && !Completed(s.sent) && Sent(s.sent) + chunk == s.taken && 0 < |chunk| <= STREAM_CHUNK_SIZE
       case Completing => s.sender && !Completed(s.sent) && Sent(s.sent) == s.taken && s.eof
       case Waiting(None) => s.sender ==> !s.receiver && !Completed(s.sent)
       case Waiting(Some(error)) => !s.sender && !Completed(s.sent) && Blames(s, error)
       case Returned(InputFailed(error)) => !s.sender && !Completed(s.sent) && Blames(s, error)
       case Returned(Answered(answer)) => !s.sender && s.answer == Some(answer)
       case Gone => !s.sender
  }

  /** The input error says what was read. */
  predicate Blames(s: State, error: SaveReturn) {
    match error
    case EndedEarly(declared, actual) => declared == s.declared && actual == |s.taken| < declared
    case TrailingInput(declared) => declared == s.declared == |s.taken|
    case InputFault => true
    case EngineAnswer => false
  }

  /** The completion marker vouches for the whole input. */
  predicate MarkerVouches(s: State) {
    && Sent(s.sent) <= s.taken && WellCut(s.sent)
    && (Completed(s.sent) ==> s.eof && Sent(s.sent) == s.taken && !s.sender)
  }

  predicate ChannelKeeps(s: State) {
    && |s.channel| <= STREAM_CHANNEL_CAPACITY && s.received <= s.sent
    && (s.receiver ==> s.sent == s.received + s.channel)
    && (s.receiver <==> !s.worker.Idle?)
    && (s.answer.Some? <==> s.worker.Replied? || s.worker.Idle?)
  }

  /** The worker holds exactly what it has received, and answers as the message stream demands. */
  predicate WorkerKeeps(s: State) {
    match s.worker
    case Queued => s.received == [] && s.published.None?
    case Receiving(got) => !Completed(s.received) && Sent(s.received) == got && s.published.None?
    case Committing(whole) =>
      Completed(s.received) && Sent(s.received) == whole && |whole| == s.declared && s.published.None?
    case Replying(answer) => Justified(s, answer)
    case _ => s.answer.Some? ==> Justified(s, s.answer.value)
  }

  predicate Justified(s: State, answer: Answer) {
    && (s.published.Some? ==> Completed(s.sent) && s.published.value == s.taken)
    && match answer
       case Saved => s.published == Some(s.taken) && Completed(s.sent)
       case Failed(SyncFailed) => s.published == Some(s.taken) && Completed(s.sent)
       case Failed(NotRun) => s.published.None?
       case Failed(StreamError(error)) =>
         && s.published.None?
         && (error == Io || (error == StreamCancelled && !Completed(s.sent) && !s.sender))
       case _ => true
  }

  predicate Inv(s: State) {
    CallerKeeps(s) && MarkerVouches(s) && ChannelKeeps(s) && WorkerKeeps(s)
  }

  lemma {:induction false} SentAppend(a: seq<Message>, b: seq<Message>)
    ensures Completed(a) ==> Completed(a + b) && Sent(a + b) == Sent(a)
    ensures !Completed(a) ==> Sent(a + b) == Sent(a) + Sent(b) && (Completed(a + b) <==> Completed(b))
  {
    if a == [] {
      assert a + b == b;
    } else {
      assert (a + b)[0] == a[0] && (a + b)[1..] == a[1..] + b;
      SentAppend(a[1..], b);
    }
  }

  lemma InitialInv(declared: nat)
    ensures Inv(Initial(declared))
  {
  }

  lemma CallerStepInv(s: State, step: Step)
    requires Inv(s) && Enabled(s, step)
    requires step.ReadData? || step.ReadEnd? || step.ReadFail? || step.ProbeEnd? || step.ProbeData? || step.ProbeFail?
          || step.Collect? || step.Preempt? || step.Abandon?
    ensures Inv(Next(s, step))
  {
    hide Sent, Completed, WellCut;
  }

  lemma SendInv(s: State)
    requires Inv(s) && Enabled(s, Send)
    ensures Inv(Next(s, Send))
  {
    hide Sent, Completed, WellCut;
    SentPush(s.sent, InHand(s.caller));
    CutPush(s.sent, InHand(s.caller));
  }

  lemma ReceiveInv(s: State, ok: bool)
    requires Inv(s) && Enabled(s, Receive(ok))
    ensures Inv(Next(s, Receive(ok)))
  {
    hide Sent, Completed, WellCut;
    if s.channel != [] {
      var message, rest := s.channel[0], s.channel[1..];
      assert s.sent == s.received + [message] + rest;
      SentPush(s.received, message);
      SentAppend(s.received + [message], rest);
    } else {
      assert s.sent == s.received;
    }
  }

  lemma WorkerStepInv(s: State, step: Step)
    requires Inv(s) && Enabled(s, step)
    requires step.Start? || step.Refuse? || step.Publish? || step.Panic? || step.Reply? || step.Release?
    ensures Inv(Next(s, step))
  {
    hide Sent, Completed, WellCut;
    if s.worker.Committing? {
      SentAppend(s.received, s.channel);
    }
    NothingSent();
  }

  lemma NextInv(s: State, step: Step)
    requires Inv(s) && Enabled(s, step)
    ensures Inv(Next(s, step))
  {
    hide Next, Inv, Enabled;
    match step
    case Send => SendInv(s);
    case Receive(ok) => ReceiveInv(s, ok);
    case Start(_) => WorkerStepInv(s, step);
    case Refuse => WorkerStepInv(s, step);
    case Publish(_, _) => WorkerStepInv(s, step);
    case Panic(_) => WorkerStepInv(s, step);
    case Reply => WorkerStepInv(s, step);
    case Release => WorkerStepInv(s, step);
    case _ => CallerStepInv(s, step);
  }

  // ---- Runs ------------------------------------------------------------------------------------

  predicate Legal(s: State, steps: seq<Step>)
    decreases |steps|
  {
    steps == [] || (Enabled(s, steps[0]) && Legal(Next(s, steps[0]), steps[1..]))
  }

  function Run(s: State, steps: seq<Step>): State
    requires Legal(s, steps)
    decreases |steps|
  {
    if steps == [] then s else Run(Next(s, steps[0]), steps[1..])
  }

  lemma SameLength(s: State, step: Step)
    requires Enabled(s, step)
    ensures Next(s, step).declared == s.declared
  {
  }

  lemma {:induction false} RunInv(s: State, steps: seq<Step>)
    requires Inv(s) && Legal(s, steps)
    ensures Inv(Run(s, steps)) && Run(s, steps).declared == s.declared
    decreases |steps|
  {
    hide Inv, Next, Enabled;
    if steps != [] {
      NextInv(s, steps[0]);
      SameLength(s, steps[0]);
      RunInv(Next(s, steps[0]), steps[1..]);
    }
  }

  /** What holds at every moment of every run, whatever the reader, the storage and the caller's fate. */
  lemma SaveSafety(declared: nat, steps: seq<Step>)
    requires Legal(Initial(declared), steps)
    ensures var s := Run(Initial(declared), steps);
      // The marker is sent only after exactly the declared bytes and a confirmed end of input.
      && (Completed(s.sent) ==> s.eof && |s.taken| == declared && Sent(s.sent) == s.taken)
      // Only the whole input is ever published, and only once the marker is out.
      && (s.published.Some? ==> Completed(s.sent) && s.published == Some(s.taken))
      // Success means that the input is the blob.
      && (s.caller == Returned(Answered(Saved)) ==> s.published == Some(s.taken) && |s.taken| == declared && s.eof)
      // An input error means that nothing was published, and it tells what was read.
      && (s.caller.Returned? && s.caller.outcome.InputFailed? ==>
           s.published.None? && Blames(s, s.caller.outcome.error))
      && WellCut(s.sent) && |s.channel| <= 2
  {
    hide Legal, Run, Sent, Completed, WellCut;
    InitialInv(declared);
    RunInv(Initial(declared), steps);
  }

  lemma {:induction false} SentFrozen(s: State, steps: seq<Step>)
    requires Inv(s) && Legal(s, steps) && !s.sender
    ensures Run(s, steps).sent == s.sent && !Run(s, steps).sender
    decreases |steps|
  {
    hide Inv;
    if steps != [] {
      NextInv(s, steps[0]);
      assert Next(s, steps[0]).sent == s.sent && !Next(s, steps[0]).sender by {
        SenderClosed(s, steps[0]);
      }
      SentFrozen(Next(s, steps[0]), steps[1..]);
    }
  }

  lemma SenderClosed(s: State, step: Step)
    requires Inv(s) && Enabled(s, step) && !s.sender
    ensures Next(s, step).sent == s.sent && !Next(s, step).sender
  {
    hide Sent, Completed, WellCut;
  }

  /** A channel closed before the marker, by an input error or by dropping the caller, never leads to a commit. */
  lemma ClosedEarlyNeverCommits(s: State, steps: seq<Step>)
    requires Inv(s) && Legal(s, steps) && !s.sender && !Completed(s.sent)
    ensures Run(s, steps).published.None?
  {
    hide Sent, Completed, WellCut, Run, Legal;
    SentFrozen(s, steps);
    RunInv(s, steps);
  }

  /** Once the marker is out, nothing the caller does cancels the save. */
  lemma MarkerPreventsCancellation(s: State, steps: seq<Step>)
    requires Inv(s) && Legal(s, steps) && Completed(s.sent)
    ensures Run(s, steps).answer != Some(Failed(StreamError(StreamCancelled)))
  {
    hide Sent, Completed, WellCut, Run, Legal;
    assert !s.sender;
    SentFrozen(s, steps);
    RunInv(s, steps);
  }

  /** The worker goes wrong exactly as the whole-stream verdict on what it received, and never blames the input. */
  lemma WorkerFollowsVerdict(s: State)
    requires Inv(s)
    ensures s.worker.Committing? ==>
      Verdict(s.declared, s.received) == Success(()) && s.worker.whole == Sent(s.received) == s.taken
    ensures s.answer.Some? && s.answer.value.Failed? && s.answer.value.error.StreamError? ==>
      var error := s.answer.value.error.error;
      error == Io || (error == StreamCancelled && Verdict(s.declared, s.received) == Failure(StreamCancelled))
  {
    hide WellCut;
    var rest := s.sent[|s.received|..];
    assert s.sent == s.received + rest;
    SentAppend(s.received, rest);
  }

  // ---- Progress ----------------------------------------------------------------------------------

  predicate Settled(s: State) {
    (s.caller.Returned? || s.caller.Gone?) && s.worker.Idle?
  }

  /** Steps that need neither a crash nor a change of mind. */
  predicate Willing(step: Step) {
    !step.Abandon? && !step.Refuse? && !step.Panic? && !step.Preempt?
  }

  /** Neither side can be left waiting for the other. */
  lemma NoDeadlock(s: State) returns (step: Step)
    requires Inv(s) && !Settled(s)
    ensures Enabled(s, step) && Willing(step)
  {
    hide Sent, Completed, WellCut;
    match s.worker {
      case Queued => step := Start(true);
      case Committing(_) => step := Publish(true, Some(true));
      case Replying(_) => step := Reply;
      case Replied => step := Release;
      case Receiving(_) =>
        if s.channel != [] || !s.sender {
          step := Receive(true);
        } else if s.caller.Reading? {
          step := if InputLeft(s) then ReadEnd else ProbeEnd;
        } else {
          step := Send;
        }
      case Idle =>
        if s.caller.Reading? {
          step := if InputLeft(s) then ReadEnd else ProbeEnd;
        } else if s.caller.Waiting? {
          step := Collect;
        } else {
          step := Send;
        }
    }
  }

  function CallerWork(s: State): nat {
    match s.caller
    case Reading => 4 * Remaining(s) + 6
    case Sending(_) => 4 * Remaining(s) + 8
    case Completing => 5
    case Waiting(_) => 2
    case _ => 0
  }

  function Remaining(s: State): nat {
    if |s.taken| < s.declared then s.declared - |s.taken| else 0
  }

  function WorkerWork(worker: Worker): nat {
    match worker
    case Queued => 5
    case Receiving(_) => 4
    case Committing(_) => 3
    case Replying(_) => 2
    case Replied => 1
    case Idle => 0
  }

  function Work(s: State): nat {
    CallerWork(s) + |s.channel| + WorkerWork(s.worker)
  }

  lemma CallerShrinks(s: State, step: Step)
    requires Enabled(s, step)
    requires step.ReadData? || step.ReadEnd? || step.ReadFail? || step.ProbeEnd? || step.ProbeData? || step.ProbeFail?
          || step.Collect? || step.Preempt? || step.Abandon? || step.Send?
    ensures Work(Next(s, step)) < Work(s)
  {
    hide WorkerWork;
  }

  lemma WorkerShrinks(s: State, step: Step)
    requires Enabled(s, step)
    requires step.Receive? || step.Start? || step.Refuse? || step.Publish? || step.Panic? || step.Reply?
          || step.Release?
    ensures Work(Next(s, step)) < Work(s)
  {
    hide CallerWork;
    assert CallerWork(Next(s, step)) == CallerWork(s) by {
      SameCaller(s, step);
    }
  }

  lemma SameCaller(s: State, step: Step)
    requires Enabled(s, step)
    requires step.Receive? || step.Start? || step.Refuse? || step.Publish? || step.Panic? || step.Reply?
          || step.Release?
    ensures CallerWork(Next(s, step)) == CallerWork(s)
  {
  }

  lemma StepsShrink(s: State, step: Step)
    requires Enabled(s, step)
    ensures Work(Next(s, step)) < Work(s)
  {
    hide Work, Next, Enabled;
    if step.Receive? || step.Start? || step.Refuse? || step.Publish? || step.Panic? || step.Reply? || step.Release? {
      WorkerShrinks(s, step);
    } else {
      CallerShrinks(s, step);
    }
  }

  /** Every run is finite, and short: a few steps for each byte at most. */
  lemma {:induction false} RunsAreBounded(s: State, steps: seq<Step>)
    requires Legal(s, steps)
    ensures |steps| + Work(Run(s, steps)) <= Work(s)
    decreases |steps|
  {
    hide Work, Next, Enabled;
    if steps != [] {
      StepsShrink(s, steps[0]);
      RunsAreBounded(Next(s, steps[0]), steps[1..]);
    }
  }

  /** So every run that is taken as far as it goes ends with both sides done, within 4n + 11 steps. */
  lemma SaveTerminates(declared: nat, steps: seq<Step>)
    requires Legal(Initial(declared), steps)
    ensures |steps| <= 4 * declared + 11
    ensures (forall step :: !Enabled(Run(Initial(declared), steps), step)) ==> Settled(Run(Initial(declared), steps))
  {
    hide Legal, Run, Enabled, Inv, Settled;
    var s := Run(Initial(declared), steps);
    RunsAreBounded(Initial(declared), steps);
    InitialInv(declared);
    RunInv(Initial(declared), steps);
    if !Settled(s) {
      var step := NoDeadlock(s);
    }
  }

  // ---- The caller's loop is one side of the protocol ---------------------------------------------

  lemma {:induction false} RunAppend(s: State, first: seq<Step>, second: seq<Step>)
    requires Legal(s, first) && Legal(Run(s, first), second)
    ensures Legal(s, first + second) && Run(s, first + second) == Run(Run(s, first), second)
    decreases |first|
  {
    hide Next, Enabled;
    if first == [] {
      assert first + second == second;
    } else {
      assert (first + second)[1..] == first[1..] + second;
      RunAppend(Next(s, first[0]), first[1..], second);
    }
  }

  /** All these chunks have been read, sent and received, and nothing else has happened. */
  function Midway(declared: nat, messages: seq<Message>): State {
    var bytes := Sent(messages);
    State(declared, Reading, Receiving(bytes), [], true, true, None, bytes, false, messages, messages, None)
  }

  lemma OneStep(s: State, step: Step)
    requires Enabled(s, step)
    ensures Legal(s, [step]) && Run(s, [step]) == Next(s, step)
  {
    hide Next, Enabled;
    assert [step][1..] == [];
    assert Legal(Next(s, step), []) && Run(Next(s, step), []) == Next(s, step);
  }

  lemma ThreeSteps(s: State, a: Step, b: Step, c: Step)
    requires Enabled(s, a) && Enabled(Next(s, a), b) && Enabled(Next(Next(s, a), b), c)
    ensures Legal(s, [a, b, c]) && Run(s, [a, b, c]) == Next(Next(Next(s, a), b), c)
  {
    hide Next, Enabled;
    OneStep(s, a);
    OneStep(Next(s, a), b);
    OneStep(Next(Next(s, a), b), c);
    RunAppend(s, [a], [b]);
    assert [a] + [b] == [a, b];
    RunAppend(s, [a, b], [c]);
    assert [a, b] + [c] == [a, b, c];
  }

  lemma NextChunk(declared: nat, messages: seq<Message>, bytes: seq<Byte>)
    requires 0 < |bytes| <= STREAM_CHUNK_SIZE && |Sent(messages)| + |bytes| <= declared && !Completed(messages)
    ensures Legal(Midway(declared, messages), [ReadData(bytes), Send, Receive(true)])
    ensures Run(Midway(declared, messages), [ReadData(bytes), Send, Receive(true)])
         == Midway(declared, messages + [Chunk(bytes)])
  {
    hide Sent, Completed;
    SentPush(messages, Chunk(bytes));
    ThreeSteps(Midway(declared, messages), ReadData(bytes), Send, Receive(true));
  }

  /** Any well-cut chunks that fit can be sent one after the other. */
  lemma {:induction false} ReachMidway(declared: nat, messages: seq<Message>) returns (steps: seq<Step>)
    requires WellCut(messages) && AllChunks(messages) && |Sent(messages)| <= declared
    ensures Legal(Initial(declared), steps) && Run(Initial(declared), steps) == Midway(declared, messages)
    ensures !Completed(messages)
    decreases |messages|
  {
    hide Next, Enabled, Legal, Run;
    if messages == [] {
      StartsMidway(declared);
      OneStep(Initial(declared), Start(true));
      steps := [Start(true)];
    } else {
      var front, last := messages[..|messages| - 1], messages[|messages| - 1];
      assert messages == front + [last];
      ChunksFront(front, last);
      steps := ReachMidway(declared, front);
      SentPush(front, last);
      NextChunk(declared, front, last.bytes);
      RunAppend(Initial(declared), steps, [ReadData(last.bytes), Send, Receive(true)]);
      steps := steps + [ReadData(last.bytes), Send, Receive(true)];
    }
  }

  lemma StartsMidway(declared: nat)
    ensures Enabled(Initial(declared), Start(true)) && Next(Initial(declared), Start(true)) == Midway(declared, [])
  {
  }

  lemma {:induction false} ChunksFront(front: seq<Message>, last: Message)
    requires WellCut(front + [last]) && AllChunks(front + [last])
    ensures WellCut(front) && AllChunks(front) && last.Chunk? && 0 < |last.bytes| <= STREAM_CHUNK_SIZE
    ensures |Sent(front)| <= |Sent(front + [last])|
  {
    var all := front + [last];
    assert forall i :: 0 <= i < |front| ==> front[i] == all[i];
    assert all[|front|] == last;
    SentAppend(front, [last]);
  }

  lemma MarkerFront(sent: seq<Message>)
    requires WellCut(sent) && MarkerLast(sent) && Completed(sent)
    ensures sent != [] && sent[|sent| - 1] == Complete
    ensures var front := sent[..|sent| - 1]; WellCut(front) && AllChunks(front) && Sent(front) == Sent(sent)
  {
    var front, last := sent[..|sent| - 1], sent[|sent| - 1];
    assert sent == front + [last];
    ChunksOnly(front);
    SentPush(front, last);
  }

  lemma {:induction false} ChunksOnly(messages: seq<Message>)
    requires AllChunks(messages)
    ensures !Completed(messages)
  {
    if messages != [] {
      ChunksOnly(messages[1..]);
    }
  }

  lemma {:induction false} NoMarkerOnlyChunks(messages: seq<Message>)
    requires MarkerLast(messages) && !Completed(messages)
    ensures AllChunks(messages)
  {
    if messages != [] {
      NoMarkerOnlyChunks(messages[1..]);
    }
  }

  /** The state in which the caller's loop ends: waiting for the engine's answer, with its own error to report if it
      has one. */
  predicate LoopEnds(s: State, source: Source, sent: seq<Message>, r: SaveReturn) {
    && s.sent == sent && s.taken <= source.data
    && s.caller == Waiting(if r.EngineAnswer? then None else Some(r))
  }

  /** Whatever a streaming save sends and returns, some run of the protocol sends and returns it. */
  lemma SaveFromIsARun(source: Source, declared: nat, sent: seq<Message>, r: SaveReturn) returns (steps: seq<Step>)
    requires SavedFrom(source, declared, sent, r)
    ensures Legal(Initial(declared), steps) && LoopEnds(Run(Initial(declared), steps), source, sent, r)
  {
    hide Next, Enabled, Legal, Run, LoopEnds;
    var more: seq<Step>;
    if Completed(sent) {
      MarkerFront(sent);
      var front := sent[..|sent| - 1];
      steps := ReachMidway(declared, front);
      more := MarkerRun(source, declared, front);
      assert front + [Complete] == sent;
      RunAppend(Initial(declared), steps, more);
    } else {
      NoMarkerOnlyChunks(sent);
      steps := ReachMidway(declared, sent);
      if r.EngineAnswer? {
        more := HangUpRun(source, declared, sent);
      } else {
        more := ProblemRun(source, declared, sent, r);
      }
      RunAppend(Initial(declared), steps, more);
    }
    steps := steps + more;
  }

  lemma MarkerRun(source: Source, declared: nat, front: seq<Message>) returns (more: seq<Step>)
    requires !Completed(front) && |Sent(front)| == declared && Sent(front) <= source.data
    ensures Legal(Midway(declared, front), more)
    ensures LoopEnds(Run(Midway(declared, front), more), source, front + [Complete], EngineAnswer)
  {
    hide Sent, Completed, Legal, Run;
    var s := Midway(declared, front);
    more := [ProbeEnd, Send];
    OneStep(s, ProbeEnd);
    OneStep(Next(s, ProbeEnd), Send);
    RunAppend(s, [ProbeEnd], [Send]);
    assert [ProbeEnd] + [Send] == more;
  }

  /** The worker is gone when the next chunk, or the marker, is sent. */
  lemma HangUpRun(source: Source, declared: nat, sent: seq<Message>) returns (more: seq<Step>)
    requires !Completed(sent) && Sent(sent) <= source.data[..Usable(source, declared)]
    requires |Sent(sent)| < Usable(source, declared) || |Sent(sent)| == declared
    ensures Legal(Midway(declared, sent), more)
    ensures LoopEnds(Run(Midway(declared, sent), more), source, sent, EngineAnswer)
  {
    hide Sent, Completed, Legal, Run;
    var s, n := Midway(declared, sent), |Sent(sent)|;
    if n < Usable(source, declared) {
      var chunk := source.data[n..n + 1];
      assert Sent(sent) + chunk == source.data[..n + 1];
      more := [ReadData(chunk), Panic(false), Send];
      ThreeSteps(s, ReadData(chunk), Panic(false), Send);
    } else {
      more := [ProbeEnd, Panic(false), Send];
      ThreeSteps(s, ProbeEnd, Panic(false), Send);
    }
  }

  lemma ProblemRun(source: Source, declared: nat, sent: seq<Message>, r: SaveReturn) returns (more: seq<Step>)
    requires !Completed(sent) && Sent(sent) == source.data[..Usable(source, declared)]
    requires !r.EngineAnswer? && r == InputProblem(source, declared)
    ensures Legal(Midway(declared, sent), more) && LoopEnds(Run(Midway(declared, sent), more), source, sent, r)
  {
    hide Sent, Completed, Legal, Run;
    var step :=
      match r
      case EndedEarly(_, _) => ReadEnd
      case TrailingInput(_) => ProbeData
      case _ => if Available(source) < declared then ReadFail else ProbeFail;
    OneStep(Midway(declared, sent), step);
    more := [step];
  }
}
