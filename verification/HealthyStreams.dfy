/** What the streaming protocols come to when nothing goes wrong, and who is told when something does. */
module HealthyStreams {
  import opened Collections
  import opened Crc32c
  import opened Envelope
  import opened StreamFormat
  import opened Blocking
  import Save = SaveHandshake
  import Load = LoadHandshake

  // ---- Saves ---------------------------------------------------------------------------------

  /** A step in which no reader, no storage and no thread fails, and in which nobody gives up. */
  predicate SavesWell(step: Save.Step) {
    match step
    case ReadData(_) => true
    case ProbeEnd => true
    case Send => true
    case Collect => true
    case Start(ok) => ok
    case Receive(ok) => ok
    case Publish(effect, sync) => effect && sync == Some(true)
    case Reply => true
    case Release => true
    case _ => false
  }

  /** Nothing but success is on its way. */
  predicate SaveHealthy(s: Save.State) {
    && (!s.sender ==> Completed(s.sent))
    && (s.worker.Replying? ==> s.worker.answer == Save.Saved)
    && (s.answer.Some? ==> s.answer.value == Save.Saved)
    && match s.caller
       case Waiting(error) => error.None?
       case Returned(outcome) => outcome == Save.Answered(Save.Saved)
       case Gone => false
       case _ => true
  }

  lemma SaveStaysHealthy(s: Save.State, step: Save.Step)
    requires Save.Inv(s) && SaveHealthy(s) && Save.Enabled(s, step) && SavesWell(step)
    ensures SaveHealthy(Save.Next(s, step))
  {
    hide Sent, Completed, WellCut;
    Save.NextInv(s, step);
    if step.Send? {
      SentPush(s.sent, Save.InHand(s.caller));
    } else if step.Receive? {
      assert Save.WorkerKeeps(Save.Next(s, step));
    }
  }

  lemma {:induction false} SaveRunsHealthy(s: Save.State, steps: seq<Save.Step>)
    requires Save.Inv(s) && SaveHealthy(s) && Save.Legal(s, steps)
    requires forall i :: 0 <= i < |steps| ==> SavesWell(steps[i])
    ensures SaveHealthy(Save.Run(s, steps))
    decreases |steps|
  {
    hide Save.Inv, SaveHealthy, Save.Next, Save.Enabled;
    if steps != [] {
      SaveStaysHealthy(s, steps[0]);
      Save.NextInv(s, steps[0]);
      SaveRunsHealthy(Save.Next(s, steps[0]), steps[1..]);
    }
  }

  /** A streaming save in which nothing goes wrong succeeds, with the whole input published. */
  lemma HealthySaveSucceeds(declared: nat, steps: seq<Save.Step>)
    requires Save.Legal(Save.Initial(declared), steps) && Save.Settled(Save.Run(Save.Initial(declared), steps))
    requires forall i :: 0 <= i < |steps| ==> SavesWell(steps[i])
    ensures var s := Save.Run(Save.Initial(declared), steps);
            && s.caller == Save.Returned(Save.Answered(Save.Saved))
            && s.published == Some(s.taken) && |s.taken| == declared
  {
    hide Save.Legal, Save.Run, Save.Inv;
    Save.InitialInv(declared);
    SaveRunsHealthy(Save.Initial(declared), steps);
    Save.SaveSafety(declared, steps);
  }

  /** The answer that a worker has decided on, or has given. */
  predicate Decided(s: Save.State, answer: Save.Answer) {
    s.worker == Save.Replying(answer) || ((s.worker.Replied? || s.worker.Idle?) && s.answer == Some(answer))
  }

  /** Which answer each way to end gives. */
  lemma WorkerDecides(s: Save.State, step: Save.Step)
    requires Save.Inv(s) && Save.Enabled(s, step)
    ensures step == Save.Refuse ==> Decided(Save.Next(s, step), Save.Failed(Save.NotRun))
    ensures step == Save.Start(false) ==> Decided(Save.Next(s, step), Save.Failed(Save.StreamError(Io)))
    ensures step == Save.Receive(false) && s.channel != [] ==>
      Decided(Save.Next(s, step), Save.Failed(Save.StreamError(Io)))
    ensures step.Receive? && s.channel == [] ==>
      Decided(Save.Next(s, step), Save.Failed(Save.StreamError(StreamCancelled)))
    ensures step.Publish? ==>
      Decided(Save.Next(s, step),
              if step.sync == None then Save.Failed(Save.CommitFailed)
              else if step.sync == Some(true) then Save.Saved else Save.Failed(Save.SyncFailed))
    ensures step.Panic? ==> Decided(Save.Next(s, step), Save.Lost)
  {
    hide Sent, Completed, WellCut;
    Save.NextInv(s, step);
    if step == Save.Receive(false) && s.channel != [] {
      assert Save.WorkerKeeps(Save.Next(s, step));
    }
  }

  /** What the caller is to be told: an input error of its own, or the worker's answer. */
  predicate CallerAwaits(s: Save.State, error: Option<SaveReturn>, answer: Save.Answer) {
    match s.caller
    case Waiting(e) => e == error
    case Returned(outcome) => outcome == if error.Some? then Save.InputFailed(error.value) else Save.Answered(answer)
    case Gone => true
    case _ => false
  }

  lemma {:induction false} WaitingEnds(s: Save.State, steps: seq<Save.Step>, error: Option<SaveReturn>,
                                       answer: Save.Answer)
    requires Save.Inv(s) && Save.Legal(s, steps)
    requires CallerAwaits(s, error, answer) && (error.Some? || Decided(s, answer))
    ensures CallerAwaits(Save.Run(s, steps), error, answer)
    decreases |steps|
  {
    hide Save.Inv, Save.Next, Save.Enabled, CallerAwaits, Decided;
    if steps != [] {
      WaitingStep(s, steps[0], error, answer);
      Save.NextInv(s, steps[0]);
      WaitingEnds(Save.Next(s, steps[0]), steps[1..], error, answer);
    }
  }

  lemma WaitingStep(s: Save.State, step: Save.Step, error: Option<SaveReturn>, answer: Save.Answer)
    requires Save.Inv(s) && Save.Enabled(s, step)
    requires CallerAwaits(s, error, answer) && (error.Some? || Decided(s, answer))
    ensures CallerAwaits(Save.Next(s, step), error, answer)
    ensures error.None? ==> Decided(Save.Next(s, step), answer)
  {
    hide Sent, Completed, WellCut;
  }

  /** A caller that found a fault in its input reports that fault, whatever the worker answers; any other caller reports
      what the worker decided on. */
  lemma SaveReports(s: Save.State, steps: seq<Save.Step>, answer: Save.Answer)
    requires Save.Inv(s) && Save.Legal(s, steps) && Save.Settled(Save.Run(s, steps)) && s.caller.Waiting?
    requires s.caller.error.Some? || Decided(s, answer)
    ensures var caller := Save.Run(s, steps).caller;
            || caller.Gone?
            || caller == Save.Returned(if s.caller.error.Some? then Save.InputFailed(s.caller.error.value)
                                       else Save.Answered(answer))
  {
    hide Save.Legal, Save.Run, Save.Inv;
    WaitingEnds(s, steps, s.caller.error, answer);
  }

  // ---- Loads -----------------------------------------------------------------------------------

  predicate LoadsWell(step: Load.Step) {
    match step
    case Recv => true
    case Write(taken) => taken.None?
    case Collect => true
    case Start(ok) => ok
    case Emit(ok) => ok
    case Acknowledge => true
    case Reply => true
    case _ => false
  }

  /** What a load of this file is to be told. */
  function Expected(stored: Load.Stored): Load.Answer {
    match stored
    case Absent => Load.Loaded(None)
    case Rejected(error) => Load.Failed(Load.StreamError(error))
    case Valid(payload) => Load.Loaded(Some(|payload|))
  }

  predicate LoadHealthy(s: Load.State) {
    && (s.worker.Replying? ==> s.worker.answer == Expected(s.stored))
    && (s.answer.Some? ==> s.answer.value == Expected(s.stored))
    && match s.caller
       case Waiting(fault) => !fault
       case Returned(outcome) => outcome == Load.Answered(Expected(s.stored))
       case Gone => false
       case _ => true
  }

  lemma LoadStaysHealthy(s: Load.State, step: Load.Step)
    requires Load.Inv(s) && LoadHealthy(s) && Load.Enabled(s, step) && LoadsWell(step)
    ensures LoadHealthy(Load.Next(s, step))
  {
    hide Flatten, Chunked;
  }

  lemma {:induction false} LoadRunsHealthy(s: Load.State, steps: seq<Load.Step>)
    requires Load.Inv(s) && LoadHealthy(s) && Load.Legal(s, steps)
    requires forall i :: 0 <= i < |steps| ==> LoadsWell(steps[i])
    ensures LoadHealthy(Load.Run(s, steps)) && Load.Run(s, steps).stored == s.stored
    decreases |steps|
  {
    hide Load.Inv, LoadHealthy, Load.Next, Load.Enabled;
    if steps != [] {
      LoadStaysHealthy(s, steps[0]);
      Load.NextInv(s, steps[0]);
      LoadRunsHealthy(Load.Next(s, steps[0]), steps[1..]);
    }
  }

  /** A streaming load in which nothing goes wrong tells what the file is, and writes out the whole payload. */
  lemma HealthyLoadSucceeds(stored: Load.Stored, steps: seq<Load.Step>)
    requires Load.Legal(Load.Initial(stored), steps) && Load.Settled(Load.Run(Load.Initial(stored), steps))
    requires forall i :: 0 <= i < |steps| ==> LoadsWell(steps[i])
    ensures var s := Load.Run(Load.Initial(stored), steps);
            && s.caller == Load.Returned(Load.Answered(Expected(stored)))
            && s.output == if stored.Valid? then stored.payload else []
  {
    hide Load.Legal, Load.Run, Load.Inv;
    Load.InitialInv(stored);
    LoadRunsHealthy(Load.Initial(stored), steps);
    Load.LoadSafety(stored, steps);
  }

  lemma {:induction false} OutputFaultStays(s: Load.State, steps: seq<Load.Step>)
    requires Load.Legal(s, steps)
    requires s.caller == Load.Waiting(true) || s.caller == Load.Returned(Load.OutputFailed) || s.caller.Gone?
    ensures var caller := Load.Run(s, steps).caller;
            caller == Load.Waiting(true) || caller == Load.Returned(Load.OutputFailed) || caller.Gone?
    decreases |steps|
  {
    if steps != [] {
      OutputFaultStays(Load.Next(s, steps[0]), steps[1..]);
    }
  }

  /** A caller whose output failed reports that, whatever the worker answers. */
  lemma LoadReports(s: Load.State, steps: seq<Load.Step>)
    requires Load.Legal(s, steps) && Load.Settled(Load.Run(s, steps)) && s.caller == Load.Waiting(true)
    ensures Load.Run(s, steps).caller == Load.Returned(Load.OutputFailed) || Load.Run(s, steps).caller.Gone?
  {
    hide Load.Legal, Load.Run;
    OutputFaultStays(s, steps);
  }
}
