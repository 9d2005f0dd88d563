/** What the streaming protocols mean for the engine: each settled run is one of the endings it allows an operation. */
module HandshakeMeaning {
  import opened Collections
  import opened Crc32c
  import opened Envelope
  import EngineTypes
  import EngineInvariants
  import EngineSystem
  import Save = SaveHandshake
  import Load = LoadHandshake

  /** An ending the engine allows: as it decides for some fault of storage, refused by the pool, or by a panic; with the
      value that this ending leaves. */
  ghost predicate Ends(operation: EngineTypes.Operation, before: Option<EngineTypes.Blob>,
                       now: Option<EngineTypes.Blob>, fate: EngineTypes.Fate)
  {
    && (fate.Refused? || fate.Unwound? || exists fault :: fate == EngineSystem.Decide(operation, before, fault))
    && now == if EngineSystem.Effective(fate) then EngineSystem.Apply(operation, before).0 else before
  }

  /** The engine's answer for what the worker answers; which error it is does not matter there. */
  function SaveAnswer(answer: Save.Answer): EngineTypes.Answer {
    match answer
    case Saved => EngineTypes.Delivered(EngineTypes.SaveStreamResult(EngineTypes.Ok(())))
    case Failed(NotRun) => EngineTypes.Rejected(EngineTypes.WorkerUnavailable)
    case Failed(_) =>
      EngineTypes.Delivered(EngineTypes.SaveStreamResult(EngineTypes.Err(EngineTypes.StorageFailure(0))))
    case Lost => EngineTypes.Dropped
  }

  function SaveFate(s: Save.State, before: Option<EngineTypes.Blob>): EngineTypes.Fate
    requires s.answer.Some?
  {
    var operation := EngineTypes.SaveStream(s.taken);
    match s.answer.value
    case Saved => EngineSystem.Decide(operation, before, EngineSystem.NoFault)
    case Failed(NotRun) => EngineTypes.Refused
    case Failed(_) =>
      EngineSystem.Decide(operation, before,
        if s.published.Some? then EngineSystem.After(0) else EngineSystem.Before(0))
    case Lost => EngineTypes.Unwound(s.published.Some?)
  }

  /** However a streaming save ends, the value of its key and the worker's answer are those of an ending that the engine
      allows for saving the bytes that were read. */
  lemma SaveRunMeetsEngine(declared: nat, steps: seq<Save.Step>, before: Option<EngineTypes.Blob>)
    requires Save.Legal(Save.Initial(declared), steps) && Save.Settled(Save.Run(Save.Initial(declared), steps))
    ensures var s := Save.Run(Save.Initial(declared), steps);
            && s.answer.Some?
            && Ends(EngineTypes.SaveStream(s.taken), before, if s.published.Some? then s.published else before,
                    SaveFate(s, before))
            && EngineInvariants.AnswerOf(SaveFate(s, before)) == SaveAnswer(s.answer.value)
  {
    hide Save.Legal, Save.Run;
    Save.InitialInv(declared);
    Save.RunInv(Save.Initial(declared), steps);
  }

  function LoadAnswer(answer: Load.Answer): EngineTypes.Answer {
    match answer
    case Loaded(size) => EngineTypes.Delivered(EngineTypes.LoadStreamResult(EngineTypes.Ok(size)))
    case Failed(NotRun) => EngineTypes.Rejected(EngineTypes.WorkerUnavailable)
    case Failed(_) =>
      EngineTypes.Delivered(EngineTypes.LoadStreamResult(EngineTypes.Err(EngineTypes.StorageFailure(0))))
    case Lost => EngineTypes.Dropped
  }

  function LoadFate(answer: Load.Answer, value: Option<EngineTypes.Blob>): EngineTypes.Fate {
    var operation := EngineTypes.LoadStream(true);
    match answer
    case Loaded(_) => EngineSystem.Decide(operation, value, EngineSystem.NoFault)
    case Failed(NotRun) => EngineTypes.Refused
    case Failed(_) => EngineSystem.Decide(operation, value, EngineSystem.Before(0))
    case Lost => EngineTypes.Unwound(false)
  }

  /** What a streaming load finds of a value. */
  function StoredAs(value: Option<EngineTypes.Blob>): Load.Stored {
    if value.Some? then Load.Valid(value.value) else Load.Absent
  }

  /** However a streaming load of a sound value ends, the value stays and the worker's answer is that of an ending that
      the engine allows. */
  lemma LoadRunMeetsEngine(value: Option<EngineTypes.Blob>, steps: seq<Load.Step>)
    requires Load.Legal(Load.Initial(StoredAs(value)), steps)
    requires Load.Settled(Load.Run(Load.Initial(StoredAs(value)), steps))
    ensures var s := Load.Run(Load.Initial(StoredAs(value)), steps);
            && s.answer.Some?
            && Ends(EngineTypes.LoadStream(true), value, value, LoadFate(s.answer.value, value))
            && EngineInvariants.AnswerOf(LoadFate(s.answer.value, value)) == LoadAnswer(s.answer.value)
  {
    hide Load.Legal, Load.Run;
    Load.InitialInv(StoredAs(value));
    Load.RunInv(Load.Initial(StoredAs(value)), steps);
  }
}
