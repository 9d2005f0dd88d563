/** Messages, queue entries and outcomes of the executor-neutral engine. */
module EngineTypes {
  import opened Collections

  /** The 32-byte digest that identifies a key, read as a number. */
  type KeyHash = nat
  type Blob = seq<bv8>

  datatype Error =
    | StoreClosed
    | EngineFailed
    | WorkerUnavailable
    | ShutdownFailure
    | QuarantineSourceMissing
    | StorageFailure(code: nat)

  datatype Result<+T> = Ok(value: T) | Err(error: Error)

  /** A caller's request. A streaming load owns its chunk and acknowledgement endpoints until it runs. */
  datatype Operation =
    | Load
    | LoadStream(endpoints: bool)
    | Save(payload: Blob)
    | SaveStream(streamed: Blob)
    | Clear
    | Inspect
    | Quarantine

  datatype BlockingResult =
    | LoadResult(load: Result<Option<Blob>>)
    | LoadStreamResult(metadata: Result<Option<nat>>)
    | SaveResult(save: Result<()>)
    | SaveStreamResult(saveStream: Result<()>)
    | ClearResult(clear: Result<()>)
    | InspectResult(inspection: Result<Option<nat>>)
    | QuarantineResult(quarantine: Result<()>)

  /** An accepted operation: its reply endpoint (id), its key and what to do. It owns a channel sender. */
  datatype Op = Op(id: nat, key: KeyHash, operation: Operation)

  datatype Event =
    | Submission(op: Op)
    | Completion(key: KeyHash, outcome: Option<(Op, BlockingResult)>)
    | Maintenance(id: nat)
    | MaintenanceCompletion(report: Option<(nat, Result<()>)>)
    | Flush(id: nat)
    | Close(id: nat)

  /** An entry of the pending deque. A barrier also remembers how many submissions preceded it. */
  datatype PendingEvent =
    | PendingSubmission(op: Op)
    | PendingMaintenance(id: nat, mark: nat)
    | PendingFlush(id: nat, mark: nat)
    | PendingClose(id: nat)

  /** A job handed to the pool: not yet run, run, unwound by a panic, or a maintenance job. */
  datatype Job =
    | Fresh(op: Op)
    | Finished(op: Op, result: BlockingResult)
    | Crashed(key: KeyHash)
    | Maintain(id: nat)

  datatype Lifecycle = Open | Closing | Closed | ShutdownFailed | Failed

  /** What a reply endpoint observes: a result, an error, or a dropped sender. */
  datatype Answer = Delivered(result: BlockingResult) | Rejected(error: Error) | Dropped

  datatype Reply =
    | OpReply(op: Op, answer: Answer)
    | FlushReply(id: nat, flushed: Result<()>)
    | MaintenanceReply(id: nat, maintained: Option<Result<()>>)
    | CloseReply(id: nat, closed: Result<()>)

  /** How an operation ended. `applied` tells whether its effect reached the disk despite the error or panic. */
  datatype Fate =
    | Took(result: BlockingResult)
    | Faulted(applied: bool, result: BlockingResult)
    | Refused
    | Unwound(applied: bool)

  /** A barrier that was honoured: the number of submissions before it, of those moved out of the deque by
      then, and of replies sent by then. */
  datatype Barrier = Barrier(id: nat, mark: nat, moved: nat, answered: nat)

  /** The result kind answers this kind of operation. */
  predicate Matches(operation: Operation, result: BlockingResult) {
    match operation
    case Load => result.LoadResult?
    case LoadStream(_) => result.LoadStreamResult?
    case Save(_) => result.SaveResult?
    case SaveStream(_) => result.SaveStreamResult?
    case Clear => result.ClearResult?
    case Inspect => result.InspectResult?
    case Quarantine => result.QuarantineResult?
  }

  /** A queued operation still owns the endpoints that running it will take. */
  predicate Runnable(operation: Operation) {
    operation.LoadStream? ==> operation.endpoints
  }
}
