/** What each answer tells its caller, kind by kind, and what each operation leaves behind. */
module EngineAnswers {
  import opened Collections
  import opened EngineTypes
  import opened Workers
  import opened Coordinator
  import opened EngineInvariants
  import opened EngineSystem
  import opened SystemProofs
  import opened EngineTheorems
  import Envelope

  /** A result says that its operation succeeded on a key that held `before`. */
  predicate Succeeds(operation: Operation, before: Option<Blob>, result: BlockingResult) {
    match result
    case LoadResult(load) => operation.Load? && load == Ok(before)
    case LoadStreamResult(metadata) =>
      operation.LoadStream? && metadata.Ok? && Counts(metadata.value, before, 0)
    case SaveResult(save) => operation.Save? && save == Ok(())
    case SaveStreamResult(save) => operation.SaveStream? && save == Ok(())
    case ClearResult(clear) => operation.Clear? && clear == Ok(())
    case InspectResult(inspection) =>
      operation.Inspect? && inspection.Ok? && Counts(inspection.value, before, 22)
    case QuarantineResult(quarantine) => operation.Quarantine? && before.Some? && quarantine == Ok(())
  }

  /** The only error that is not a fault: there was nothing to quarantine. */
  predicate NothingThere(operation: Operation, before: Option<Blob>, result: BlockingResult) {
    operation.Quarantine? && before == None && result == QuarantineResult(Err(QuarantineSourceMissing))
  }

  /** A size is told exactly if there is a value, and is its length with the overhead. */
  predicate Counts(size: Option<nat>, before: Option<Blob>, overhead: nat) {
    && (size.Some? <==> before.Some?)
    && (size.Some? ==> size.value == |before.value| + overhead)
  }

  /** The value that an operation leaves when it takes effect. */
  predicate Leaves(operation: Operation, before: Option<Blob>, after: Option<Blob>) {
    && (operation.Save? ==> after == Some(operation.payload))
    && (operation.SaveStream? ==> after == Some(operation.streamed))
    && (operation.Clear? || operation.Quarantine? ==> after == None)
    && (Reads(operation) ==> after == before)
  }

  predicate Reads(operation: Operation) {
    operation.Load? || operation.LoadStream? || operation.Inspect?
  }

  // ---- One run of an operation ----------------------------------------------------------

  /** An operation that storage performs as asked answers with its success, or with the missing source of a quarantine,
      and leaves what it should; one that fails before its effect leaves the disk alone, and one that fails after it
      does not, and both are answered with that failure. No other key is touched. */
  lemma RunTells(s: System, i: nat, fault: Fault)
    requires ValidJob(s, i) && s.c.jobs[i].Fresh? && Runnable(s.c.jobs[i].op.operation)
    ensures var op, t := s.c.jobs[i].op, RunJob(s, i, fault);
            var before, after := Get(s.disk, op.key), Get(t.disk, op.key);
            && |t.c.jobs| == |s.c.jobs| && t.c.jobs[i].Finished? && t.c.jobs[i].op.id == op.id
            && (fault.NoFault? ==>
                  && (Succeeds(op.operation, before, t.c.jobs[i].result)
                      || NothingThere(op.operation, before, t.c.jobs[i].result))
                  && Leaves(op.operation, before, after))
            && (!fault.NoFault? ==>
                  && Matches(op.operation, t.c.jobs[i].result)
                  && ErrorIn(t.c.jobs[i].result) == Some(StorageFailure(fault.code)))
            && (fault.Before? ==> after == before)
            && (fault.After? ==> Leaves(op.operation, before, after))
            && forall key: KeyHash :: key != op.key ==> Get(t.disk, key) == Get(s.disk, key)
  {
  }

  /** So does an operation that panics: it leaves the disk alone, or does what it should, and drops its endpoint. */
  lemma PanicTells(s: System, i: nat, applied: bool)
    requires ValidJob(s, i) && s.c.jobs[i].Fresh?
    ensures var op, t := s.c.jobs[i].op, Unwind(s, i, applied);
            var before, after := Get(s.disk, op.key), Get(t.disk, op.key);
            && t.c.replies == s.c.replies + [OpReply(op, Dropped)]
            && (if applied then Leaves(op.operation, before, after) else after == before)
            && forall key: KeyHash :: key != op.key ==> Get(t.disk, key) == Get(s.disk, key)
  {
  }

  // ---- Every answer ---------------------------------------------------------------------

  /** The result of an operation that storage performed as asked on a key that held `before`. */
  predicate Truthful(operation: Operation, before: Option<Blob>, result: BlockingResult) {
    Succeeds(operation, before, result) || NothingThere(operation, before, result)
  }

  /** How an operation ended, with its answer, the value that its key held before it and the one it left. */
  predicate Consistent(operation: Operation, fate: Fate, answer: Answer, before: Option<Blob>, after: Option<Blob>) {
    match fate
    case Took(result) =>
      answer == Delivered(result) && Truthful(operation, before, result) && Leaves(operation, before, after)
    case Faulted(applied, result) =>
      && answer == Delivered(result) && IsFault(operation, result)
      && (if applied then Leaves(operation, before, after) else after == before)
    case Refused =>
      answer == Rejected(WorkerUnavailable) && after == before
    case Unwound(applied) =>
      answer == Dropped && (if applied then Leaves(operation, before, after) else after == before)
  }

  lemma ApplyTruthful(operation: Operation, before: Option<Blob>)
    ensures Truthful(operation, before, Apply(operation, before).1)
    ensures Leaves(operation, before, Apply(operation, before).0)
  {
  }

  /** Every answer to an accepted operation is the one that a store which performs the accepted operations one by one,
      in receive order, gives: a success that tells the value before it, a missing source, an error of storage, a
      refusal that left the value alone, or the silence of an operation that panicked. Between the two values stands
      what the operation does, and no other key changes. */
  lemma SequentialAnswers(env: Env, s: System, i: nat, j: nat)
    requires ValidEnv(env) && Reachable(env, s)
    requires i < |s.c.order| && j < |s.c.replies|
    requires s.c.replies[j].OpReply? && s.c.replies[j].op.id == s.c.order[i].id
    ensures var op := s.c.order[i];
            && op.id in s.c.fate
            && Consistent(op.operation, s.c.fate[op.id], s.c.replies[j].answer,
                          ValueAt(s.initial, s.c.order, s.c.fate, op.key, i),
                          ValueAt(s.initial, s.c.order, s.c.fate, op.key, i + 1))
    ensures forall key: KeyHash :: key != s.c.order[i].key ==>
              ValueAt(s.initial, s.c.order, s.c.fate, key, i + 1) == ValueAt(s.initial, s.c.order, s.c.fate, key, i)
  {
    ReachableInv(env, s);
    hide Tokens, Lines, Fifo, Distinct, Known, AllRunnable, Backlog, BarriersHeld, InFlight, Settled, Shape, Awake,
      Drained, Verdicts, Accounted, Admitted, Apply, IsFault, Matches, Truthful, Leaves;
    assert Sequential(s.initial, s.c.order, s.c.fate, i);
    var op := s.c.order[i];
    ApplyTruthful(op.operation, ValueAt(s.initial, s.c.order, s.c.fate, op.key, i));
  }

  // ---- Reads see the last write -----------------------------------------------------------

  /** The i-th accepted operation is a write to this key that took effect. */
  predicate WroteAt(order: seq<Op>, fate: map<nat, Fate>, key: KeyHash, i: nat)
    requires i < |order|
  {
    order[i].key == key && !Reads(order[i].operation) && order[i].id in fate && Effective(fate[order[i].id])
  }

  predicate NoWrite(order: seq<Op>, fate: map<nat, Fate>, key: KeyHash, from: nat, to: nat)
    requires to <= |order|
  {
    forall i :: from <= i < to ==> !WroteAt(order, fate, key, i)
  }

  /** The last write to a key among the first n operations that took effect left this value, or there was none. */
  predicate LastWrote(initial: map<KeyHash, Blob>, order: seq<Op>, fate: map<nat, Fate>, key: KeyHash, n: nat,
                      value: Option<Blob>)
    requires n <= |order|
  {
    || (value == Get(initial, key) && NoWrite(order, fate, key, 0, n))
    || exists i :: 0 <= i < n && WroteAt(order, fate, key, i) && NoWrite(order, fate, key, i + 1, n)
                && Leaves(order[i].operation, None, value)
  }

  lemma LastWroteStays(initial: map<KeyHash, Blob>, order: seq<Op>, fate: map<nat, Fate>, key: KeyHash, n: nat,
                       value: Option<Blob>)
    requires n < |order| && !WroteAt(order, fate, key, n) && LastWrote(initial, order, fate, key, n, value)
    ensures LastWrote(initial, order, fate, key, n + 1, value)
  {
    hide Leaves, WroteAt;
    if !NoWrite(order, fate, key, 0, n) {
      var i :| 0 <= i < n && WroteAt(order, fate, key, i) && NoWrite(order, fate, key, i + 1, n)
            && Leaves(order[i].operation, None, value);
      assert NoWrite(order, fate, key, i + 1, n + 1);
    }
  }

  lemma LastWroteHere(initial: map<KeyHash, Blob>, order: seq<Op>, fate: map<nat, Fate>, key: KeyHash, n: nat,
                      value: Option<Blob>)
    requires n < |order| && WroteAt(order, fate, key, n) && Leaves(order[n].operation, None, value)
    ensures LastWrote(initial, order, fate, key, n + 1, value)
  {
    hide Leaves;
    assert NoWrite(order, fate, key, n + 1, n + 1);
  }

  lemma {:induction false} ReplayIsLastWrite(initial: map<KeyHash, Blob>, order: seq<Op>, fate: map<nat, Fate>,
                                             key: KeyHash, n: nat)
    requires n <= |order|
    ensures LastWrote(initial, order, fate, key, n, ValueAt(initial, order, fate, key, n))
  {
    hide LastWrote, Effective;
    if n == 0 {
      NothingWritten(initial, order, fate, key);
    } else {
      var before, value := ValueAt(initial, order, fate, key, n - 1), ValueAt(initial, order, fate, key, n);
      ReplayIsLastWrite(initial, order, fate, key, n - 1);
      if WroteAt(order, fate, key, n - 1) {
        LastWroteHere(initial, order, fate, key, n - 1, value);
      } else {
        assert value == before;
        LastWroteStays(initial, order, fate, key, n - 1, value);
      }
    }
  }

  lemma NothingWritten(initial: map<KeyHash, Blob>, order: seq<Op>, fate: map<nat, Fate>, key: KeyHash)
    ensures LastWrote(initial, order, fate, key, 0, Get(initial, key))
  {
  }

  /** The reply to this load, with a success. */
  predicate Loaded(reply: Reply, id: nat) {
    && reply.OpReply? && reply.op.id == id
    && reply.answer.Delivered? && reply.answer.result.LoadResult? && reply.answer.result.load.Ok?
  }

  /** A load that succeeds returns what the last write to its key before it in receive order left, if that write took
      effect, and what the store was opened on if there was none; so does the disk at any moment, of all of them. */
  lemma ReadsSeeLastWrite(env: Env, s: System)
    requires ValidEnv(env) && Reachable(env, s)
    ensures forall i, j :: 0 <= i < |s.c.order| && 0 <= j < |s.c.replies| && Loaded(s.c.replies[j], s.c.order[i].id) ==>
      LastWrote(s.initial, s.c.order, s.c.fate, s.c.order[i].key, i, s.c.replies[j].answer.result.load.value)
    ensures forall key: KeyHash :: LastWrote(s.initial, s.c.order, s.c.fate, key, |s.c.order|, Get(s.disk, key))
  {
    hide Reachable, LastWrote, ValueAt, Effective, Leaves;
    forall i, j | 0 <= i < |s.c.order| && 0 <= j < |s.c.replies| && Loaded(s.c.replies[j], s.c.order[i].id)
      ensures LastWrote(s.initial, s.c.order, s.c.fate, s.c.order[i].key, i, s.c.replies[j].answer.result.load.value)
    {
      SequentialAnswers(env, s, i, j);
      ReplayIsLastWrite(s.initial, s.c.order, s.c.fate, s.c.order[i].key, i);
    }
    forall key: KeyHash
      ensures LastWrote(s.initial, s.c.order, s.c.fate, key, |s.c.order|, Get(s.disk, key))
    {
      SequentialDisk(env, s);
      ReplayIsLastWrite(s.initial, s.c.order, s.c.fate, key, |s.c.order|);
    }
  }
}
