# An executor-neutral atomic blob store, verified

The store keeps one checksummed file per key. Any number of clones of a handle submit operations to one coordinator
thread; the coordinator queues them per key, starts as many as its limit allows on a lazily grown worker pool, and
honours flush, maintenance and close as barriers in receive order. Workers read and replace files through a staging
protocol, and streaming operations exchange bounded chunks with their callers. This project models these four parts
and proves what they promise, over every run, every reader and writer, and every fault they may meet.

**Engine.** `Coordinator` states the reaction to each event as a function on the coordinator's variables, and the
class in `Scheduler` makes the same change step by step, in place, and is proved equal to it. `EngineSystem` puts the
coordinator, its callers, the workers and the disk into one transition system: the channel is a sequence, an endpoint
is an identifier, and every choice of the platform (which thread starts fail, which queue a map iteration finds first,
what storage does to an operation, which operation panics and when) is free. `EngineInvariants` holds the inductive
invariant, the `...Proofs` modules show that each kind of step keeps it, and `EngineTheorems`, `EngineProgress`,
`ReceiveOrder`, `BarrierWitness`, `PoolGrowth` and `ReplyOrder` draw the conclusions about runs. What callers are told
has modules of its own, whose statements do not lean on the functions they are about: `EngineAnswers` for operations,
`EventAnswers` and `BarrierOutcomes` for flushes, maintenance and what is left when the store closes, and
`ReplyCauses` for closes and refusals; `EventEffects` holds what their proofs share.

**Envelope.** `Crc32c` defines the checksum of section 12.1 of RFC 3720 bit by bit, `Envelope` defines the file format
and what any byte string decodes to, and `StreamFormat` proves the loops that read and write it piece by piece equal
to those definitions. `EnvelopeErrors` says exactly which error each malformed file gets, and `FormatFixtures` decodes
the repository's fixture files byte by byte.

**Streaming.** `Blocking` has the caller's loops; `SaveHandshake` and `LoadHandshake` are the caller and the worker as
two processes over a channel of two messages, with every failure exit on both sides and with a caller that may vanish.
`HandshakeMeaning` shows that each of their settled runs is one of the endings that the engine model allows, and
`HealthyStreams` what they come to when nothing fails.

**Files.** `FileSystem` is a directory in which each call is one atomic step that may fail, possibly after its effect,
and which records every state a crash could leave and every call that failed. `FileStore`, `FileRemoval` and `Cleanup`
are the Windows protocols as methods on it, and `UnixStore` those that differ on Unix; each says which failed call its
error stands for, so that without a failed call it must succeed; `Names` is the grammar of file names; `StoreMeaning`
says what a reader finds afterwards and shows that every outcome is one of the fates that the engine model allows an
operation.

Where the code and its documentation differ, the model follows the code:

- The documentation calls same-key work first-in, first-out. The code refills a slot before it delivers the result
  that freed it, so delivery comes after the next dispatch. `ReplyOrder.RepliesInOrder` shows that the coordinator's
  answers to one key still come in receive order, because the refilled slot always has a worker. Answers of different
  keys come in any order.
- The documentation names the save and post-rename errors as ambiguous. A move that fails after taking effect makes
  the removal error of clear (`RemoveBlob`) and the commit error of quarantine ambiguous too; the models of both say
  which states remain possible.
- The bound on the maximum is meant to leave room for the envelope. It does not leave room for a buffer, which may
  hold at most half a word's range of bytes: asking for a larger one panics, so that for maxima of 2^63 and above, or
  2^31 and above with 32-bit words, a whole-file load can panic, or refuse the length, on a file that the streaming
  validator reads. `StreamFormat.AgreementNeedsRoom` says exactly when, memory permitting.
- A failed buffered save on Windows leaves its staging file for a later cleanup; a failed streaming save removes it,
  and does so even if it could not open it.

## Model

| member | source | states |
|---|---|---|
| EngineTheorems.SequentialDisk | tests/model_sequences.rs:164-224 | in every reachable state the disk equals the replay, in coordinator receive order, of the accepted operations that took effect, starting from the disk the store was opened on |
| EngineAnswers.SequentialAnswers | src/engine/operation.rs:51-149 | every answer to an accepted operation, between the values that the replay gives its key before and after: a save answers success and leaves its payload, a clear answers success and leaves nothing, a quarantine leaves nothing and answers success exactly if there was a value and a missing source if not, reads tell the value before and leave it; otherwise an error that storage reported, a refusal that left the value alone, or the silence of a panic; no other key changes |
| EngineAnswers.ReadsSeeLastWrite | tests/model_sequences.rs:164-224 | a load that succeeds returns what the last effective write to its key before it in receive order left, or what the store was opened on if there was none; so does the disk, of all of them |
| EngineAnswers.RunTells | src/engine/operation.rs:51-124 | running one operation: without a fault it answers its success, or the missing source, and leaves what it should; a fault is answered as that fault, with the value untouched or changed as it should be; no other key is touched |
| EngineAnswers.PanicTells | src/engine/scheduler.rs:445-462 | an operation that panics drops its endpoint and leaves the old value or the one it should |
| EngineTheorems.EffectsInOrder | src/engine/scheduler.rs:405-470 | operations of one key end in receive order, for every interleaving |
| ReplyOrder.RepliesInOrder | src/engine/scheduler.rs:93-124 | when an accepted operation is answered by the coordinator, every earlier accepted operation of its key has been answered |
| ReplyOrder.ReleaseServes | src/engine/scheduler.rs:94-103 | a freed slot goes to the next operation of its key if there is one, without any reply: it cannot be refused, because a worker is there for it |
| EngineTheorems.NextInv | src/engine/scheduler.rs:48-282 | every step of callers, coordinator, workers and storage keeps the system invariant |
| StepProofs.HandleSteady | src/engine/scheduler.rs:65-276 | handling any event in any steady state leads to a steady state, conserves every reply endpoint, records only refusals, and accepts a submission exactly while the store is open |
| EngineTheorems.BarriersHonoured | src/engine/scheduler.rs:285-344 | at each barrier honoured so far exactly the submissions received before it had been moved out of the deque, and exactly those had been answered; while maintenance is active nothing is active or queued |
| BarrierWitness.BarriersSeparate | src/engine/scheduler.rs:299-337 | identifiers are handed out as requests are sent; when a flush is acknowledged, exactly the accepted operations with a smaller identifier have been answered; while maintenance runs, exactly those have ended and all of them have been answered, and before it reports success all of them have been answered; `BarriersAnswered` and `PromisesKept` say which are acknowledged |
| BarrierOutcomes.BarriersAnswered | src/engine/scheduler.rs:159-181 | each barrier on record is a flush whose success was the very next reply, or maintenance that runs, is about to report or has reported; a flush is acknowledged exactly if it is on record, and otherwise told that the store is closed, which it then is; maintenance not on record, and an operation that is refused, lacked a worker or met a closed store |
| EventAnswers.EventTells | src/engine/scheduler.rs:60-276 | handling an event: results and reports are passed on unchanged, flushes, maintenance and operations are accepted exactly while the store is open and otherwise told that it is closed; whatever is parked stays parked until it has what it waits for; when the coordinator stops, each request left in the channel is told that the store is closed, and each close the verdict |
| EventAnswers.PromisesKept | src/engine/scheduler.rs:285-344 | however a run goes on, an accepted flush is waiting or has succeeded, accepted maintenance is waiting, has been started or was refused for want of a worker, and a report is on its way or delivered unchanged |
| EventAnswers.ReportSent | src/engine/scheduler.rs:372-394 | a worker sends the report of maintenance as it is, and drops the endpoint of one that panicked |
| ReceiveOrder.ReceiveOrderIsSendOrder | src/engine/mod.rs:796-849 | operations are accepted in the order they were sent, ahead of every request still in the channel, which is in that order too |
| EngineTheorems.NoLostWakeUp | src/engine/scheduler.rs:60-344 | while the coordinator runs, anything left in a queue or in the deque means that a job is running or a completion is on its way |
| EngineTheorems.DrainOnLastDrop | src/engine/scheduler.rs:277-281 | the receive loop ends by disconnection only with queues, active set, deque and channel empty; then every endpoint has been resolved exactly once, and the store is closed |
| PostProofs.NothingLeft | src/engine/event.rs:4-37 | if no live handle and no queued or running entry owns a channel sender, there is no work left, although flushes and closes own none |
| EngineTheorems.ExactlyOnce | src/engine/scheduler.rs:215-275 | every endpoint handed out is in exactly one place among channel, deque, queues, jobs and replies; once the coordinator has stopped it has exactly one reply |
| HandleProofs.StopDrains | src/engine/scheduler.rs:229-268 | shutdown leaves nothing anywhere, and its drain meets no completion, so no undelivered result is discarded |
| EngineTheorems.WorkConserving | src/engine/scheduler.rs:473-488 | between events either every slot is taken or each waiting key is active; the limit is never exceeded; an empty queue is kept only for an active key and an idle coordinator keeps none |
| Coordinator.DispatchShrinks | src/engine/scheduler.rs:405-488 | dispatching a ready key takes exactly its head out of the queues, started or refused, so the loop over ready keys ends |
| EngineTheorems.WorkerSufficiency | src/engine/scheduler.rs:412-438 | while running, the pool has a worker for each job handed to it and for each active key, and no more than its capacity |
| PoolGrowth.GrowthFollowsDemand | src/engine/workers.rs:36-79 | on every run the pool has no more workers than the largest number of jobs ever under way at once, whichever thread starts failed |
| ReplyCauses.RefusalsPaid | src/engine/scheduler.rs:412-438 | in every step, as many requests are refused for want of a worker as thread starts fail, so a request is refused only for a start that failed |
| Workers.Prepared | src/engine/workers.rs:36-79 | one thread start per missing worker, stopping at the first failure: success exactly when the capped requirement is met, never more workers than required |
| Workers.WorkerPool.Prepare | src/engine/workers.rs:36-79 | the growth loop changes the pool as that function says |
| Workers.WorkerPool.Execute | src/engine/workers.rs:81-87 | a job is queued exactly when the sending side has not been taken |
| Workers.WorkerPool.Shutdown | src/engine/workers.rs:101-114 | closes the job channel, joins every worker in a loop, and succeeds exactly when none of them has panicked |
| EngineTheorems.CloseAgreement | src/engine/scheduler.rs:182-274 | all close callers get the verdict the lifecycle records; it is published only when stopped; the lifecycle is never Failed; behind a waiting close there are only closes; `ClosesTellWorkers` says what the verdict is |
| ReplyCauses.ClosesTellWorkers | src/engine/scheduler.rs:215-243 | a running pool has exactly the workers whose start succeeded; an event that stops the coordinator closes the store if none of its workers panics and publishes a failed shutdown otherwise; on every run each close is answered with success exactly if none of the workers ever started panics |
| EngineTheorems.LifecycleForward | src/engine/scheduler.rs:182-281 | the lifecycle moves only from Open through Closing to a verdict, which then stays |
| Close.CoordinatorJoin.Finish | src/engine/mod.rs:140-163 | the first close caller joins the thread, later ones reuse its outcome, and all return the same verdict |
| Close.CallersAgree | src/engine/mod.rs:678-759 | any two close callers, early, queued or late, return the same value after the join: success exactly if the store has closed and its coordinator did not panic |
| Close.FinishBoth | src/engine/mod.rs:140-163 | two callers handed the verdict return the same value, with one join between them |
| EngineTheorems.PanicPointsUnreachable | src/engine/operation.rs:51-149 | results in flight match their operations, a job about to run still owns its endpoints, and the deque never starts with a submission while nothing blocks it |
| EngineProgress.ComesToRest | src/engine/scheduler.rs:48-344 | coordinator and worker steps alone are bounded by the work at hand: no livelock |
| EngineProgress.RestMeansResolved | src/engine/scheduler.rs:48-344 | when neither coordinator nor workers can move, every endpoint has been resolved exactly once and nothing is left |
| EngineSystem.CallSplits | src/engine/mod.rs:638-849 | each request is either sent, as the message it asks for, or answered on the spot, once and under a fresh identifier: a close is sent until there is a verdict, which is then its answer; anything else is sent exactly while the store is open and otherwise told that the engine has failed or that the store is closed; callers change neither the lifecycle nor the pool |
| DispatchProofs.AvailableShape | src/engine/scheduler.rs:473-488 | dispatching until nothing can start keeps the bounds and leaves no idle slot beside a waiting idle key |
| DispatchProofs.RefuseCore | src/engine/scheduler.rs:423-436 | answering a refused head with an error keeps per-key order, accounting and all earlier statements |
| AdvanceProofs.IdleMeansAnswered | src/engine/scheduler.rs:299-302 | with nothing active or queued, every submission moved out of the deque has been answered: the condition a barrier waits for suffices |
| AdvanceProofs.AdvanceCore | src/engine/scheduler.rs:285-344 | replaying the deque keeps order, accounting and barriers, whatever mixture of submissions and barriers it holds |
| Scheduler.Scheduler.HandleEvent | src/engine/scheduler.rs:60-276 | one iteration of the event loop, on mutable state, does what the event function says |
| Scheduler.Scheduler.OnSubmission | src/engine/scheduler.rs:66-92 | rejects, parks or queues and dispatches a submission |
| Scheduler.Scheduler.OnCompletion | src/engine/scheduler.rs:93-124 | releases and refills the slot, then delivers, then replays the deque |
| Scheduler.Scheduler.Release | src/engine/scheduler.rs:94-110 | frees the slot, refills it and the others, and forgets a queue left empty and idle |
| Scheduler.Scheduler.OnMaintenance | src/engine/scheduler.rs:125-144 | rejects maintenance once closing, or parks it with its place in the receive order |
| Scheduler.Scheduler.OnMaintenanceCompletion | src/engine/scheduler.rs:145-158 | reopens the queues, delivers the report if there is one, and replays the deque |
| Scheduler.Scheduler.OnFlush | src/engine/scheduler.rs:159-181 | rejects a flush once closing, or parks it with its place in the receive order |
| Scheduler.Scheduler.OnClose | src/engine/scheduler.rs:182-213 | records the closing state, or answers from the recorded verdict |
| Scheduler.Scheduler.AdvancePendingIfReady | src/engine/scheduler.rs:285-344 | the in-place replay loop, with its early returns, changes the state as the specification does; `EventAnswers` and `BarrierOutcomes` say what that comes to |
| Scheduler.Scheduler.DispatchIfIdle | src/engine/scheduler.rs:405-470 | starts, refuses or leaves the head of one key's queue |
| Scheduler.Scheduler.DispatchAvailable | src/engine/scheduler.rs:473-488 | the loop over ready keys, with any choice among them |
| Scheduler.Scheduler.DispatchMaintenance | src/engine/scheduler.rs:347-402 | starts maintenance, or answers its error and posts its own completion |
| Scheduler.Scheduler.StopIfClosing | src/engine/scheduler.rs:215-276 | stops exactly when a close is first in the deque and nothing is queued, running or under maintenance |
| Scheduler.Scheduler.AnswerCloses | src/engine/scheduler.rs:230-243 | answers the closes at the front of the deque with one verdict and leaves the rest |
| Scheduler.Scheduler.DrainChannel | src/engine/scheduler.rs:244-268 | empties the channel, answering late closes with the verdict and other late requests as closed |
| Scheduler.Scheduler.Shutdown | src/engine/scheduler.rs:222-274 | joins, publishes the verdict, answers the closes and drains the channel as the specification does; `ReplyCauses.ClosesTellWorkers` says which verdict that is |
| Crc32c.CrcAppends | src/format.rs:40 | the checksum continued over more bytes is the checksum of the whole |
| Crc32c.AbsorbInjective | src/format.rs:386-398 | for fixed input the register's final value determines its initial value: every step is a bijection |
| Crc32c.BurstDetected | src/format.rs:386-398 | any change within four consecutive bytes changes the checksum |
| Crc32c.CheckValue | src/format.rs:386-390 | the checksum of the digits 1 to 9 is the published check value |
| BigEndian.FromTo | src/format.rs:53-57 | reading a big-endian field back gives the number that was written |
| BigEndian.ToFrom | src/format.rs:350-356 | a big-endian field is the encoding of the number it is read as |
| BigEndian.ToBytesAt | FORMAT.md:8-15 | the bytes of a number are its digits to the base 256, the most significant first |
| BigEndian.StoredIsBigEndian | FORMAT.md:15 | the four bytes of a stored checksum are the checksum as a big-endian number |
| Envelope.RoundTrip | src/format.rs:18-59 | decoding inverts encoding for every payload within the maximum |
| Envelope.DecodesExactlyEncodings | src/format.rs:334-399 | a byte string decodes to a payload if and only if it is that payload's encoding and the payload is within the maximum |
| Envelope.EnvelopeInjective | src/format.rs:18-59 | no envelope is a prefix of another payload's envelope |
| Envelope.SingleByteCorruption | src/format.rs:340-398 | changing any one byte of any valid envelope makes decoding fail |
| Envelope.BurstCorruption | src/format.rs:386-398 | so does replacing any four consecutive payload bytes by different ones |
| Envelope.HeaderDamage | src/format.rs:340-371 | so does any change of the header alone |
| Envelope.PrefixTruncated | src/format.rs:402-417 | every proper prefix of a valid envelope is reported as truncated |
| EnvelopeErrors.EndsInChecksum | FORMAT.md:9-15 | the last four bytes of an envelope, read as a big-endian number, are the checksum of all that comes before them; its version and length fields read as 1 and the size |
| EnvelopeErrors.DiagnosisExact | src/format.rs:334-399 | for every byte string and every error: decoding ends with it if and only if the bytes have that defect, said in terms of the header that the encoder would have written |
| EnvelopeErrors.ByteDiagnosed | src/format.rs:334-399 | which error each single changed byte gives: another tag, another version, a length that is too large or does not fit, or a checksum that does not match, with the stored and the computed one |
| EnvelopeErrors.CutDiagnosed | src/format.rs:402-417 | a cut envelope is truncated in the section in which it ends |
| EnvelopeErrors.AppendedDiagnosed | src/format.rs:376-385 | bytes after an envelope are trailing data, whatever its checksum says |
| EnvelopeErrors.MismatchDiagnosed | src/format.rs:386-397 | a stored checksum that is not that of the bytes before it is reported with both |
| EnvelopeErrors.OversizedDiagnosed | src/format.rs:355-360 | a length above the maximum is reported with the maximum, whatever follows |
| EnvelopeErrors.FaultDiagnosed | src/format.rs:402-417 | a read fault hides a truncation and the checksum, and nothing that was wrong before it |
| FormatFixtures.AbcFixtures | tests/format_compatibility.rs:46-64 | the fixtures valid, checksum-invalid, trailing-data and truncated, byte by byte: what encodes to the first and what each of them decodes to |
| FormatFixtures.HeaderFixtures | tests/format_compatibility.rs:46-64 | the same for the fixtures oversized, wrong-domain and unsupported-version, whatever follows the wrong field |
| StreamFormat.Reader.ReadSection | src/format.rs:402-417 | fills the section from any sequence of short reads, or reports truncation or the read error |
| StreamFormat.DecodeReader | src/format.rs:325-399 | the section-by-section decoder with its incremental checksum equals the definition on every source, fault, limit and machine word, with the panic over a buffer that is too large to ask for |
| StreamFormat.ValidateEnvelopeReader | src/format.rs:238-322 | the chunked validator equals its definition on every source and fault |
| StreamFormat.ValidatorFollowsFormat | src/format.rs:238-322 | the validator says of every source what the format says of it, whatever the maximum and the machine |
| StreamFormat.ValidatorAgrees | src/format.rs:238-399 | validator and decoder agree on success, size and every error whenever there is room for the largest payload: within the limit, countable with its envelope in a machine word, and at most half a word's range, the largest buffer |
| StreamFormat.MachineDecodesExactly | src/format.rs:334-399 | on every machine the decoder returns a payload if and only if it is given its encoding, the payload is within the maximum, and there is room for it |
| StreamFormat.AgreementNeedsRoom | src/format.rs:361-373 | for every limit and word size, validator and decoder agree on all inputs if and only if there is room for the maximum |
| StreamFormat.RoomByWordSize | src/engine/mod.rs:779-786 | there is room exactly for maxima below half the word range: 2^63 with 64-bit words and 2^31 with 32-bit words |
| StreamFormat.Disagreements | src/format.rs:361-373 | files on which the two passes disagree under accepted maxima: bare headers that declare 2^31 or 2^63 bytes, where the decoder panics, and the largest 32-bit word, which it refuses |
| StreamFormat.LoadBlobIntoSender | src/format.rs:180-235 | nothing is sent before validation succeeds; what is sent is a prefix of the payload's chunks, and the load succeeds exactly when all of it was sent and acknowledged; each error is accounted for |
| StreamFormat.SendPayload | src/format.rs:207-234 | the second pass, against a receiver that may hang up, a fault of its own and a missing acknowledgement |
| StreamFormat.ChunksMakePayload | src/format.rs:208-227 | the chunks concatenate to the payload; all but the last hold 64 KiB, and the last is not empty |
| StreamFormat.EnvelopeHeader | src/format.rs:45-59 | the header filled in place is tag, version and length in 18 bytes; a length above the maximum is refused |
| StreamFormat.EncodeEnvelope | src/format.rs:18-42 | the header filled in place, the payload and the incremental checksum make up the envelope, whose fields and checksum `EndsInChecksum` spells out; too large a payload is refused, and a panic is raised exactly over a buffer that is too large to ask for |
| StreamFormat.WriteStreamEnvelope | src/format.rs:62-156 | for every message sequence and every writer that stops anywhere: exactly which bytes are staged and which result is returned |
| StreamFormat.WriterRefinesEncoder | src/format.rs:93-155 | the stream succeeds exactly when it completes at the declared length, and then stages the encoder's output, however it was cut up |
| StreamFormat.FailedWritesAreTruncated | src/format.rs:62-156 | whatever any other exit leaves staged decodes as truncated, never as a blob |
| Blocking.SaveFrom | src/blocking.rs:52-109 | for every reader: what is sent is a prefix of the input in well-sized chunks, the marker only after exactly the declared bytes and a confirmed end, and each input problem is reported with the channel closed before the marker |
| Blocking.WorkerSeesNoInputFault | src/format.rs:93-155 | on such messages the worker completes or is cancelled; it never blames the input |
| Blocking.InputProblems | src/blocking.rs:62-103 | an input is taken exactly if it has the declared length; a longer one, a shorter one and a fault are each reported as what they are |
| Blocking.StreamEndings | src/format.rs:93-155 | too many bytes are refused, a stream without a marker is cancelled, and at the marker, whatever follows, the declared length decides |
| Blocking.LoadInto | src/blocking.rs:111-131 | writes the chunks out in order and acknowledges exactly if the writer took them all |
| SaveHandshake.SaveSafety | src/blocking.rs:52-109 | in every state of every run: the marker vouches for the whole input, only the whole input is ever published, success means it is the blob, and an input error means nothing was published and tells what was read; at most two messages are in flight |
| SaveHandshake.SaveFromIsARun | src/blocking.rs:52-109 | whatever the caller's loop sends and returns, for any input and any hang-up, some run of the protocol sends exactly that and ends with the same result |
| SaveHandshake.ClosedEarlyNeverCommits | src/format.rs:93-155 | a channel closed before the marker never leads to a commit, whatever happens afterwards |
| SaveHandshake.MarkerPreventsCancellation | src/tokio.rs:213-284 | once the marker is out the save is never reported as cancelled, even if its caller is gone |
| SaveHandshake.WorkerFollowsVerdict | src/format.rs:93-155 | the worker commits or cancels exactly as the verdict on the messages it received says |
| SaveHandshake.NoDeadlock | src/blocking.rs:52-109 | until both sides are done some ordinary step is possible: neither waits for the other |
| SaveHandshake.SaveTerminates | src/blocking.rs:52-109 | every run ends, within 4n + 11 steps for n declared bytes, with both sides done |
| HealthyStreams.HealthySaveSucceeds | src/blocking.rs:52-109 | a streaming save in which nothing fails and nobody gives up ends with success and the whole input published |
| HealthyStreams.WorkerDecides | src/format.rs:93-155 | which answer each way to end gives: refused, failed to open, failed to write, cancelled, failed to commit, failed to synchronize, panicked |
| HealthyStreams.SaveReports | src/blocking.rs:52-109 | a caller with a fault in its input reports that fault whatever the worker answers; any other reports what the worker decided on |
| HealthyStreams.HealthyLoadSucceeds | src/blocking.rs:111-131 | a streaming load in which nothing fails ends with the size and the whole payload written out, with a missing blob, or with the error that validation gave |
| HealthyStreams.LoadReports | src/blocking.rs:111-131 | a caller whose output failed reports that, whatever the worker answers |
| HandshakeMeaning.SaveRunMeetsEngine | src/engine/operation.rs:99-111 | however a streaming save ends, in every settled run, the value it leaves and its answer are those of an ending the engine allows: taken, failed before or after its effect, refused, or a panic |
| HandshakeMeaning.LoadRunMeetsEngine | src/engine/operation.rs:61-85 | the same for every settled run of a streaming load, which leaves the value alone |
| LoadHandshake.LoadSafety | src/blocking.rs:111-131 | the output is always a prefix of the payload, empty unless the file validated; success means the whole payload was written; a cancellation is only reported to a caller that stopped listening |
| LoadHandshake.NoDeadlock | src/format.rs:207-234 | chunks, acknowledgement and hang-ups never leave both sides waiting |
| LoadHandshake.LoadTerminates | src/blocking.rs:111-131 | every run ends, within three steps a chunk and ten more, with both sides done |
| Names.HexInjective | src/filesystem/mod.rs:340-352 | different identifiers and different key hashes have different names |
| Names.RandomIdentifier | src/filesystem/mod.rs:340-352 | the digit loop produces the hexadecimal name of its bytes |
| Names.HexDigits | src/filesystem/mod.rs:340-352 | each byte becomes two lower-case digits, the one for its upper half first |
| Names.NamesSpelledOut | src/filesystem/mod.rs:856-864 | the canonical, staging and quarantine names of a key under one suffix, literally |
| Names.StemIsHash | src/filesystem/mod.rs:856-859 | the file stem of a canonical name is the key's hash, for every legal suffix |
| Names.OwnedExactly | src/filesystem/mod.rs:1169-1189 | a name is recognised as owned if and only if save or clear could have generated it, for every legal suffix |
| Names.OwnedUnderOneSuffix | src/filesystem/mod.rs:1169-1189 | a staging name is owned under its own suffix and no other |
| Names.CanonicalNeverOwned | src/config.rs:148-159 | no canonical name is owned, under any two legal suffixes |
| Names.QuarantineNeverOwned | src/filesystem/mod.rs:1169-1189 | no quarantine name is owned, under any two legal suffixes |
| Names.TempNameInjective | src/filesystem/mod.rs:854-859 | a staging name determines its key hash, operation and identifier |
| Names.BlobNameInjective | src/path.rs:8-14 | different key hashes have different canonical names |
| FileStore.CreateStaging | src/filesystem/mod.rs:622-711 | creates a new file and writes the sections; at every crash point it holds a prefix of them; success means complete and flushed, and fails only if a call does |
| FileStore.CreateStreamingStaging | src/filesystem/mod.rs:714-768 | the same for a stream, whose staged bytes are those the streaming writer wants |
| FileStore.CommitStaging | src/filesystem/mod.rs:533-556 | moving first without and then with replacement leaves the directory as it was or with the staging file as destination, at every point, and fails exactly if a move does |
| FileStore.Publish | src/filesystem/mod.rs:889-900 | from a flushed staging file the canonical file changes from old to new in one step; success means that the directory was synchronized afterwards |
| FileStore.SaveBlob | src/filesystem/mod.rs:838-902 | at every crash point the canonical file is untouched or the complete, flushed new envelope, every other file that was there is unchanged, and only staging files of this key have been added; every result says which, and every error which call failed: if none did, the size is allowed and the random source did not run out, the save succeeds; success comes after a directory synchronization; retries end only when the random source does |
| FileStore.SaveBlobFromReceiver | src/filesystem/mod.rs:905-973 | the same for a streamed save, which without a failed call ends as the stream does; its canonical file is untouched at every point unless the stream was complete; only if its staging file could not be opened may a file of that staging name be gone instead |
| FileStore.StagingIsPrivate | src/filesystem/mod.rs:855-859 | the staging names of a save or clear are no canonical and no quarantine name of any format |
| FileRemoval.ClearBlob | src/filesystem/mod.rs:976-1029 | at every crash point the content is complete or gone; each result says where the content is, and each error which call failed; if none did the clear succeeds, unless the random source runs out; success comes after a synchronization without the name |
| FileRemoval.QuarantineBlob | src/filesystem/mod.rs:1032-1084 | at every crash point the file is at its own or at one fresh quarantine name; each result says which, and each error which call failed; if none did it succeeds exactly if there is a file, unless every name that the random source gave was taken; success comes after a synchronization |
| FileRemoval.EnsureNamespaceAvailable | src/filesystem/mod.rs:100-109 | the namespace check passes exactly if its call does, and otherwise ends with one of two errors |
| UnixStore.SaveBlob | src/filesystem/mod.rs:112-207 | at every crash point the directory is as before or holds the complete new envelope; only a commit error leaves it open which; each error says which call failed, and if none did a payload of allowed size is saved |
| UnixStore.SaveBlobFromReceiver | src/filesystem/mod.rs:210-275 | the same for a streamed save, with each stream error as the verdict on the messages says |
| UnixStore.ClearBlob | src/filesystem/mod.rs:278-310 | the file is removed in one step, and each result says whether it is and which call failed; if none did it succeeds |
| Cleanup.CleanupStaleFiles | src/filesystem/mod.rs:1087-1166 | only owned, regular, old enough files ever disappear, at any crash point; the report accounts for each owned entry and each unreadable one, is true of the directory, and files each owned name under what became of it, with one failed call for each that was refused |
| Cleanup.ReportedExactlyOnce | src/filesystem/mod.rs:1100-1165 | each enumerated owned name is in exactly one of the three lists, exactly once |
| Cleanup.ReportIsExact | src/filesystem/mod.rs:1100-1165 | a name is reported as removed, skipped or failed if and only if it is a listed staging file that was old, young, or refused, missing or no regular file; each unreadable entry is a failure |
| Cleanup.OldFrom | src/filesystem/mod.rs:1141-1149 | a file is old enough exactly from the moment on that its age is the minimum, and never without a time |
| Cleanup.CleanupSparesBlobs | src/filesystem/mod.rs:1087-1166 | canonical and quarantined blobs of every format, and staging files of other formats, are untouched |
| StoreMeaning.LoadBlob | src/format.rs:159-178 | without a failed call a load returns what the file holds on this machine; each error says which call failed; success always returns what a healthy disk holds, a missing blob only if there is none |
| StoreMeaning.InspectBlob | src/filesystem/mod.rs:313-337 | without a failed call an inspection says whether there is a file and how long it is, or that it is no regular file; each error says which call failed |
| StoreMeaning.SaveCrashSafe | README.md:95-100 | wherever a save stops, a reader finds the old content or the new payload, and every other blob as it was |
| StoreMeaning.LostStagingIsSafe | src/filesystem/mod.rs:934-944 | removing a staging name after a failed open costs no blob and no quarantined blob |
| StoreMeaning.StagingIsTruncated | src/filesystem/mod.rs:622-711 | a staging file is the complete envelope or decodes as truncated |
| StoreMeaning.ClearCrashSafe | README.md:95-100 | wherever a clear stops, a reader finds the old content or nothing, and every other blob as it was |
| StoreMeaning.QuarantineCrashSafe | README.md:125-128 | a quarantine that has begun has moved the very same file to one fresh name and changed nothing else |
| StoreMeaning.RetriesEnd | src/filesystem/mod.rs:854-870 | with identifiers that do not repeat, more attempts than there are files cannot all find their name taken |
| StoreMeaning.SaveMeetsEngine | src/engine/operation.rs:86-111 | a save's effect and answer are those of a fate that the engine model allows: success answered as success, any error as a fault before or after the effect |
| StoreMeaning.ClearMeetsEngine | src/engine/operation.rs:112-115 | so are a clear's |
| StoreMeaning.LoadMeetsEngine | src/engine/operation.rs:57-60 | a load leaves the value alone, and its success is the engine's answer |
| StoreMeaning.LoadStreamMeetsEngine | src/engine/operation.rs:61-85 | so does a streaming load, whose chunks then concatenate to the value |
| StoreMeaning.InspectMeetsEngine | src/engine/operation.rs:116-119 | so does an inspection, whose size is that of the value and its envelope |
| StoreMeaning.QuarantineMeetsEngine | src/engine/operation.rs:120-123 | so are a quarantine's, where a missing blob is the answer that the source is missing |
| StoreMeaning.UnixMeetsEngine | src/filesystem/mod.rs:112-310 | what the Unix save and clear leave and answer is allowed by the engine model too |

## Left out

- Coordinator panics and their recovery (`fail_queued_after_coordinator_panic`): outcomes depend on the order of unwinding. Panics inside operations and maintenance are modelled.
- Test hooks and benchmark events. Without the dispatch hook `prepare_dispatch` always succeeds, and a job can fail to be handed over only after shutdown, which the models rule out.
- The interleaving inside one event: the coordinator handles each event, and a caller checks the lifecycle and sends, as one step. The lifecycle lock orders them in the source.
- EngineAnswers.SequentialAnswers: does not say which storage error is reported; that is what the file models say.
- ReplyOrder.RepliesInOrder: does not cover operations that panicked, because a worker drops their reply while the coordinator may still be delivering.
- EngineSystem.Apply: does not model the time that `inspect` reports, nor unreadable files; `StoreMeaning.Sound` is the condition under which the two disks correspond.
- SaveHandshake.SaveSafety: does not distinguish the storage errors before the commit, and does not model the early `StoreClosed` and `BlobTooLarge` returns, which start no handshake.
- FileStore.SaveBlob: does not model write and flush errors that the platform reports as "already exists", after which the source would try another name.
- UnixStore.SaveBlob: does not model the temporary names of `atomic-write-file`, which are private to that library; quarantine on Unix has the same loop as on Windows and is modelled once.
- Cleanup.CleanupStaleFiles: does not model how file names are converted to text, and takes it that a directory listing names no file twice; the refusal of a zero minimum age is made by the caller.
- The blocking facade's delegations, the asynchronous facade beyond what the handshake covers (an answer that pre-empts reading, a dropped caller), opening a store, path normalisation and Win32 path and time conversion.
- BLAKE3, random numbers and the thread and channel libraries: keys are their hashes, identifiers are an arbitrary supply that may run out, channels are sequences.
- What a flush or a synchronization makes durable: the file models record that they happened, and in which order, but a crash leaves the directory as the running system sees it.
- Running out of memory: a buffer that may be asked for is taken to be granted.
- Power loss, other processes and other stores on the same directory, which the source excludes from its contract.
