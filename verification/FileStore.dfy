/** Save as a sequence of directory steps, each of which may fail or be the last. */
module FileStore {
  import opened Collections
  import opened Crc32c
  import opened Envelope
  import opened StreamFormat
  import opened Names
  import opened FileSystem

  datatype Config = Config(format: Format, suffix: string, maximum: nat)

  predicate ValidConfig(config: Config) {
    ValidFormat(config.format) && ValidSuffix(config.suffix) && ValidMaximum(config.maximum)
  }

  datatype StoreOperation =
    | OpenAtomicWriter | WriteEnvelope | SyncNamespaceDirectory | OpenNamespaceDirectory | InspectNamespace
    | RefreshClearStagingAge | RemoveBlob | RemoveTemporaryFile | EnumerateTemporaryFiles | OpenBlob | InspectBlob

  datatype StoreError =
    | Content(error: BlobError)
    | IoError(operation: StoreOperation)
    | AtomicCommit
    | IdentifierGeneration
    | NamespacePathIsNotDirectory
    | UnexpectedFileType
    | QuarantineSourceMissing
    | QuarantineCommit
    | QuarantineNamespaceSync(identifier: string)

  datatype StoreResult<+T> = Done(value: T) | Failed(error: StoreError)

  // ---- Which calls failed -------------------------------------------------------------------

  /** The calls that failed since then. */
  function Since(before: seq<Failure>, now: seq<Failure>): seq<Failure>
    requires before <= now
  {
    now[|before|..]
  }

  lemma SinceOnly(before: seq<Failure>, calls: seq<Failure>)
    ensures before <= before + calls && Since(before, before + calls) == calls
  {
  }

  /** Each error of a save says which call failed, and without a failed call there is no error, except for a payload or
      a stream that is not acceptable, and for a random source that gives out. */
  predicate SaveBlames(r: StoreResult<()>, calls: seq<Failure>) {
    match r
    case Done(_) => calls == []
    case Failed(Content(_)) => calls == []
    case Failed(IdentifierGeneration) => calls == []
    case Failed(IoError(OpenAtomicWriter)) => calls == [CreateFailure]
    case Failed(IoError(WriteEnvelope)) => calls == [WriteFailure] || calls == [FlushFailure]
    case Failed(AtomicCommit) => calls == [MoveFailure] || calls == [CommitFailure]
    case Failed(IoError(SyncNamespaceDirectory)) => calls == [SyncFailure]
    case Failed(_) => false
  }

  /** The same for a streamed save, which may fail to remove what it staged as well. */
  predicate StreamBlames(r: StoreResult<()>, calls: seq<Failure>) {
    || SaveBlames(r, calls)
    || (r.Failed? && r.error.IoError? && calls != [] && calls[|calls| - 1] == DeleteFailure
        && SaveBlames(r, calls[..|calls| - 1]) && r.error.operation != SyncNamespaceDirectory)
    || (r.Failed? && r.error.Content? && calls == [DeleteFailure])
  }

  /** An operation that ends before it makes a call that fails. */
  lemma NothingFailed(r: StoreResult<()>, failed: seq<Failure>)
    requires r.Failed? && (r.error.Content? || r.error.IdentifierGeneration?)
    ensures SaveBlames(r, Since(failed, failed)) && StreamBlames(r, Since(failed, failed))
  {
  }

  lemma HealthySave(r: StoreResult<()>, before: seq<Failure>, now: seq<Failure>)
    requires before <= now && SaveBlames(r, Since(before, now))
    ensures now == before ==> r.Done? || r.error.Content? || r.error.IdentifierGeneration?
  {
  }

  lemma HealthyStream(r: StoreResult<()>, before: seq<Failure>, now: seq<Failure>)
    requires before <= now && StreamBlames(r, Since(before, now))
    ensures now == before ==> r.Done? || r.error.Content? || r.error.IdentifierGeneration?
  {
  }

  // ---- Which states are allowed -------------------------------------------------------------

  /** The staging names that one operation on one key makes up. */
  predicate IsStaging(hash: string, suffix: string, kind: string, name: string) {
    var front := hash + Marker(suffix) + kind + ".";
    front <= name && IsHash(name[|front|..])
  }

  /** A flushed file holding exactly these bytes. */
  predicate Holds(files: Files, name: string, bytes: seq<Byte>) {
    name in files && files[name].Regular? && files[name].bytes == bytes && files[name].flushed
  }

  /** Nothing that was there has changed, except possibly at this path, and only staging files have been added. */
  ghost predicate OthersSame(before: Files, now: Files, path: string, hash: string, suffix: string, kind: string) {
    forall name: string {:trigger Same(before, now, name)} ::
      name != path && (name in before || !IsStaging(hash, suffix, kind, name)) ==> Same(before, now, name)
  }

  /** A save in progress: the canonical file is untouched or holds the complete new envelope, flushed. */
  ghost predicate OldOrNew(before: Files, now: Files, config: Config, hash: string, envelope: seq<Byte>) {
    var path := BlobName(hash, config.suffix);
    && OthersSame(before, now, path, hash, config.suffix, "save")
    && (Same(before, now, path) || Holds(now, path, envelope))
  }

  /** Every state since `from` is allowed for a save: what a crash at any point leaves behind. */
  ghost predicate AlwaysOldOrNew(history: seq<Files>, from: nat, before: Files, config: Config, hash: string,
                                 envelope: seq<Byte>)
  {
    forall i :: from <= i < |history| ==> OldOrNew(before, history[i], config, hash, envelope)
  }

  ghost predicate AlwaysSame(history: seq<Files>, from: nat, before: Files, path: string) {
    forall i :: from <= i < |history| ==> Same(before, history[i], path)
  }

  /** Nothing has happened yet, except to one staging file that holds part of the bytes. */
  predicate Staged(before: Files, now: Files, staging: string, bytes: seq<Byte>) {
    now == before || (
      && staging !in before && staging in now && now == before[staging := now[staging]]
      && now[staging].Regular? && now[staging].bytes <= bytes)
  }

  lemma StagingName(hash: string, suffix: string, kind: string, bytes: seq<Byte>)
    requires IsHash(hash) && ValidSuffix(suffix) && |bytes| == 32 && IsKind(kind)
    ensures IsHash(Hex(bytes)) && IsStaging(hash, suffix, kind, TempName(hash, suffix, kind, Hex(bytes)))
  {
    hide Hex;
    HexIsHex(bytes);
    var front := hash + Marker(suffix) + kind + ".";
    assert TempName(hash, suffix, kind, Hex(bytes)) == front + Hex(bytes);
  }

  lemma StagingIsTemp(hash: string, suffix: string, kind: string, name: string)
    requires IsStaging(hash, suffix, kind, name)
    ensures var front := hash + Marker(suffix) + kind + "."; name == TempName(hash, suffix, kind, name[|front|..])
  {
    var front := hash + Marker(suffix) + kind + ".";
    assert name == front + name[|front|..];
  }

  /** Only staging files of this key and kind can be touched: no canonical blob, no quarantined blob. */
  lemma StagingIsPrivate(hash: string, suffix: string, kind: string, name: string)
    requires IsHash(hash) && ValidSuffix(suffix) && IsKind(kind) && IsStaging(hash, suffix, kind, name)
    ensures IsOwnedTemporaryFilename(name, suffix)
    ensures forall h: string, s: string {:trigger BlobName(h, s)} :: IsHash(h) && ValidSuffix(s) ==>
      name != BlobName(h, s)
    ensures forall h: string, s: string, id: string {:trigger QuarantineName(h, s, id)} ::
      IsHash(h) && ValidSuffix(s) ==> name != QuarantineName(h, s, id)
  {
    hide IsOwnedTemporaryFilename, BlobName, QuarantineName, TempName;
    var front := hash + Marker(suffix) + kind + ".";
    StagingIsTemp(hash, suffix, kind, name);
    GeneratedIsOwned(hash, suffix, kind, name[|front|..]);
    forall h: string, s: string | IsHash(h) && ValidSuffix(s) ensures name != BlobName(h, s) {
      CanonicalNeverOwned(h, s, suffix);
    }
    forall h: string, s: string, id: string | IsHash(h) && ValidSuffix(s) ensures name != QuarantineName(h, s, id) {
      QuarantineNeverOwned(h, s, id, suffix);
    }
  }

  lemma StagedIsOld(before: Files, now: Files, config: Config, hash: string, staging: string, bytes: seq<Byte>,
                    envelope: seq<Byte>)
    requires ValidConfig(config) && IsHash(hash)
    requires IsStaging(hash, config.suffix, "save", staging) && Staged(before, now, staging, bytes)
    ensures OldOrNew(before, now, config, hash, envelope) && Same(before, now, BlobName(hash, config.suffix))
  {
    hide IsStaging, BlobName;
    StagingIsPrivate(hash, config.suffix, "save", staging);
  }

  // ---- Staging ------------------------------------------------------------------------------

  /** One staging file has been added, with exactly these bytes. */
  predicate Added(before: Files, now: Files, staging: string, bytes: seq<Byte>) {
    && staging !in before && staging in now && now == before[staging := now[staging]]
    && now[staging].Regular? && now[staging].bytes == bytes
  }

  lemma GrowingIsStaged(before: Files, current: Files, now: Files, staging: string, front: seq<Byte>,
                        section: seq<Byte>, bytes: seq<Byte>)
    requires Added(before, current, staging, front) && Growing(current, now, staging, section)
    requires front + section <= bytes
    ensures Staged(before, now, staging, bytes)
    ensures now[staging].bytes == front + section ==> Added(before, now, staging, front + section)
  {
  }

  method WriteSection(disk: Disk, ghost before: Files, staging: string, ghost front: seq<Byte>, section: seq<Byte>,
                      ghost bytes: seq<Byte>) returns (ok: bool)
    requires disk.Valid() && Added(before, disk.files, staging, front) && front + section <= bytes
    modifies disk`files, disk`history, disk`failed
    ensures disk.Valid() && old(disk.history) <= disk.history
    ensures disk.failed == old(disk.failed) + Blame(!ok, WriteFailure)
    ensures Staged(before, disk.files, staging, bytes)
    ensures ok ==> Added(before, disk.files, staging, front + section)
    ensures forall i :: |old(disk.history)| <= i < |disk.history| ==> Staged(before, disk.history[i], staging, bytes)
  {
    hide Staged, Growing;
    ghost var current := disk.files;
    ok := disk.WriteAll(staging, section);
    forall now | Growing(current, now, staging, section) ensures Staged(before, now, staging, bytes) {
      GrowingIsStaged(before, current, now, staging, front, section, bytes);
    }
    GrowingIsStaged(before, current, disk.files, staging, front, section, bytes);
  }

  method CreateStaging(disk: Disk, staging: string, header: seq<Byte>, payload: seq<Byte>, checksum: seq<Byte>)
      returns (r: OpenResult, ok: bool)
    requires disk.Valid()
    modifies disk`files, disk`history, disk`failed
    ensures disk.Valid() && old(disk.history) <= disk.history
    ensures r.OpenFailed? ==> disk.failed == old(disk.failed) + [CreateFailure]
    ensures r.Created? && !ok ==>
      disk.failed == old(disk.failed) + [WriteFailure] || disk.failed == old(disk.failed) + [FlushFailure]
    ensures r.AlreadyExists? || ok ==> disk.failed == old(disk.failed)
    ensures !r.Created? ==> disk.files == old(disk.files) && disk.history == old(disk.history) && !ok
    ensures r.AlreadyExists? ==> staging in old(disk.files)
    ensures Staged(old(disk.files), disk.files, staging, header + payload + checksum)
    ensures ok ==> Added(old(disk.files), disk.files, staging, header + payload + checksum)
    ensures ok ==> Holds(disk.files, staging, header + payload + checksum)
    ensures forall i :: |old(disk.history)| <= i < |disk.history| ==>
      Staged(old(disk.files), disk.history[i], staging, header + payload + checksum)
  {
    ghost var before := disk.files;
    ghost var envelope := header + payload + checksum;
    r := disk.CreateNew(staging);
    if !r.Created? {
      return r, false;
    }
    assert Added(before, disk.files, staging, []) && Staged(before, disk.files, staging, envelope);
    hide Staged, Added, Holds;
    assert [] + header == header <= envelope;
    ok := WriteSection(disk, before, staging, [], header, envelope);
    if !ok {
      return;
    }
    ok := WriteSection(disk, before, staging, header, payload, envelope);
    if !ok {
      return;
    }
    ok := WriteSection(disk, before, staging, header + payload, checksum, envelope);
    if !ok {
      return;
    }
    ok := FlushStaging(disk, before, staging, envelope);
  }

  method FlushStaging(disk: Disk, ghost before: Files, staging: string, ghost bytes: seq<Byte>) returns (ok: bool)
    requires disk.Valid() && Added(before, disk.files, staging, bytes)
    modifies disk`files, disk`history, disk`failed
    ensures disk.Valid() && old(disk.history) <= disk.history
    ensures disk.failed == old(disk.failed) + Blame(!ok, FlushFailure)
    ensures Added(before, disk.files, staging, bytes) && Staged(before, disk.files, staging, bytes)
    ensures ok ==> Holds(disk.files, staging, bytes)
    ensures forall i :: |old(disk.history)| <= i < |disk.history| ==> Staged(before, disk.history[i], staging, bytes)
  {
    ok := disk.Flush(staging);
  }

  method CreateStreamingStaging(disk: Disk, config: Config, staging: string, declared: nat, messages: seq<Message>)
      returns (r: OpenResult, outcome: Outcome<()>)
    requires disk.Valid() && ValidConfig(config) && declared <= config.maximum
    modifies disk`files, disk`history, disk`failed
    ensures disk.Valid() && old(disk.history) <= disk.history
    ensures r.OpenFailed? ==> disk.failed == old(disk.failed) + [CreateFailure]
    ensures r.Created? && outcome == Failure(Io) ==>
      disk.failed == old(disk.failed) + [WriteFailure] || disk.failed == old(disk.failed) + [FlushFailure]
    ensures r.AlreadyExists? || (r.Created? && outcome != Failure(Io)) ==> disk.failed == old(disk.failed)
    ensures !r.Created? ==> disk.files == old(disk.files) && disk.history == old(disk.history)
    ensures r.AlreadyExists? ==> staging in old(disk.files)
    ensures r.Created? ==> staging !in old(disk.files) && staging in disk.files
    ensures Staged(old(disk.files), disk.files, staging, Wanted(config.format, declared, config.maximum, messages))
    ensures r.Created? ==> outcome == Failure(Io) || outcome == Verdict(declared, messages)
    ensures r.Created? && outcome.Success? ==>
      && Added(old(disk.files), disk.files, staging, Wanted(config.format, declared, config.maximum, messages))
      && Holds(disk.files, staging, Wanted(config.format, declared, config.maximum, messages))
    ensures forall i :: |old(disk.history)| <= i < |disk.history| ==>
      Staged(old(disk.files), disk.history[i], staging, Wanted(config.format, declared, config.maximum, messages))
  {
    hide Wanted, Verdict;
    outcome := Failure(Io);
    ghost var before := disk.files;
    r := disk.CreateNew(staging);
    if !r.Created? {
      return;
    }
    ghost var wanted := Wanted(config.format, declared, config.maximum, messages);
    VerdictNeverIo(declared, messages);
    var capacity := disk.Room(|wanted|);
    var writer := new Writer(capacity);
    outcome := WriteStreamEnvelope(config.format, config.maximum, declared, writer, messages);
    assert writer.staged <= wanted;
    disk.Append(staging, writer.staged);
    if outcome.Failure? {
      return;
    }
    var ok := FlushStaging(disk, before, staging, wanted);
    if !ok {
      outcome := Failure(Io);
    }
  }

  lemma VerdictNeverIo(declared: nat, messages: seq<Message>)
    ensures Verdict(declared, messages) != Failure(Io)
  {
  }

  // ---- Save ---------------------------------------------------------------------------------

  /** First without replacing, then, if a file is in the way, replacing it. It fails only if a move does. */
  method CommitStaging(disk: Disk, staging: string, destination: string) returns (ok: bool)
    requires disk.Valid() && staging in disk.files && staging != destination
    modifies disk`files, disk`history, disk`failed
    ensures disk.Valid() && old(disk.history) <= disk.history
    ensures disk.failed == old(disk.failed) + Blame(!ok, MoveFailure)
    ensures disk.files == old(disk.files) || disk.files == Renamed(old(disk.files), staging, destination)
    ensures ok ==> disk.files == Renamed(old(disk.files), staging, destination)
    ensures forall i :: |old(disk.history)| <= i < |disk.history| ==>
      disk.history[i] == old(disk.files) || disk.history[i] == Renamed(old(disk.files), staging, destination)
  {
    var first := disk.Move(staging, destination, false);
    match first {
      case Moved =>
        return true;
      case DestinationExists =>
        var second := disk.Move(staging, destination, true);
        return second.Moved?;
      case _ =>
        return false;
    }
  }

  /** What the result of a save says about the directory. */
  ghost predicate SaveExplained(before: Files, now: Files, r: StoreResult<()>, path: string, envelope: seq<Byte>) {
    match r
    case Done(_) => Holds(now, path, envelope) && forall name: string :: name != path ==> Same(before, now, name)
    case Failed(IoError(SyncNamespaceDirectory)) =>
      Holds(now, path, envelope) && forall name: string :: name != path ==> Same(before, now, name)
    case Failed(AtomicCommit) => Same(before, now, path) || Holds(now, path, envelope)
    case Failed(_) => Same(before, now, path)
  }

  /** Once staging is complete, the canonical file changes from old to new in one step. */
  method Publish(disk: Disk, config: Config, hash: string, ghost before: Files, staging: string,
                 ghost envelope: seq<Byte>)
      returns (r: StoreResult<()>)
    requires disk.Valid() && ValidConfig(config) && IsHash(hash) && IsStaging(hash, config.suffix, "save", staging)
    requires Added(before, disk.files, staging, envelope) && Holds(disk.files, staging, envelope)
    modifies disk`files, disk`history, disk`synced, disk`failed
    ensures disk.Valid() && old(disk.history) <= disk.history && old(disk.failed) <= disk.failed
    ensures SaveBlames(r, Since(old(disk.failed), disk.failed))
    ensures SaveExplained(before, disk.files, r, BlobName(hash, config.suffix), envelope)
    ensures r.Done? || r == Failed(AtomicCommit) || r == Failed(IoError(SyncNamespaceDirectory))
    ensures r.Done? ==> disk.synced == |disk.history|
    ensures OldOrNew(before, disk.files, config, hash, envelope)
    ensures AlwaysOldOrNew(disk.history, |old(disk.history)|, before, config, hash, envelope)
  {
    hide IsStaging, BlobName;
    var path := BlobName(hash, config.suffix);
    StagingIsPrivate(hash, config.suffix, "save", staging);
    ghost var staged := disk.files;
    StagedIsOld(before, staged, config, hash, staging, envelope, envelope);
    assert OldOrNew(before, Renamed(staged, staging, path), config, hash, envelope);
    var ok := CommitStaging(disk, staging, path);
    if !ok {
      return Failed(AtomicCommit);
    }
    ok := disk.SyncDirectory();
    return if ok then Done(()) else Failed(IoError(SyncNamespaceDirectory));
  }

  /** Every attempt that the random source allowed met an existing file. */
  predicate AllTaken(files: Files, hash: string, suffix: string, kind: string, identifiers: seq<seq<Byte>>,
                     tried: nat)
  {
    tried <= |identifiers| && forall i :: 0 <= i < tried ==> TempName(hash, suffix, kind, Hex(identifiers[i])) in files
  }

  /** Stages and publishes under one name, unless that name is taken. */
  method SaveAttempt(disk: Disk, config: Config, hash: string, staging: string, header: seq<Byte>, payload: seq<Byte>,
                     checksum: seq<Byte>) returns (taken: bool, r: StoreResult<()>)
    requires disk.Valid() && ValidConfig(config) && IsHash(hash) && IsStaging(hash, config.suffix, "save", staging)
    modifies disk`files, disk`history, disk`synced, disk`failed
    ensures disk.Valid() && old(disk.history) <= disk.history && old(disk.failed) <= disk.failed
    ensures if taken then disk.failed == old(disk.failed) else SaveBlames(r, Since(old(disk.failed), disk.failed))
    ensures taken ==> disk.files == old(disk.files) && disk.history == old(disk.history) && staging in disk.files
    ensures var envelope := header + payload + checksum;
      && (!taken ==> SaveExplained(old(disk.files), disk.files, r, BlobName(hash, config.suffix), envelope))
      && OldOrNew(old(disk.files), disk.files, config, hash, envelope)
      && AlwaysOldOrNew(disk.history, |old(disk.history)|, old(disk.files), config, hash, envelope)
    ensures r.Failed? ==> !r.error.Content? && !r.error.IdentifierGeneration?
    ensures !taken && r.Done? ==> disk.synced == |disk.history|
  {
    hide IsStaging, BlobName, Staged, OldOrNew, Holds, Added;
    r := Failed(AtomicCommit);
    ghost var before, envelope := disk.files, header + payload + checksum;
    var created, ok := CreateStaging(disk, staging, header, payload, checksum);
    forall now | Staged(before, now, staging, envelope)
      ensures OldOrNew(before, now, config, hash, envelope) && Same(before, now, BlobName(hash, config.suffix))
    {
      StagedIsOld(before, now, config, hash, staging, envelope, envelope);
    }
    taken := created.AlreadyExists?;
    if taken {
      return;
    }
    if !ok {
      r := Failed(IoError(if created.OpenFailed? then OpenAtomicWriter else WriteEnvelope));
      return;
    }
    r := Publish(disk, config, hash, before, staging, envelope);
  }

  lemma TakenNext(files: Files, hash: string, suffix: string, kind: string, identifiers: seq<seq<Byte>>, tried: nat)
    requires tried < |identifiers| && AllTaken(files, hash, suffix, kind, identifiers, tried)
    requires TempName(hash, suffix, kind, Hex(identifiers[tried])) in files
    ensures AllTaken(files, hash, suffix, kind, identifiers, tried + 1)
    ensures identifiers[tried..][1..] == identifiers[tried + 1..]
  {
  }

  lemma NothingRecorded(history: seq<Files>, before: Files, config: Config, hash: string, envelope: seq<Byte>,
                        identifiers: seq<seq<Byte>>)
    ensures AlwaysOldOrNew(history, |history|, before, config, hash, envelope)
    ensures AlwaysSame(history, |history|, before, BlobName(hash, config.suffix))
    ensures AllTaken(before, hash, config.suffix, "save", identifiers, 0)
  {
  }

  method SaveBlob(disk: Disk, config: Config, hash: string, payload: seq<Byte>) returns (r: StoreResult<()>)
    requires disk.Valid() && ValidConfig(config) && IsHash(hash) && |payload| <= WORD_MAX
    modifies disk
    ensures disk.Valid() && old(disk.history) <= disk.history && old(disk.failed) <= disk.failed
    ensures SaveBlames(r, Since(old(disk.failed), disk.failed))
    ensures disk.failed == old(disk.failed) && |payload| <= config.maximum ==>
      r.Done? || r == Failed(IdentifierGeneration)
    ensures var envelope := Encode(config.format, payload);
      && SaveExplained(old(disk.files), disk.files, r, BlobName(hash, config.suffix), envelope)
      && OldOrNew(old(disk.files), disk.files, config, hash, envelope)
      && AlwaysOldOrNew(disk.history, |old(disk.history)|, old(disk.files), config, hash, envelope)
    ensures |payload| > config.maximum <==> r == Failed(Content(BlobTooLarge(|payload|, config.maximum)))
    ensures r.Failed? && (r.error.Content? || r.error.IdentifierGeneration?) ==> disk.files == old(disk.files)
    ensures r == Failed(IdentifierGeneration) ==>
      AllTaken(old(disk.files), hash, config.suffix, "save", old(disk.identifiers), |old(disk.identifiers)|)
    ensures r.Done? ==> disk.synced == |disk.history|
  {
    hide Encode, Hex, TempName, BlobName, IsStaging, FileStem, OldOrNew, Holds, Crc, CrcAppend, CrcBytes,
      AlwaysOldOrNew, AllTaken, SaveBlames, Since;
    var path := BlobName(hash, config.suffix);
    ghost var before := disk.files;
    Untouched(before, config, hash, Encode(config.format, payload));
    NothingRecorded(disk.history, before, config, hash, Encode(config.format, payload), disk.identifiers);
    var header := EnvelopeHeader(config.format, |payload|, config.maximum);
    if header.Failure? {
      r := Failed(Content(header.failure));
      NothingFailed(r, disk.failed);
      return;
    }
    var checksum := CrcBytes(CrcAppend(Crc(header.value), payload));
    EncodedInParts(config.format, payload);
    StemIsHash(hash, config.suffix);
    var stem := FileStem(path);
    ghost var tried := 0;
    while true
      invariant disk.Valid() && disk.files == before && disk.history == old(disk.history)
      invariant disk.failed == old(disk.failed)
      invariant tried <= |old(disk.identifiers)| && disk.identifiers == old(disk.identifiers)[tried..]
      invariant AllTaken(before, hash, config.suffix, "save", old(disk.identifiers), tried)
      decreases |disk.identifiers|
    {
      var bytes := disk.Fill();
      if bytes.None? {
        r := Failed(IdentifierGeneration);
        NothingFailed(r, disk.failed);
        return;
      }
      var identifier := RandomIdentifier(bytes.value);
      StagingName(hash, config.suffix, "save", bytes.value);
      var taken;
      var staging := TempName(stem, config.suffix, "save", identifier);
      taken, r := SaveAttempt(disk, config, hash, staging, header.value, payload, checksum);
      if !taken {
        HealthySave(r, old(disk.failed), disk.failed);
        return;
      }
      TakenNext(before, hash, config.suffix, "save", old(disk.identifiers), tried);
      tried := tried + 1;
    }
  }

  lemma Untouched(files: Files, config: Config, hash: string, envelope: seq<Byte>)
    ensures OldOrNew(files, files, config, hash, envelope)
  {
  }

  lemma EncodedInParts(format: Format, payload: seq<Byte>)
    requires ValidFormat(format) && |payload| <= WORD_MAX
    ensures var header := Header(format, |payload|);
            header + payload + CrcBytes(CrcAppend(Crc(header), payload)) == Encode(format, payload)
  {
    hide Crc, CrcAppend;
    CrcAppends(Header(format, |payload|), payload);
  }

  // ---- Streaming save -------------------------------------------------------------------------

  /** Nothing has happened, except that one file may be gone. */
  predicate AtMostLost(before: Files, now: Files, name: string) {
    now == before || now == before - {name}
  }

  ghost predicate AlwaysAtMostLost(history: seq<Files>, from: nat, before: Files, name: string) {
    forall i :: from <= i < |history| ==> AtMostLost(before, history[i], name)
  }

  ghost predicate AlwaysStaged(history: seq<Files>, from: nat, before: Files, staging: string, bytes: seq<Byte>) {
    forall i :: from <= i < |history| ==> Staged(before, history[i], staging, bytes)
  }

  /** Which states a streaming save goes through. If the staging file could not be opened, the file of that name is
      removed nonetheless, and that is all. Otherwise they are those of any save. */
  ghost predicate StreamStates(history: seq<Files>, from: nat, before: Files, now: Files, r: StoreResult<()>,
                               config: Config, hash: string, envelope: seq<Byte>)
  {
    if r == Failed(IoError(OpenAtomicWriter)) then
      exists staging :: IsStaging(hash, config.suffix, "save", staging)
        && AtMostLost(before, now, staging) && AlwaysAtMostLost(history, from, before, staging)
    else
      OldOrNew(before, now, config, hash, envelope) && AlwaysOldOrNew(history, from, before, config, hash, envelope)
  }

  lemma LostIsOld(before: Files, now: Files, config: Config, hash: string, staging: string)
    requires ValidConfig(config) && IsHash(hash)
    requires IsStaging(hash, config.suffix, "save", staging) && AtMostLost(before, now, staging)
    ensures Same(before, now, BlobName(hash, config.suffix))
  {
    hide IsStaging, BlobName;
    StagingIsPrivate(hash, config.suffix, "save", staging);
  }

  /** Stages the stream, or removes what was staged of it. */
  method StageStream(disk: Disk, config: Config, staging: string, declared: nat, messages: seq<Message>)
      returns (taken: bool, error: Option<StoreError>)
    requires disk.Valid() && ValidConfig(config) && declared <= config.maximum
    modifies disk`files, disk`history, disk`failed
    ensures disk.Valid() && old(disk.history) <= disk.history && old(disk.failed) <= disk.failed
    ensures if error.Some? then !taken && StreamBlames(Failed(error.value), Since(old(disk.failed), disk.failed))
            else disk.failed == old(disk.failed)
    ensures taken ==> disk.files == old(disk.files) && disk.history == old(disk.history) && staging in disk.files
    ensures var wanted := Wanted(config.format, declared, config.maximum, messages);
      && (!taken && error.None? ==>
           Added(old(disk.files), disk.files, staging, wanted) && Holds(disk.files, staging, wanted))
      && (!taken && error.None? ==> Verdict(declared, messages).Success?)
      && (error != Some(IoError(OpenAtomicWriter)) ==>
           && Staged(old(disk.files), disk.files, staging, wanted)
           && AlwaysStaged(disk.history, |old(disk.history)|, old(disk.files), staging, wanted))
    ensures error == Some(IoError(OpenAtomicWriter)) ==>
      && AtMostLost(old(disk.files), disk.files, staging)
      && AlwaysAtMostLost(disk.history, |old(disk.history)|, old(disk.files), staging)
    ensures !taken && error.Some? ==>
      || error.value == IoError(OpenAtomicWriter)
      || error.value == IoError(WriteEnvelope)
      || (Verdict(declared, messages).Failure? && error.value == Content(Verdict(declared, messages).failure))
  {
    hide Wanted, Verdict;
    ghost var before, wanted := disk.files, Wanted(config.format, declared, config.maximum, messages);
    var created, outcome := CreateStreamingStaging(disk, config, staging, declared, messages);
    ghost var staged := disk.files;
    taken, error := created.AlreadyExists?, None;
    if !taken && (created.OpenFailed? || outcome.Failure?) {
      assert created.Created? ==> staged - {staging} == before;
      var removed := disk.Delete(staging);
      error := Some(
        if created.OpenFailed? then IoError(OpenAtomicWriter)
        else if outcome.failure == Io then IoError(WriteEnvelope) else Content(outcome.failure));
    }
  }

  method StreamingAttempt(disk: Disk, config: Config, hash: string, staging: string, declared: nat,
                          messages: seq<Message>) returns (taken: bool, r: StoreResult<()>)
    requires disk.Valid() && ValidConfig(config) && IsHash(hash) && IsStaging(hash, config.suffix, "save", staging)
    requires declared <= config.maximum
    modifies disk`files, disk`history, disk`synced, disk`failed
    ensures disk.Valid() && old(disk.history) <= disk.history && old(disk.failed) <= disk.failed
    ensures if taken then disk.failed == old(disk.failed) else StreamBlames(r, Since(old(disk.failed), disk.failed))
    ensures taken ==> disk.files == old(disk.files) && disk.history == old(disk.history) && staging in disk.files
    ensures !taken ==>
      var wanted := Wanted(config.format, declared, config.maximum, messages);
      var path := BlobName(hash, config.suffix);
      && SaveExplained(old(disk.files), disk.files, r, path, wanted)
      && StreamStates(disk.history, |old(disk.history)|, old(disk.files), disk.files, r, config, hash, wanted)
      && (Verdict(declared, messages).Failure? ==> AlwaysSame(disk.history, |old(disk.history)|, old(disk.files), path))
      && StreamError(r, declared, messages)
      && (r.Done? ==> disk.synced == |disk.history|)
  {
    hide IsStaging, BlobName, OldOrNew, Holds, Added, Wanted, Verdict, SaveExplained, Staged, AtMostLost;
    r := Failed(AtomicCommit);
    ghost var before, wanted := disk.files, Wanted(config.format, declared, config.maximum, messages);
    ghost var path := BlobName(hash, config.suffix);
    var error;
    taken, error := StageStream(disk, config, staging, declared, messages);
    forall now | Staged(before, now, staging, wanted)
      ensures OldOrNew(before, now, config, hash, wanted) && Same(before, now, path)
    {
      StagedIsOld(before, now, config, hash, staging, wanted, wanted);
    }
    forall now | AtMostLost(before, now, staging) ensures Same(before, now, path) {
      LostIsOld(before, now, config, hash, staging);
    }
    if taken {
      return;
    }
    if error.Some? {
      r := Failed(error.value);
      UnchangedExplained(before, disk.files, r, path, wanted);
      return;
    }
    r := Publish(disk, config, hash, before, staging, wanted);
  }

  /** Which errors a streaming save can end with, once its length is acceptable. */
  predicate StreamError(r: StoreResult<()>, declared: nat, messages: seq<Message>) {
    match r
    case Done(_) => Verdict(declared, messages).Success?
    case Failed(Content(error)) => Verdict(declared, messages) == Failure(error)
    case Failed(AtomicCommit) => Verdict(declared, messages).Success?
    case Failed(IoError(SyncNamespaceDirectory)) => Verdict(declared, messages).Success?
    case Failed(error) => error == IoError(OpenAtomicWriter) || error == IoError(WriteEnvelope)
  }

  lemma UnchangedExplained(before: Files, now: Files, r: StoreResult<()>, path: string, envelope: seq<Byte>)
    requires r.Failed? && r.error != AtomicCommit && r.error != IoError(SyncNamespaceDirectory)
    requires Same(before, now, path) || before == now
    ensures SaveExplained(before, now, r, path, envelope)
  {
  }

  lemma UnchangedStates(history: seq<Files>, before: Files, r: StoreResult<()>, config: Config, hash: string,
                        envelope: seq<Byte>)
    requires r != Failed(IoError(OpenAtomicWriter))
    ensures StreamStates(history, |history|, before, before, r, config, hash, envelope)
  {
    Untouched(before, config, hash, envelope);
  }

  method SaveBlobFromReceiver(disk: Disk, config: Config, hash: string, declared: nat, messages: seq<Message>)
      returns (r: StoreResult<()>)
    requires disk.Valid() && ValidConfig(config) && IsHash(hash) && declared <= WORD_MAX
    modifies disk
    ensures disk.Valid() && old(disk.history) <= disk.history && old(disk.failed) <= disk.failed
    ensures StreamBlames(r, Since(old(disk.failed), disk.failed))
    ensures disk.failed == old(disk.failed) && declared <= config.maximum ==>
      || r == Failed(IdentifierGeneration)
      || (if Verdict(declared, messages).Success? then r.Done?
          else r == Failed(Content(Verdict(declared, messages).failure)))
    ensures var wanted := Wanted(config.format, declared, config.maximum, messages);
      var path := BlobName(hash, config.suffix);
      && SaveExplained(old(disk.files), disk.files, r, path, wanted)
      && StreamStates(disk.history, |old(disk.history)|, old(disk.files), disk.files, r, config, hash, wanted)
      && (Verdict(declared, messages).Failure? ==> AlwaysSame(disk.history, |old(disk.history)|, old(disk.files), path))
    ensures declared > config.maximum ==>
      r == Failed(Content(BlobTooLarge(declared, config.maximum))) && disk.files == old(disk.files)
    ensures declared <= config.maximum ==> StreamError(r, declared, messages) || r == Failed(IdentifierGeneration)
    ensures r == Failed(IdentifierGeneration) ==> disk.files == old(disk.files)
    ensures r == Failed(IdentifierGeneration) ==>
      AllTaken(old(disk.files), hash, config.suffix, "save", old(disk.identifiers), |old(disk.identifiers)|)
    ensures r.Done? ==> disk.synced == |disk.history|
  {
    hide Hex, TempName, BlobName, IsStaging, FileStem, OldOrNew, Holds, Wanted, Verdict, SaveExplained, Same,
      AlwaysOldOrNew, AlwaysSame, AllTaken, StreamStates, StreamBlames, Since;
    var path := BlobName(hash, config.suffix);
    ghost var before, wanted := disk.files, Wanted(config.format, declared, config.maximum, messages);
    Untouched(before, config, hash, wanted);
    NothingRecorded(disk.history, before, config, hash, wanted, disk.identifiers);
    var header := EnvelopeHeader(config.format, declared, config.maximum);
    if header.Failure? {
      r := Failed(Content(header.failure));
      NothingFailed(r, disk.failed);
      UnchangedExplained(before, disk.files, r, path, wanted);
      UnchangedStates(disk.history, before, r, config, hash, wanted);
      return;
    }
    StemIsHash(hash, config.suffix);
    var stem := FileStem(path);
    ghost var tried := 0;
    while true
      invariant disk.Valid() && disk.files == before && disk.history == old(disk.history)
      invariant disk.failed == old(disk.failed)
      invariant tried <= |old(disk.identifiers)| && disk.identifiers == old(disk.identifiers)[tried..]
      invariant AllTaken(before, hash, config.suffix, "save", old(disk.identifiers), tried)
      decreases |disk.identifiers|
    {
      var bytes := disk.Fill();
      if bytes.None? {
        r := Failed(IdentifierGeneration);
        NothingFailed(r, disk.failed);
        UnchangedExplained(before, disk.files, r, path, wanted);
        UnchangedStates(disk.history, before, r, config, hash, wanted);
        return;
      }
      var identifier := RandomIdentifier(bytes.value);
      StagingName(hash, config.suffix, "save", bytes.value);
      var taken;
      var staging := TempName(stem, config.suffix, "save", identifier);
      taken, r := StreamingAttempt(disk, config, hash, staging, declared, messages);
      if !taken {
        HealthyStream(r, old(disk.failed), disk.failed);
        return;
      }
      TakenNext(before, hash, config.suffix, "save", old(disk.identifiers), tried);
      tried := tried + 1;
    }
  }
}
