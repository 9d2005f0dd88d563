/** Save and clear on Unix: a dependency stages out of sight and replaces atomically. */
module UnixStore {
  import opened Collections
  import opened Crc32c
  import opened Envelope
  import opened StreamFormat
  import opened Names
  import opened FileSystem
  import opened FileStore
  import opened FileRemoval

  /** The whole directory before, or with the new file in place. */
  predicate Replaced(before: Files, now: Files, path: string, envelope: seq<Byte>) {
    now == before || (Holds(now, path, envelope) && now == before[path := now[path]])
  }

  ghost predicate AlwaysReplaced(history: seq<Files>, from: nat, before: Files, path: string, envelope: seq<Byte>) {
    forall i :: from <= i < |history| ==> Replaced(before, history[i], path, envelope)
  }

  /** Opens the staging file, unless that fails; it may take fewer bytes than are wanted. */
  method OpenWriter(disk: Disk, ghost wanted: nat) returns (writer: Writer?)
    modifies disk`failed
    ensures writer != null ==> fresh(writer) && writer.staged == []
    ensures disk.failed == old(disk.failed) +
      if writer == null then [CreateFailure]
      else Blame(writer.capacity.Some? && writer.capacity.value < wanted, WriteFailure)
  {
    var opens := disk.OpenStaging();
    if !opens {
      return null;
    }
    var capacity := disk.Room(wanted);
    writer := new Writer(capacity);
  }

  method CommitWriter(disk: Disk, path: string, writer: Writer) returns (r: StoreResult<()>)
    requires disk.Valid()
    modifies disk`files, disk`history, disk`failed
    ensures disk.Valid() && old(disk.history) <= disk.history
    ensures disk.failed == old(disk.failed) + Blame(r.Failed?, CommitFailure)
    ensures Replaced(old(disk.files), disk.files, path, writer.staged)
    ensures AlwaysReplaced(disk.history, |old(disk.history)|, old(disk.files), path, writer.staged)
    ensures r == Done(()) || r == Failed(AtomicCommit)
    ensures r.Done? ==> Holds(disk.files, path, writer.staged)
  {
    var ok := disk.Commit(path, writer.staged);
    return if ok then Done(()) else Failed(AtomicCommit);
  }

  /** Writes the sections one after the other, until one of them does not fit. */
  method WriteSections(writer: Writer, header: seq<Byte>, payload: seq<Byte>, checksum: seq<Byte>) returns (ok: bool)
    requires writer.staged == []
    modifies writer`staged
    ensures ok <==> Fits(header + payload + checksum, writer.capacity)
    ensures ok ==> writer.staged == header + payload + checksum
  {
    ok := writer.WriteAll(header);
    assert [] + header == header;
    if !ok {
      return;
    }
    ok := writer.WriteAll(payload);
    if !ok {
      return;
    }
    ok := writer.WriteAll(checksum);
  }

  /** Stages the complete envelope out of sight. */
  method StagePayload(disk: Disk, header: seq<Byte>, payload: seq<Byte>, checksum: seq<Byte>)
      returns (writer: Writer?, error: Option<StoreError>)
    modifies disk`failed
    ensures error.None? ==>
      && writer != null && fresh(writer) && disk.failed == old(disk.failed)
      && writer.staged == header + payload + checksum
    ensures error.Some? ==>
      || (error.value == IoError(OpenAtomicWriter) && disk.failed == old(disk.failed) + [CreateFailure])
      || (error.value == IoError(WriteEnvelope) && disk.failed == old(disk.failed) + [WriteFailure])
  {
    writer := OpenWriter(disk, |header + payload + checksum|);
    if writer == null {
      return null, Some(IoError(OpenAtomicWriter));
    }
    var ok := WriteSections(writer, header, payload, checksum);
    error := if ok then None else Some(IoError(WriteEnvelope));
  }

  lemma StagingBlamed(error: StoreError, before: seq<Failure>, now: seq<Failure>)
    requires || (error == IoError(OpenAtomicWriter) && now == before + [CreateFailure])
             || (error == IoError(WriteEnvelope) && now == before + [WriteFailure])
             || (error.Content? && now == before)
    ensures before <= now && SaveBlames(Failed(error), Since(before, now))
  {
  }

  lemma CommitBlamed(r: StoreResult<()>, before: seq<Failure>)
    requires r == Done(()) || r == Failed(AtomicCommit)
    ensures var now := before + Blame(r.Failed?, CommitFailure);
            before <= now && SaveBlames(r, Since(before, now)) && (now == before ==> r.Done?)
  {
  }

  lemma NothingReplaced(history: seq<Files>, files: Files, path: string, envelope: seq<Byte>)
    ensures AlwaysReplaced(history, |history|, files, path, envelope) && Replaced(files, files, path, envelope)
  {
  }

  method SaveBlob(disk: Disk, config: Config, hash: string, payload: seq<Byte>) returns (r: StoreResult<()>)
    requires disk.Valid() && ValidConfig(config) && IsHash(hash) && |payload| <= WORD_MAX
    modifies disk`files, disk`history, disk`failed
    ensures disk.Valid() && old(disk.history) <= disk.history && old(disk.failed) <= disk.failed
    ensures SaveBlames(r, Since(old(disk.failed), disk.failed))
    ensures disk.failed == old(disk.failed) && |payload| <= config.maximum ==> r.Done?
    ensures var path := BlobName(hash, config.suffix); var envelope := Encode(config.format, payload);
      && AlwaysReplaced(disk.history, |old(disk.history)|, old(disk.files), path, envelope)
      && Replaced(old(disk.files), disk.files, path, envelope)
      && (r.Done? ==> Holds(disk.files, path, envelope))
    ensures |payload| > config.maximum <==> r == Failed(Content(BlobTooLarge(|payload|, config.maximum)))
    ensures r.Failed? && r.error != AtomicCommit ==> disk.files == old(disk.files)
  {
    hide Encode, Header, BlobName, Crc, CrcAppend, CrcBytes, Holds, SaveBlames, Since, Replaced, AlwaysReplaced,
      ValidFormat, ValidSuffix, ValidMaximum, IsHash, Blame;
    var path := BlobName(hash, config.suffix);
    ghost var envelope := Encode(config.format, payload);
    NothingReplaced(disk.history, disk.files, path, envelope);
    var header := EnvelopeHeader(config.format, |payload|, config.maximum);
    if header.Failure? {
      r := Failed(Content(header.failure));
      NothingFailed(r, disk.failed);
      return;
    }
    var checksum := CrcBytes(CrcAppend(Crc(header.value), payload));
    assert header.value + payload + checksum == envelope by {
      EncodedInParts(config.format, payload);
    }
    var writer, error := StagePayload(disk, header.value, payload, checksum);
    if error.Some? {
      StagingBlamed(error.value, old(disk.failed), disk.failed);
      return Failed(error.value);
    }
    assert writer.staged == envelope;
    r := CommitWriter(disk, path, writer);
    CommitBlamed(r, old(disk.failed));
  }

  /** Stages the stream out of sight. What has been staged of one that fails is dropped. */
  method StageStream(disk: Disk, config: Config, declared: nat, messages: seq<Message>)
      returns (writer: Writer?, error: Option<StoreError>)
    requires ValidConfig(config) && declared <= config.maximum
    modifies disk`failed
    ensures error.None? ==>
      && writer != null && fresh(writer) && Verdict(declared, messages).Success? && disk.failed == old(disk.failed)
      && writer.staged == Wanted(config.format, declared, config.maximum, messages)
    ensures error.Some? ==>
      || (error.value == IoError(OpenAtomicWriter) && disk.failed == old(disk.failed) + [CreateFailure])
      || (error.value == IoError(WriteEnvelope) && disk.failed == old(disk.failed) + [WriteFailure])
      || (Verdict(declared, messages).Failure? && error.value == Content(Verdict(declared, messages).failure)
          && disk.failed == old(disk.failed))
  {
    hide Wanted, Verdict;
    VerdictNeverIo(declared, messages);
    ghost var wanted := Wanted(config.format, declared, config.maximum, messages);
    writer := OpenWriter(disk, |wanted|);
    if writer == null {
      return null, Some(IoError(OpenAtomicWriter));
    }
    var outcome := WriteStreamEnvelope(config.format, config.maximum, declared, writer, messages);
    error :=
      if outcome.Success? then None
      else Some(if outcome.failure == Io then IoError(WriteEnvelope) else Content(outcome.failure));
  }

  method SaveBlobFromReceiver(disk: Disk, config: Config, hash: string, declared: nat, messages: seq<Message>)
      returns (r: StoreResult<()>)
    requires disk.Valid() && ValidConfig(config) && IsHash(hash) && declared <= WORD_MAX
    modifies disk`files, disk`history, disk`failed
    ensures disk.Valid() && old(disk.history) <= disk.history && old(disk.failed) <= disk.failed
    ensures SaveBlames(r, Since(old(disk.failed), disk.failed))
    ensures disk.failed == old(disk.failed) && declared <= config.maximum ==>
      if Verdict(declared, messages).Success? then r.Done?
      else r == Failed(Content(Verdict(declared, messages).failure))
    ensures var path := BlobName(hash, config.suffix);
      var wanted := Wanted(config.format, declared, config.maximum, messages);
      && AlwaysReplaced(disk.history, |old(disk.history)|, old(disk.files), path, wanted)
      && Replaced(old(disk.files), disk.files, path, wanted)
      && (r.Done? ==> Holds(disk.files, path, wanted))
    ensures declared > config.maximum ==> r == Failed(Content(BlobTooLarge(declared, config.maximum)))
    ensures declared <= config.maximum ==> StreamError(r, declared, messages)
    ensures r.Failed? && r.error != AtomicCommit ==> disk.files == old(disk.files)
  {
    hide Wanted, Header, BlobName, Verdict, SaveBlames, Since, Holds, Replaced, AlwaysReplaced, ValidSuffix,
      ValidMaximum, IsHash, Blame;
    var path := BlobName(hash, config.suffix);
    NothingReplaced(disk.history, disk.files, path, Wanted(config.format, declared, config.maximum, messages));
    var header := EnvelopeHeader(config.format, declared, config.maximum);
    if header.Failure? {
      r := Failed(Content(header.failure));
      NothingFailed(r, disk.failed);
      return;
    }
    var writer, error := StageStream(disk, config, declared, messages);
    if error.Some? {
      StagingBlamed(error.value, old(disk.failed), disk.failed);
      return Failed(error.value);
    }
    r := CommitWriter(disk, path, writer);
    CommitBlamed(r, old(disk.failed));
  }

  /** What the result of a clear says about the directory. */
  predicate Cleared(before: Files, now: Files, r: StoreResult<()>, path: string) {
    match r
    case Done(_) => now == before - {path}
    case Failed(IoError(OpenNamespaceDirectory)) => path in before && now == before - {path}
    case Failed(IoError(SyncNamespaceDirectory)) => path in before && now == before - {path}
    case Failed(IoError(RemoveBlob)) => now == before || now == before - {path}
    case Failed(_) => now == before && path !in before
  }

  /** Each error of a clear says which call failed, and without a failed call there is none. */
  predicate ClearBlames(r: StoreResult<()>, calls: seq<Failure>) {
    match r
    case Done(_) => calls == []
    case Failed(IoError(RemoveBlob)) => calls == [DeleteFailure]
    case Failed(IoError(OpenNamespaceDirectory)) => calls == [OpenDirectoryFailure]
    case Failed(IoError(SyncNamespaceDirectory)) => calls == [SyncFailure]
    case Failed(IoError(InspectNamespace)) => calls == [InspectFailure]
    case Failed(NamespacePathIsNotDirectory) => calls == [NotDirectoryFailure]
    case Failed(_) => false
  }

  method ClearBlob(disk: Disk, config: Config, hash: string) returns (r: StoreResult<()>)
    requires disk.Valid()
    modifies disk`files, disk`history, disk`synced, disk`failed
    ensures disk.Valid() && old(disk.history) <= disk.history && old(disk.failed) <= disk.failed
    ensures ClearBlames(r, Since(old(disk.failed), disk.failed))
    ensures disk.failed == old(disk.failed) ==> r.Done?
    ensures Cleared(old(disk.files), disk.files, r, BlobName(hash, config.suffix))
    ensures forall i :: |old(disk.history)| <= i < |disk.history| ==>
      disk.history[i] == old(disk.files) || disk.history[i] == old(disk.files) - {BlobName(hash, config.suffix)}
    ensures r.Done? && BlobName(hash, config.suffix) in old(disk.files) ==> disk.synced == |disk.history|
  {
    hide BlobName;
    var path := BlobName(hash, config.suffix);
    var removed := disk.Remove(path);
    match removed {
      case Removed =>
        var opens := disk.OpenDirectory();
        if !opens {
          return Failed(IoError(OpenNamespaceDirectory));
        }
        var ok := disk.SyncDirectory();
        return if ok then Done(()) else Failed(IoError(SyncNamespaceDirectory));
      case RemoveNotFound =>
        assert disk.files == disk.files - {path};
        r := EnsureNamespaceAvailable(disk);
      case RemoveFailed =>
        return Failed(IoError(RemoveBlob));
    }
  }
}
