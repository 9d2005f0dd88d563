/** What the directory steps mean for the blobs: what a reader finds, after a result or after a crash. */
module StoreMeaning {
  import opened Collections
  import opened Crc32c
  import opened BigEndian
  import opened Envelope
  import opened StreamFormat
  import opened Names
  import opened FileSystem
  import opened FileStore
  import opened FileRemoval
  import UnixStore
  import EngineTypes
  import Coordinator
  import EngineSystem

  /** What a healthy disk yields for a key: nothing, a payload, or why there is none. */
  function Content(files: Files, config: Config, hash: string): Option<Outcome<seq<Byte>>> {
    var path := BlobName(hash, config.suffix);
    if path !in files then None
    else if files[path].Special? then Some(Failure(Io))
    else Some(DecodeBytes(config.format, files[path].bytes, config.maximum))
  }

  predicate Holding(files: Files, config: Config, hash: string) {
    var path := BlobName(hash, config.suffix);
    path in files && files[path].Regular?
  }

  /** A load that succeeds returns what a healthy disk holds. */
  predicate LoadExplained(files: Files, r: StoreResult<Option<seq<Byte>>>, config: Config, hash: string) {
    match r
    case Done(None) => Content(files, config, hash).None?
    case Done(Some(payload)) => Content(files, config, hash) == Some(Success(payload))
    case Failed(_) => true
  }

  /** What reading the file yields when reads start to fail at the given position, if at all. */
  function DecodeFile(files: Files, config: Config, hash: string, fault: Option<nat>,
                      wordMax: nat): Call<Outcome<seq<Byte>>>
    requires Holding(files, config, hash)
  {
    var source := Source(files[BlobName(hash, config.suffix)].bytes, fault);
    Decode(config.format, source, config.maximum, wordMax, wordMax)
  }

  /** The result of a load whose file could be opened and read as far as the fault. */
  function LoadResult(files: Files, config: Config, hash: string, fault: Option<nat>,
                      wordMax: nat): Call<StoreResult<Option<seq<Byte>>>>
  {
    var path := BlobName(hash, config.suffix);
    if path !in files then Ended(Done(None))
    else if files[path].Special? then Ended(Failed(StoreError.Content(Io)))
    else
      match DecodeFile(files, config, hash, fault, wordMax)
      case Unwound => Unwound
      case Ended(Success(payload)) => Ended(Done(Some(payload)))
      case Ended(Failure(error)) => Ended(Failed(StoreError.Content(error)))
  }

  /** What the calls that failed make of a load. */
  ghost predicate LoadBlames(files: Files, r: Call<StoreResult<Option<seq<Byte>>>>, config: Config, hash: string,
                             wordMax: nat, calls: seq<Failure>)
  {
    || (calls == [] && r == LoadResult(files, config, hash, None, wordMax))
    || (calls == [OpenFailure] && r == Ended(Failed(IoError(OpenBlob))))
    || (calls == [InspectFailure] && r == Ended(Failed(IoError(InspectNamespace))))
    || (calls == [NotDirectoryFailure] && r == Ended(Failed(NamespacePathIsNotDirectory)))
    || (calls == [ReadFailure] && Holding(files, config, hash)
        && exists at: nat :: r == LoadResult(files, config, hash, Some(at), wordMax))
  }

  /** A load panics only over a file that declares more than a buffer can hold. Without a failed call its result is what
      the file holds, and each error says which call failed. */
  method LoadBlob(disk: Disk, config: Config, hash: string, wordMax: nat)
      returns (r: Call<StoreResult<Option<seq<Byte>>>>)
    requires ValidConfig(config)
    modifies disk`failed
    ensures old(disk.failed) <= disk.failed
    ensures LoadBlames(disk.files, r, config, hash, wordMax, Since(old(disk.failed), disk.failed))
    ensures disk.failed == old(disk.failed) ==> r == LoadResult(disk.files, config, hash, None, wordMax)
    ensures r.Ended? ==> LoadExplained(disk.files, r.value, config, hash)
  {
    hide BlobName, Decode;
    var path := BlobName(hash, config.suffix);
    var found := disk.OpenFile(path);
    if found.LookupFailed? {
      return Ended(Failed(IoError(OpenBlob)));
    }
    if found.Missing? {
      var available := EnsureNamespaceAvailable(disk);
      return Ended(if available.Failed? then Failed(available.error) else Done(None));
    }
    if found.entry.Special? {
      return Ended(Failed(StoreError.Content(Io)));
    }
    var fault := disk.ReadingFault();
    var source := Source(found.entry.bytes, fault);
    var reader := new Reader(source, 0);
    var outcome := DecodeReader(config.format, reader, config.maximum, wordMax, wordMax);
    assert outcome == DecodeFile(disk.files, config, hash, fault, wordMax);
    if outcome.Ended? && outcome.value.Success? {
      MachinesOnlyFail(config.format, source, config.maximum, wordMax, wordMax);
      FaultsOnlyFail(config.format, source, config.maximum);
    }
    r :=
      match outcome
      case Unwound => Unwound
      case Ended(Success(payload)) => Ended(Done(Some(payload)))
      case Ended(Failure(error)) => Ended(Failed(StoreError.Content(error)));
    assert r == LoadResult(disk.files, config, hash, fault, wordMax);
  }

  /** The limits of a machine can make a good file unreadable, never a bad file good. */
  lemma MachinesOnlyFail(format: Format, source: Source, maximum: nat, usizeLimit: nat, wordMax: nat)
    requires var r := Decode(format, source, maximum, usizeLimit, wordMax); r.Ended? && r.value.Success?
    ensures Decode(format, source, maximum, usizeLimit, wordMax) == Ended(DecodeSource(format, source, maximum))
  {
    hide DecodeSource;
  }

  /** So can a read fault. */
  lemma FaultsOnlyFail(format: Format, source: Source, maximum: nat)
    requires DecodeSource(format, source, maximum).Success?
    ensures DecodeBytes(format, source.data, maximum) == DecodeSource(format, source, maximum)
  {
    hide Crc, CrcOf, FromBytes;
  }

  datatype Inspection = Absent | Present(size: nat)

  /** An inspection that succeeds says whether there is a file, and how long it is. */
  predicate InspectExplained(files: Files, r: StoreResult<Inspection>, config: Config, hash: string) {
    var path := BlobName(hash, config.suffix);
    match r
    case Done(Absent) => path !in files
    case Done(Present(size)) => path in files && files[path].Regular? && size == |files[path].bytes|
    case Failed(UnexpectedFileType) => path in files && files[path].Special?
    case Failed(_) => true
  }

  /** The result of an inspection of what is there. */
  function InspectResult(files: Files, config: Config, hash: string): StoreResult<Inspection> {
    var path := BlobName(hash, config.suffix);
    if path !in files then Done(Absent)
    else if files[path].Special? then Failed(UnexpectedFileType)
    else Done(Present(|files[path].bytes|))
  }

  /** What the calls that failed make of an inspection. */
  predicate InspectBlames(files: Files, r: StoreResult<Inspection>, config: Config, hash: string, calls: seq<Failure>) {
    || (calls == [] && r == InspectResult(files, config, hash))
    || (calls == [MetadataFailure] && r == Failed(IoError(StoreOperation.InspectBlob)))
    || (calls == [InspectFailure] && r == Failed(IoError(InspectNamespace)))
    || (calls == [NotDirectoryFailure] && r == Failed(NamespacePathIsNotDirectory))
  }

  method InspectBlob(disk: Disk, config: Config, hash: string) returns (r: StoreResult<Inspection>)
    modifies disk`failed
    ensures old(disk.failed) <= disk.failed
    ensures InspectBlames(disk.files, r, config, hash, Since(old(disk.failed), disk.failed))
    ensures disk.failed == old(disk.failed) ==> r == InspectResult(disk.files, config, hash)
    ensures InspectExplained(disk.files, r, config, hash)
  {
    hide BlobName;
    var path := BlobName(hash, config.suffix);
    var found := disk.Metadata(path);
    match found {
      case LookupFailed =>
        return Failed(IoError(StoreOperation.InspectBlob));
      case Found(entry) =>
        return if entry.Regular? then Done(Present(|entry.bytes|)) else Failed(UnexpectedFileType);
      case Missing =>
        var available := EnsureNamespaceAvailable(disk);
        return if available.Failed? then Failed(available.error) else Done(Absent);
    }
  }

  // ---- Crashes ---------------------------------------------------------------------------------

  /** Wherever a save stops, a reader finds the old content or the complete new payload, and no other blob changes. */
  lemma SaveCrashSafe(before: Files, now: Files, config: Config, hash: string, payload: seq<Byte>)
    requires ValidConfig(config) && IsHash(hash) && |payload| <= config.maximum
    requires OldOrNew(before, now, config, hash, Encode(config.format, payload))
    ensures Content(now, config, hash) == Content(before, config, hash)
         || Content(now, config, hash) == Some(Success(payload))
    ensures forall other: string :: IsHash(other) && other != hash ==>
      Content(now, config, other) == Content(before, config, other)
    ensures forall other: string, id: string :: IsHash(other) ==>
      Same(before, now, QuarantineName(other, config.suffix, id))
  {
    hide Encode, DecodeBytes, IsStaging, QuarantineName;
    RoundTrip(config.format, payload, config.maximum);
    OthersKeepBlobs(before, now, config, hash, "save");
  }

  lemma OthersKeepBlobs(before: Files, now: Files, config: Config, hash: string, kind: string)
    requires ValidConfig(config) && IsHash(hash) && IsKind(kind)
    requires OthersSame(before, now, BlobName(hash, config.suffix), hash, config.suffix, kind)
    ensures forall other: string :: IsHash(other) && other != hash ==>
      Content(now, config, other) == Content(before, config, other)
    ensures forall other: string, id: string :: IsHash(other) ==>
      Same(before, now, QuarantineName(other, config.suffix, id))
  {
    hide DecodeBytes, IsStaging;
    var suffix := config.suffix;
    forall other: string | IsHash(other) && other != hash
      ensures Content(now, config, other) == Content(before, config, other)
    {
      assert BlobName(other, suffix)[..64] == other && BlobName(hash, suffix)[..64] == hash;
      if IsStaging(hash, suffix, kind, BlobName(other, suffix)) {
        StagingIsPrivate(hash, suffix, kind, BlobName(other, suffix));
      }
      assert Same(before, now, BlobName(other, suffix));
    }
    forall other: string, id: string | IsHash(other) ensures Same(before, now, QuarantineName(other, suffix, id)) {
      var aside := QuarantineName(other, suffix, id);
      assert |aside| > |BlobName(hash, suffix)|;
      if IsStaging(hash, suffix, kind, aside) {
        StagingIsPrivate(hash, suffix, kind, aside);
      }
    }
  }

  /** A streaming save whose staging file could not be opened costs no blob and no quarantined blob. */
  lemma LostStagingIsSafe(before: Files, now: Files, config: Config, hash: string, staging: string)
    requires ValidConfig(config) && IsHash(hash)
    requires IsStaging(hash, config.suffix, "save", staging) && AtMostLost(before, now, staging)
    ensures forall other: string :: IsHash(other) ==> Content(now, config, other) == Content(before, config, other)
    ensures forall other: string, id: string :: IsHash(other) ==>
      Same(before, now, QuarantineName(other, config.suffix, id))
  {
    hide DecodeBytes, IsStaging, BlobName, QuarantineName;
    StagingIsPrivate(hash, config.suffix, "save", staging);
  }

  /** A half-written staging file is never mistaken for a blob. */
  lemma StagingIsTruncated(before: Files, now: Files, config: Config, staging: string, payload: seq<Byte>)
    requires ValidConfig(config) && |payload| <= config.maximum && now != before
    requires Staged(before, now, staging, Encode(config.format, payload))
    ensures var r := DecodeBytes(config.format, now[staging].bytes, config.maximum);
            now[staging].bytes == Encode(config.format, payload) || (r.Failure? && r.failure.TruncatedEnvelope?)
  {
    hide Encode, DecodeBytes;
    var envelope, bytes := Encode(config.format, payload), now[staging].bytes;
    assert bytes == envelope[..|bytes|];
    if |bytes| < |envelope| {
      PrefixTruncated(config.format, payload, config.maximum, |bytes|);
    }
  }

  /** Wherever a clear stops, a reader finds the old content or nothing, and no other blob changes. */
  lemma ClearCrashSafe(before: Files, now: Files, config: Config, hash: string)
    requires ValidConfig(config) && IsHash(hash) && OldOrAbsent(before, now, config, hash)
    ensures Content(now, config, hash).None? || Content(now, config, hash) == Content(before, config, hash)
    ensures forall other: string :: IsHash(other) && other != hash ==>
      Content(now, config, other) == Content(before, config, other)
    ensures forall other: string, id: string :: IsHash(other) ==>
      Same(before, now, QuarantineName(other, config.suffix, id))
  {
    hide DecodeBytes, IsStaging, QuarantineName;
    OthersKeepBlobs(before, now, config, hash, "clear");
  }

  /** The very same file under a new name, which was free, and nothing else changed. */
  ghost predicate MovedTo(before: Files, now: Files, path: string, aside: string) {
    && path in before && path !in now && aside !in before && aside in now && now[aside] == before[path]
    && forall name: string :: name != path && name != aside ==> Same(before, now, name)
  }

  /** Wherever a quarantine stops, the very same file is at exactly one of its two names. */
  lemma QuarantineCrashSafe(before: Files, now: Files, config: Config, hash: string)
    requires ValidConfig(config) && IsHash(hash) && AtOneName(before, now, config, hash) && now != before
    ensures BlobName(hash, config.suffix) in before && BlobName(hash, config.suffix) !in now
    ensures exists id: string ::
      && IsHash(id)
      && MovedTo(before, now, BlobName(hash, config.suffix), QuarantineName(hash, config.suffix, id))
  {
    hide BlobName, QuarantineName;
    var path := BlobName(hash, config.suffix);
    var id :| Quarantined(before, now, config, hash, id);
    CanonicalNeverQuarantine(hash, config.suffix, hash, config.suffix, id);
    var aside := QuarantineName(hash, config.suffix, id);
    assert MovedTo(before, now, path, aside);
  }

  // ---- Retries end -------------------------------------------------------------------------------

  function Taken(hash: string, suffix: string, kind: string, identifiers: seq<seq<Byte>>): set<string> {
    if identifiers == [] then {}
    else Taken(hash, suffix, kind, identifiers[1..]) + {TempName(hash, suffix, kind, Hex(identifiers[0]))}
  }

  predicate NoRepeats(identifiers: seq<seq<Byte>>) {
    forall i, j :: 0 <= i < j < |identifiers| ==> identifiers[i] != identifiers[j]
  }

  lemma {:induction false} TakenMembers(hash: string, suffix: string, kind: string, identifiers: seq<seq<Byte>>,
                                        name: string)
    requires name in Taken(hash, suffix, kind, identifiers)
    ensures exists i :: 0 <= i < |identifiers| && name == TempName(hash, suffix, kind, Hex(identifiers[i]))
  {
    hide TempName, Hex;
    if name in Taken(hash, suffix, kind, identifiers[1..]) {
      TakenMembers(hash, suffix, kind, identifiers[1..], name);
      var i :| 0 <= i < |identifiers[1..]| && name == TempName(hash, suffix, kind, Hex(identifiers[1..][i]));
      assert identifiers[i + 1] == identifiers[1..][i];
    }
  }

  lemma {:induction false} TakenCount(hash: string, suffix: string, kind: string, identifiers: seq<seq<Byte>>)
    requires NoRepeats(identifiers) && forall i :: 0 <= i < |identifiers| ==> |identifiers[i]| == 32
    requires IsHash(hash) && IsKind(kind)
    ensures |Taken(hash, suffix, kind, identifiers)| == |identifiers|
  {
    hide TempName, Hex;
    if identifiers != [] {
      var rest, first := identifiers[1..], identifiers[0];
      TakenCount(hash, suffix, kind, rest);
      var name := TempName(hash, suffix, kind, Hex(first));
      if name in Taken(hash, suffix, kind, rest) {
        TakenMembers(hash, suffix, kind, rest, name);
        var i :| 0 <= i < |rest| && name == TempName(hash, suffix, kind, Hex(rest[i]));
        assert rest[i] == identifiers[i + 1];
        HexIsHex(first);
        HexIsHex(rest[i]);
        TempNameInjective(hash, kind, Hex(first), hash, kind, Hex(rest[i]), suffix);
        HexInjective(first, rest[i]);
        assert false;
      }
    }
  }

  /** A random source that does not repeat itself gives out only after more names than there are files. */
  lemma RetriesEnd(files: Files, hash: string, suffix: string, kind: string, identifiers: seq<seq<Byte>>)
    requires NoRepeats(identifiers) && forall i :: 0 <= i < |identifiers| ==> |identifiers[i]| == 32
    requires IsHash(hash) && IsKind(kind) && AllTaken(files, hash, suffix, kind, identifiers, |identifiers|)
    ensures |identifiers| <= |files|
  {
    hide TempName, Hex;
    TakenCount(hash, suffix, kind, identifiers);
    forall name | name in Taken(hash, suffix, kind, identifiers) ensures name in files.Keys {
      TakenMembers(hash, suffix, kind, identifiers, name);
    }
    SubsetSize(Taken(hash, suffix, kind, identifiers), files.Keys);
    assert |files| == |files.Keys|;
  }

  // ---- What the engine is told ---------------------------------------------------------------------

  /** A key whose file is absent or sound has a value on the engine's abstract disk. */
  predicate Sound(files: Files, config: Config, hash: string) {
    var content := Content(files, config, hash);
    content.None? || content.value.Success?
  }

  function Value(files: Files, config: Config, hash: string): Option<EngineTypes.Blob>
    requires Sound(files, config, hash)
  {
    var content := Content(files, config, hash);
    if content.None? then None else Some(content.value.value)
  }

  /** The engine's account of an operation that left this value: it took effect and gave this answer, or it failed,
      before or after its effect, and gave none. */
  ghost predicate Accounted(operation: EngineTypes.Operation, before: Option<EngineTypes.Blob>,
                            now: Option<EngineTypes.Blob>, answer: Option<EngineTypes.BlockingResult>)
  {
    exists fault: EngineSystem.Fault ::
      var fate := EngineSystem.Decide(operation, before, fault);
      && (if answer.Some? then fate == EngineTypes.Took(answer.value) else fate.Faulted?)
      && now == if EngineSystem.Effective(fate) then EngineSystem.Apply(operation, before).0 else before
  }

  lemma IsAccounted(operation: EngineTypes.Operation, before: Option<EngineTypes.Blob>, now: Option<EngineTypes.Blob>,
                    answer: Option<EngineTypes.BlockingResult>)
    requires var applied := EngineSystem.Apply(operation, before);
             if answer.Some? then answer.value == applied.1 && now == applied.0 else now == applied.0 || now == before
    ensures Accounted(operation, before, now, answer)
  {
    var fault :=
      if answer.Some? then EngineSystem.NoFault
      else if now == before then EngineSystem.Before(0)
      else EngineSystem.After(0);
    var fate := EngineSystem.Decide(operation, before, fault);
    assert (if answer.Some? then fate == EngineTypes.Took(answer.value) else fate.Faulted?) &&
      now == if EngineSystem.Effective(fate) then EngineSystem.Apply(operation, before).0 else before;
  }

  /** The engine's answer for a file operation that ended so, if it is one. */
  function Answer(done: bool, result: EngineTypes.BlockingResult): Option<EngineTypes.BlockingResult> {
    if done then Some(result) else None
  }

  /** A save's result and effect are one of the fates the engine allows: the answer is a success exactly if the file
      was saved. */
  lemma SaveMeetsEngine(before: Files, now: Files, r: StoreResult<()>, config: Config, hash: string, payload: seq<Byte>)
    requires ValidConfig(config) && IsHash(hash) && |payload| <= config.maximum && Sound(before, config, hash)
    requires SaveExplained(before, now, r, BlobName(hash, config.suffix), Encode(config.format, payload))
    ensures Sound(now, config, hash)
    ensures var v, w := Value(before, config, hash), Value(now, config, hash);
            && Accounted(EngineTypes.Save(payload), v, w, Answer(r.Done?, EngineTypes.SaveResult(EngineTypes.Ok(()))))
            && Accounted(EngineTypes.SaveStream(payload), v, w,
                         Answer(r.Done?, EngineTypes.SaveStreamResult(EngineTypes.Ok(()))))
  {
    hide Encode, DecodeBytes, BlobName, Accounted;
    RoundTrip(config.format, payload, config.maximum);
    var v, w := Value(before, config, hash), Value(now, config, hash);
    IsAccounted(EngineTypes.Save(payload), v, w, Answer(r.Done?, EngineTypes.SaveResult(EngineTypes.Ok(()))));
    IsAccounted(EngineTypes.SaveStream(payload), v, w,
                Answer(r.Done?, EngineTypes.SaveStreamResult(EngineTypes.Ok(()))));
  }

  lemma ClearMeetsEngine(before: Files, now: Files, r: StoreResult<()>, config: Config, hash: string)
    requires ValidConfig(config) && IsHash(hash) && Sound(before, config, hash)
    requires OldOrAbsent(before, now, config, hash) && ClearExplained(before, now, r, config, hash)
    ensures Sound(now, config, hash)
    ensures Accounted(EngineTypes.Clear, Value(before, config, hash), Value(now, config, hash),
                      Answer(r.Done?, EngineTypes.ClearResult(EngineTypes.Ok(()))))
  {
    hide DecodeBytes, BlobName, Accounted, SetAsideSomewhere, OnlyChange, OthersSame;
    IsAccounted(EngineTypes.Clear, Value(before, config, hash), Value(now, config, hash),
                Answer(r.Done?, EngineTypes.ClearResult(EngineTypes.Ok(()))));
  }

  /** The Unix operations are explained, and so meet the engine, in the same way. */
  lemma UnixMeetsEngine(before: Files, now: Files, r: StoreResult<()>, config: Config, hash: string,
                        payload: seq<Byte>)
    requires ValidConfig(config) && IsHash(hash) && |payload| <= config.maximum && Sound(before, config, hash)
    ensures var path, envelope := BlobName(hash, config.suffix), Encode(config.format, payload);
            && UnixStore.Replaced(before, now, path, envelope) && (r.Done? ==> Holds(now, path, envelope))
            && (r.Failed? && r.error != AtomicCommit ==> now == before)
            && r != Failed(IoError(SyncNamespaceDirectory))
            ==> SaveExplained(before, now, r, path, envelope)
    ensures UnixStore.Cleared(before, now, r, BlobName(hash, config.suffix)) ==>
      && Sound(now, config, hash)
      && Accounted(EngineTypes.Clear, Value(before, config, hash), Value(now, config, hash),
                   Answer(r.Done?, EngineTypes.ClearResult(EngineTypes.Ok(()))))
  {
    hide DecodeBytes, BlobName, Accounted, Encode;
    if UnixStore.Cleared(before, now, r, BlobName(hash, config.suffix)) {
      IsAccounted(EngineTypes.Clear, Value(before, config, hash), Value(now, config, hash),
                  Answer(r.Done?, EngineTypes.ClearResult(EngineTypes.Ok(()))));
    }
  }

  /** A missing blob is an answer, not a fault. */
  function QuarantineAnswer(r: StoreResult<string>): Option<EngineTypes.BlockingResult> {
    match r
    case Done(_) => Some(EngineTypes.QuarantineResult(EngineTypes.Ok(())))
    case Failed(QuarantineSourceMissing) =>
      Some(EngineTypes.QuarantineResult(EngineTypes.Err(EngineTypes.QuarantineSourceMissing)))
    case Failed(_) => None
  }

  lemma QuarantineMeetsEngine(before: Files, now: Files, r: StoreResult<string>, config: Config, hash: string)
    requires ValidConfig(config) && IsHash(hash) && Sound(before, config, hash)
    requires QuarantineExplained(before, now, r, config, hash)
    ensures Sound(now, config, hash)
    ensures Accounted(EngineTypes.Quarantine, Value(before, config, hash), Value(now, config, hash),
                      QuarantineAnswer(r))
  {
    hide DecodeBytes, BlobName, QuarantineName, Accounted;
    if now != before {
      QuarantineCrashSafe(before, now, config, hash);
    }
    if r.Done? {
      RenamedAway(before, now, r, config, hash);
    }
    IsAccounted(EngineTypes.Quarantine, Value(before, config, hash), Value(now, config, hash), QuarantineAnswer(r));
  }

  /** A quarantine that is done has moved the file. */
  lemma RenamedAway(before: Files, now: Files, r: StoreResult<string>, config: Config, hash: string)
    requires ValidConfig(config) && IsHash(hash) && QuarantineExplained(before, now, r, config, hash) && r.Done?
    ensures BlobName(hash, config.suffix) in before && BlobName(hash, config.suffix) !in now
  {
    hide BlobName, QuarantineName;
    CanonicalNeverQuarantine(hash, config.suffix, hash, config.suffix, r.value);
  }

  /** Operations that only read leave the value alone, and answer as the engine says if they succeed. */
  lemma LoadMeetsEngine(files: Files, r: StoreResult<Option<seq<Byte>>>, config: Config, hash: string)
    requires Sound(files, config, hash) && LoadExplained(files, r, config, hash)
    ensures var v := Value(files, config, hash);
            Accounted(EngineTypes.Load, v, v,
                      if r.Done? then Some(EngineTypes.LoadResult(EngineTypes.Ok(r.value))) else None)
  {
    hide DecodeBytes, BlobName, Accounted;
    var v := Value(files, config, hash);
    IsAccounted(EngineTypes.Load, v, v,
                if r.Done? then Some(EngineTypes.LoadResult(EngineTypes.Ok(r.value))) else None);
  }

  /** The engine's answer for an inspection. */
  function InspectAnswer(r: StoreResult<Inspection>): Option<EngineTypes.BlockingResult> {
    match r
    case Done(Absent) => Some(EngineTypes.InspectResult(EngineTypes.Ok(None)))
    case Done(Present(size)) => Some(EngineTypes.InspectResult(EngineTypes.Ok(Some(size))))
    case Failed(_) => None
  }

  /** The size of a sound file is that of its payload and the envelope around it. */
  lemma InspectMeetsEngine(files: Files, r: StoreResult<Inspection>, config: Config, hash: string)
    requires ValidConfig(config) && Sound(files, config, hash) && InspectExplained(files, r, config, hash)
    ensures var v := Value(files, config, hash); Accounted(EngineTypes.Inspect, v, v, InspectAnswer(r))
  {
    hide DecodeBytes, BlobName, Accounted, Encode;
    var v := Value(files, config, hash);
    if v.Some? {
      var bytes := files[BlobName(hash, config.suffix)].bytes;
      Canonical(config.format, bytes, config.maximum, v.value);
      EnvelopeFields(config.format, v.value);
    }
    IsAccounted(EngineTypes.Inspect, v, v, InspectAnswer(r));
  }

  /** How opening the file for a streaming load went, on this directory. */
  predicate OpeningFits(files: Files, opening: Opening, config: Config, hash: string) {
    var path := BlobName(hash, config.suffix);
    match opening
    case NotFound(_) => path !in files
    case OpenFailed => true
    case Opened(first, _, _) => path in files && files[path].Regular? && first.data == files[path].bytes
  }

  lemma LoadStreamMeetsEngine(files: Files, opening: Opening, r: Outcome<Option<nat>>, chunks: seq<seq<Byte>>,
                              config: Config, hash: string)
    requires ValidConfig(config) && Sound(files, config, hash)
    requires OpeningFits(files, opening, config, hash)
    requires StreamExplained(config.format, opening, config.maximum, r, chunks)
    ensures var v := Value(files, config, hash);
            && Accounted(EngineTypes.LoadStream(true), v, v,
                         if r.Success? then Some(EngineTypes.LoadStreamResult(EngineTypes.Ok(r.value))) else None)
            && (r.Success? && v.Some? ==> Flatten(chunks) == v.value)
  {
    hide Problem, BlobName, Accounted, Chunked, Flatten;
    var v := Value(files, config, hash);
    if r.Success? && opening.Opened? {
      FaultsOnlyFail(config.format, opening.first, config.maximum);
      ChunksMakePayload(v.value);
    }
    IsAccounted(EngineTypes.LoadStream(true), v, v,
                if r.Success? then Some(EngineTypes.LoadStreamResult(EngineTypes.Ok(r.value))) else None);
  }
}
