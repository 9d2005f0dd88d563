/** Clear and quarantine as sequences of directory steps, each of which may fail or be the last. */
module FileRemoval {
  import opened Collections
  import opened Crc32c
  import opened Names
  import opened FileSystem
  import opened FileStore

  // ---- Clear ----------------------------------------------------------------------------------

  predicate SameBytes(a: Entry, b: Entry) {
    a == b || (a.Regular? && b.Regular? && a.bytes == b.bytes)
  }

  /** The same content, whatever the modification time says. */
  predicate SameContent(before: Files, now: Files, name: string) {
    && (name in before <==> name in now)
    && (name in before && name in now ==> SameBytes(before[name], now[name]))
  }

  ghost predicate OnlyChange(before: Files, now: Files, path: string) {
    forall name: string {:trigger Same(before, now, name)} :: name != path ==> Same(before, now, name)
  }

  /** A clear in progress: the canonical content is complete or gone. */
  ghost predicate OldOrAbsent(before: Files, now: Files, config: Config, hash: string) {
    var path := BlobName(hash, config.suffix);
    && OthersSame(before, now, path, hash, config.suffix, "clear")
    && (SameContent(before, now, path) || path !in now)
  }

  ghost predicate AlwaysOldOrAbsent(history: seq<Files>, from: nat, before: Files, config: Config, hash: string) {
    forall i :: from <= i < |history| ==> OldOrAbsent(before, history[i], config, hash)
  }

  predicate Refreshed(before: Files, now: Files, path: string) {
    SameContent(before, now, path) && before - {path} == now - {path}
  }

  /** The cleared content is under this name for now, and nothing else has changed. */
  predicate SetAside(before: Files, now: Files, path: string, staging: string) {
    && path in before && staging !in before && path !in now && staging in now
    && now - {staging} == before - {path}
    && SameBytes(before[path], now[staging])
  }

  ghost predicate SetAsideSomewhere(before: Files, now: Files, config: Config, hash: string) {
    exists staging :: SetAside(before, now, BlobName(hash, config.suffix), staging)
      && IsStaging(hash, config.suffix, "clear", staging)
  }

  /** What the result of a clear says about the directory. */
  ghost predicate ClearExplained(before: Files, now: Files, r: StoreResult<()>, config: Config, hash: string) {
    var path := BlobName(hash, config.suffix);
    match r
    case Done(_) => path !in now && OnlyChange(before, now, path)
    case Failed(IoError(SyncNamespaceDirectory)) => SetAsideSomewhere(before, now, config, hash)
    case Failed(IoError(RemoveTemporaryFile)) =>
      path in before && path !in now && (SetAsideSomewhere(before, now, config, hash) || OnlyChange(before, now, path))
    case Failed(IoError(RemoveBlob)) => SetAsideSomewhere(before, now, config, hash) || Refreshed(before, now, path)
    case Failed(error) => Refreshed(before, now, path) && !error.AtomicCommit? && !error.Content?
  }

  lemma AsideIsAllowed(before: Files, now: Files, config: Config, hash: string, staging: string)
    requires ValidConfig(config) && IsHash(hash) && IsStaging(hash, config.suffix, "clear", staging)
    requires SetAside(before, now, BlobName(hash, config.suffix), staging)
    ensures OldOrAbsent(before, now, config, hash) && SetAsideSomewhere(before, now, config, hash)
    ensures OldOrAbsent(before, now - {staging}, config, hash)
    ensures OnlyChange(before, now - {staging}, BlobName(hash, config.suffix))
  {
    hide IsStaging, BlobName;
    StagingIsPrivate(hash, config.suffix, "clear", staging);
    var path := BlobName(hash, config.suffix);
    forall name: string | name != path ensures Same(before, now - {staging}, name) {
      assert name in before <==> name in before - {path};
    }
    forall name: string | name != path && (name in before || !IsStaging(hash, config.suffix, "clear", name))
      ensures Same(before, now, name)
    {
      assert name != staging;
      assert name in now <==> name in now - {staging};
      assert name in before <==> name in before - {path};
    }
  }

  lemma RefreshedIsAllowed(before: Files, now: Files, config: Config, hash: string)
    requires Refreshed(before, now, BlobName(hash, config.suffix))
    ensures OldOrAbsent(before, now, config, hash) && OnlyChange(before, now, BlobName(hash, config.suffix))
  {
    hide IsStaging, BlobName;
    var path := BlobName(hash, config.suffix);
    forall name: string | name != path ensures Same(before, now, name) {
      assert name in now <==> name in now - {path};
      assert name in before <==> name in before - {path};
    }
  }

  lemma RenamedIsAside(before: Files, current: Files, path: string, staging: string)
    requires Refreshed(before, current, path) && path in current && staging !in current && staging != path
    ensures SetAside(before, Renamed(current, path, staging), path, staging)
  {
    assert staging in before <==> staging in before - {path};
    assert Renamed(current, path, staging) - {staging} == current - {path};
  }

  method EnsureNamespaceAvailable(disk: Disk) returns (r: StoreResult<()>)
    modifies disk`failed
    ensures r.Done? || r.error == NamespacePathIsNotDirectory || r.error == IoError(InspectNamespace)
    ensures disk.failed == old(disk.failed) +
      match r
      case Done(_) => []
      case Failed(error) => if error.NamespacePathIsNotDirectory? then [NotDirectoryFailure] else [InspectFailure]
  {
    var availability := disk.Inspect();
    match availability {
      case Available => return Done(());
      case NotADirectory => return Failed(NamespacePathIsNotDirectory);
      case InspectFailed => return Failed(IoError(InspectNamespace));
    }
  }

  /** The directory has been synchronized since then in a state without this name. */
  ghost predicate SyncedWithout(disk: Disk, since: nat, name: string)
    reads disk
  {
    since < disk.synced <= |disk.history| && name !in disk.history[disk.synced - 1]
  }

  /** Each error of a clear says which call failed, and without a failed call there is none, unless the random source
      gives out. */
  predicate ClearBlames(r: StoreResult<()>, calls: seq<Failure>) {
    match r
    case Done(_) => calls == []
    case Failed(IoError(RefreshClearStagingAge)) => calls == [TouchFailure]
    case Failed(IoError(RemoveBlob)) => calls == [MoveFailure]
    case Failed(IoError(SyncNamespaceDirectory)) => calls == [SyncFailure]
    case Failed(IoError(RemoveTemporaryFile)) => calls == [DeleteFailure]
    case Failed(IoError(InspectNamespace)) => calls == [InspectFailure]
    case Failed(NamespacePathIsNotDirectory) => calls == [NotDirectoryFailure]
    case Failed(IdentifierGeneration) => calls == []
    case Failed(_) => false
  }

  /** Moves the blob to one staging name, unless that name is taken, and removes it there. */
  method ClearAttempt(disk: Disk, config: Config, hash: string, ghost before: Files, staging: string)
      returns (taken: bool, r: StoreResult<()>)
    requires disk.Valid() && ValidConfig(config) && IsHash(hash) && IsStaging(hash, config.suffix, "clear", staging)
    requires Refreshed(before, disk.files, BlobName(hash, config.suffix))
    modifies disk`files, disk`history, disk`synced, disk`failed
    ensures disk.Valid() && old(disk.history) <= disk.history && old(disk.failed) <= disk.failed
    ensures if taken then disk.failed == old(disk.failed) else ClearBlames(r, Since(old(disk.failed), disk.failed))
    ensures taken ==> disk.files == old(disk.files) && disk.history == old(disk.history) && staging in disk.files
    ensures !taken ==> ClearExplained(before, disk.files, r, config, hash)
    ensures !taken ==> r != Failed(IdentifierGeneration)
    ensures AlwaysOldOrAbsent(disk.history, |old(disk.history)|, before, config, hash)
    ensures !taken && r.Done? && BlobName(hash, config.suffix) in old(disk.files) ==>
      SyncedWithout(disk, |old(disk.history)|, BlobName(hash, config.suffix))
  {
    hide IsStaging, BlobName, OldOrAbsent, SetAside, Refreshed, OnlyChange, SameContent;
    taken, r := false, Done(());
    var path := BlobName(hash, config.suffix);
    StagingIsPrivate(hash, config.suffix, "clear", staging);
    ghost var current := disk.files;
    if path in current && staging !in current {
      RenamedIsAside(before, current, path, staging);
      AsideIsAllowed(before, Renamed(current, path, staging), config, hash, staging);
    }
    RefreshedIsAllowed(before, current, config, hash);
    var moved := disk.Move(path, staging, false);
    match moved {
      case Moved =>
        AsideKept(before, disk.files, path, staging);
        var ok := disk.SyncDirectory();
        if !ok {
          r := Failed(IoError(SyncNamespaceDirectory));
          return;
        }
        ok := disk.Delete(staging);
        r := if ok then Done(()) else Failed(IoError(RemoveTemporaryFile));
      case SourceNotFound =>
        r := EnsureNamespaceAvailable(disk);
      case DestinationExists =>
        taken := true;
      case MoveFailed =>
        r := Failed(IoError(RemoveBlob));
    }
  }

  lemma AsideKept(before: Files, now: Files, path: string, staging: string)
    requires SetAside(before, now, path, staging)
    ensures path in before && path !in now && path !in now - {staging}
  {
  }

  lemma TouchBlamed(failed: seq<Failure>)
    ensures failed <= failed + [TouchFailure]
    ensures ClearBlames(Failed(IoError(RefreshClearStagingAge)), Since(failed, failed + [TouchFailure]))
    ensures ClearBlames(Failed(IdentifierGeneration), Since(failed, failed))
  {
  }

  lemma HealthyClear(r: StoreResult<()>, before: seq<Failure>, now: seq<Failure>)
    requires before <= now && ClearBlames(r, Since(before, now))
    ensures now == before ==> r.Done? || r == Failed(IdentifierGeneration)
  {
  }

  /** The namespace check, as the end of a clear that found nothing. */
  method EndAbsent(disk: Disk) returns (r: StoreResult<()>)
    modifies disk`failed
    ensures r.Done? || r.error == NamespacePathIsNotDirectory || r.error == IoError(InspectNamespace)
    ensures old(disk.failed) <= disk.failed && ClearBlames(r, Since(old(disk.failed), disk.failed))
  {
    r := EnsureNamespaceAvailable(disk);
    SinceOnly(old(disk.failed), disk.failed[|old(disk.failed)|..]);
  }

  method ClearBlob(disk: Disk, config: Config, hash: string) returns (r: StoreResult<()>)
    requires disk.Valid() && ValidConfig(config) && IsHash(hash)
    modifies disk
    ensures disk.Valid() && old(disk.history) <= disk.history && old(disk.failed) <= disk.failed
    ensures ClearBlames(r, Since(old(disk.failed), disk.failed))
    ensures disk.failed == old(disk.failed) ==> r.Done? || r == Failed(IdentifierGeneration)
    ensures ClearExplained(old(disk.files), disk.files, r, config, hash)
    ensures AlwaysOldOrAbsent(disk.history, |old(disk.history)|, old(disk.files), config, hash)
    ensures r == Failed(IdentifierGeneration) ==>
      exists current :: Refreshed(old(disk.files), current, BlobName(hash, config.suffix)) &&
        AllTaken(current, hash, config.suffix, "clear", old(disk.identifiers), |old(disk.identifiers)|)
    ensures r.Done? && BlobName(hash, config.suffix) in old(disk.files) ==>
      SyncedWithout(disk, |old(disk.history)|, BlobName(hash, config.suffix))
  {
    hide IsStaging, BlobName, TempName, Hex, FileStem, OldOrAbsent, SetAside, Refreshed, OnlyChange, SameContent,
      AllTaken, AlwaysOldOrAbsent, ClearBlames, Since;
    var path := BlobName(hash, config.suffix);
    StemIsHash(hash, config.suffix);
    var stem := FileStem(path);
    ghost var before := disk.files;
    var touched := disk.Touch(path);
    TouchedIsRefreshed(before, disk.files, path);
    RefreshedIsAllowed(before, disk.files, config, hash);
    assert AlwaysOldOrAbsent(disk.history, |old(disk.history)|, before, config, hash) by {
      OneState(disk.history, |old(disk.history)|, before, config, hash);
    }
    TouchBlamed(old(disk.failed));
    match touched {
      case TouchNotFound =>
        assert disk.failed == old(disk.failed);
        r := EndAbsent(disk);
        HealthyClear(r, old(disk.failed), disk.failed);
        return;
      case TouchFailed =>
        return Failed(IoError(RefreshClearStagingAge));
      case TouchDone =>
    }
    ghost var current, history := disk.files, disk.history;
    ghost var tried := 0;
    NoneTried(current, hash, config.suffix, old(disk.identifiers));
    while true
      invariant disk.Valid() && disk.files == current && disk.history == history && disk.failed == old(disk.failed)
      invariant tried <= |old(disk.identifiers)| && disk.identifiers == old(disk.identifiers)[tried..]
      invariant AllTaken(current, hash, config.suffix, "clear", old(disk.identifiers), tried)
      decreases |disk.identifiers|
    {
      var bytes := disk.Fill();
      if bytes.None? {
        return Failed(IdentifierGeneration);
      }
      var identifier := RandomIdentifier(bytes.value);
      StagingName(hash, config.suffix, "clear", bytes.value);
      var taken;
      taken, r := ClearAttempt(disk, config, hash, before, TempName(stem, config.suffix, "clear", identifier));
      if !taken {
        HealthyClear(r, old(disk.failed), disk.failed);
        JoinHistories(history, disk.history, |old(disk.history)|, before, config, hash);
        return;
      }
      TakenNext(current, hash, config.suffix, "clear", old(disk.identifiers), tried);
      tried := tried + 1;
    }
  }

  lemma OneState(history: seq<Files>, from: nat, before: Files, config: Config, hash: string)
    requires |history| <= from || (|history| == from + 1 && OldOrAbsent(before, history[from], config, hash))
    ensures AlwaysOldOrAbsent(history, from, before, config, hash)
  {
    hide OldOrAbsent;
  }

  lemma JoinHistories(first: seq<Files>, all: seq<Files>, from: nat, before: Files, config: Config, hash: string)
    requires first <= all && AlwaysOldOrAbsent(first, from, before, config, hash)
    requires AlwaysOldOrAbsent(all, |first|, before, config, hash)
    ensures AlwaysOldOrAbsent(all, from, before, config, hash)
  {
    hide OldOrAbsent;
  }

  lemma NoneTried(files: Files, hash: string, suffix: string, identifiers: seq<seq<Byte>>)
    ensures AllTaken(files, hash, suffix, "clear", identifiers, 0)
  {
  }

  lemma TouchedIsRefreshed(before: Files, now: Files, path: string)
    requires exists modified :: now == Touched(before, path, modified)
    ensures Refreshed(before, now, path) && (path !in before ==> path !in now)
  {
  }

  // ---- Quarantine ---------------------------------------------------------------------------

  /** The blob is under its quarantine name, unchanged, and everything else is as it was. */
  predicate Quarantined(before: Files, now: Files, config: Config, hash: string, identifier: string) {
    var path, aside := BlobName(hash, config.suffix), QuarantineName(hash, config.suffix, identifier);
    IsHash(identifier) && path in before && aside !in before && now == Renamed(before, path, aside)
  }

  /** A quarantine in progress: the blob is at exactly one of two names. */
  ghost predicate AtOneName(before: Files, now: Files, config: Config, hash: string) {
    now == before || exists identifier :: Quarantined(before, now, config, hash, identifier)
  }

  ghost predicate AlwaysAtOneName(history: seq<Files>, from: nat, before: Files, config: Config, hash: string) {
    forall i :: from <= i < |history| ==> AtOneName(before, history[i], config, hash)
  }

  /** Each error of a quarantine says which call failed, and without a failed call there is none but that of a missing
      blob, unless the random source gives out. */
  predicate QuarantineBlames(r: StoreResult<string>, calls: seq<Failure>) {
    match r
    case Done(_) => calls == []
    case Failed(QuarantineCommit) => calls == [MoveFailure]
    case Failed(QuarantineNamespaceSync(_)) => calls == [SyncFailure]
    case Failed(IoError(InspectNamespace)) => calls == [InspectFailure]
    case Failed(NamespacePathIsNotDirectory) => calls == [NotDirectoryFailure]
    case Failed(QuarantineSourceMissing) => calls == []
    case Failed(IdentifierGeneration) => calls == []
    case Failed(_) => false
  }

  /** Every quarantine name that the random source allowed was taken. */
  predicate AllAside(files: Files, hash: string, suffix: string, identifiers: seq<seq<Byte>>, tried: nat) {
    tried <= |identifiers| && forall i :: 0 <= i < tried ==> QuarantineName(hash, suffix, Hex(identifiers[i])) in files
  }

  lemma AsideNext(files: Files, hash: string, suffix: string, identifiers: seq<seq<Byte>>, tried: nat)
    requires tried < |identifiers| && AllAside(files, hash, suffix, identifiers, tried)
    requires QuarantineName(hash, suffix, Hex(identifiers[tried])) in files
    ensures AllAside(files, hash, suffix, identifiers, tried + 1)
    ensures identifiers[tried..][1..] == identifiers[tried + 1..]
  {
  }

  lemma NoneAside(files: Files, hash: string, suffix: string, identifiers: seq<seq<Byte>>)
    ensures AllAside(files, hash, suffix, identifiers, 0)
  {
  }

  /** What the result of a quarantine says about the directory. */
  ghost predicate QuarantineExplained(before: Files, now: Files, r: StoreResult<string>, config: Config, hash: string) {
    match r
    case Done(identifier) => Quarantined(before, now, config, hash, identifier)
    case Failed(QuarantineNamespaceSync(identifier)) => Quarantined(before, now, config, hash, identifier)
    case Failed(QuarantineCommit) => AtOneName(before, now, config, hash)
    case Failed(QuarantineSourceMissing) => now == before && BlobName(hash, config.suffix) !in before
    case Failed(error) =>
      && now == before
      && (error.NamespacePathIsNotDirectory? || error.IdentifierGeneration? || error == IoError(InspectNamespace))
  }

  lemma NewNameDiffers(hash: string, suffix: string, bytes: seq<Byte>)
    requires IsHash(hash) && ValidSuffix(suffix) && |bytes| == 32
    ensures IsHash(Hex(bytes)) && BlobName(hash, suffix) != QuarantineName(hash, suffix, Hex(bytes))
  {
    hide Hex;
    HexIsHex(bytes);
    CanonicalNeverQuarantine(hash, suffix, hash, suffix, Hex(bytes));
  }

  /** Moves the blob to one quarantine name, unless that name is taken. */
  method QuarantineAttempt(disk: Disk, config: Config, hash: string, identifier: string, destination: string)
      returns (taken: bool, r: StoreResult<string>)
    requires disk.Valid() && IsHash(identifier) && destination == QuarantineName(hash, config.suffix, identifier)
    requires BlobName(hash, config.suffix) != destination
    modifies disk`files, disk`history, disk`synced, disk`failed
    ensures disk.Valid() && old(disk.history) <= disk.history && old(disk.failed) <= disk.failed
    ensures taken ==> disk.files == old(disk.files) && disk.history == old(disk.history) && destination in disk.files
    ensures if taken then disk.failed == old(disk.failed)
            else QuarantineBlames(r, Since(old(disk.failed), disk.failed)) && r != Failed(IdentifierGeneration)
    ensures !taken ==> QuarantineExplained(old(disk.files), disk.files, r, config, hash)
    ensures AlwaysAtOneName(disk.history, |old(disk.history)|, old(disk.files), config, hash)
    ensures !taken && r.Done? ==> disk.synced == |disk.history|
  {
    hide BlobName, QuarantineName;
    taken, r := false, Done(identifier);
    var path := BlobName(hash, config.suffix);
    ghost var before := disk.files;
    var moved := disk.Move(path, destination, false);
    assert disk.files != before || moved.Moved? ==> Quarantined(before, disk.files, config, hash, identifier);
    match moved {
      case Moved =>
        var ok := disk.SyncDirectory();
        r := if ok then Done(identifier) else Failed(QuarantineNamespaceSync(identifier));
      case SourceNotFound =>
        var available := EnsureNamespaceAvailable(disk);
        r := Failed(if available.Failed? then available.error else QuarantineSourceMissing);
      case DestinationExists =>
        taken := true;
      case MoveFailed =>
        r := Failed(QuarantineCommit);
    }
  }

  lemma NoneMoved(history: seq<Files>, before: Files, config: Config, hash: string, failed: seq<Failure>)
    ensures AlwaysAtOneName(history, |history|, before, config, hash)
    ensures QuarantineExplained(before, before, Failed(IdentifierGeneration), config, hash)
    ensures QuarantineBlames(Failed(IdentifierGeneration), Since(failed, failed))
  {
  }

  lemma HealthyQuarantine(r: StoreResult<string>, files: Files, now: Files, config: Config, hash: string,
                          before: seq<Failure>, failed: seq<Failure>)
    requires before <= failed && QuarantineBlames(r, Since(before, failed)) && r != Failed(IdentifierGeneration)
    requires QuarantineExplained(files, now, r, config, hash)
    ensures failed == before ==>
      if BlobName(hash, config.suffix) in files then r.Done? else r == Failed(QuarantineSourceMissing)
  {
    hide BlobName, QuarantineName;
  }

  method QuarantineBlob(disk: Disk, config: Config, hash: string) returns (r: StoreResult<string>)
    requires disk.Valid() && ValidConfig(config) && IsHash(hash)
    modifies disk
    ensures disk.Valid() && old(disk.history) <= disk.history && old(disk.failed) <= disk.failed
    ensures QuarantineBlames(r, Since(old(disk.failed), disk.failed))
    ensures disk.failed == old(disk.failed) ==>
      || r == Failed(IdentifierGeneration)
      || (if BlobName(hash, config.suffix) in old(disk.files) then r.Done? else r == Failed(QuarantineSourceMissing))
    ensures r == Failed(IdentifierGeneration) ==>
      AllAside(old(disk.files), hash, config.suffix, old(disk.identifiers), |old(disk.identifiers)|)
    ensures QuarantineExplained(old(disk.files), disk.files, r, config, hash)
    ensures AlwaysAtOneName(disk.history, |old(disk.history)|, old(disk.files), config, hash)
    ensures r.Done? ==> disk.synced == |disk.history|
  {
    hide BlobName, QuarantineName, Hex, FileStem, AllAside, AlwaysAtOneName, QuarantineExplained, QuarantineBlames,
      Since;
    var path := BlobName(hash, config.suffix);
    StemIsHash(hash, config.suffix);
    var stem := FileStem(path);
    ghost var before := disk.files;
    ghost var tried := 0;
    NoneAside(before, hash, config.suffix, disk.identifiers);
    NoneMoved(disk.history, before, config, hash, disk.failed);
    while true
      invariant disk.Valid() && disk.files == before && disk.history == old(disk.history)
      invariant disk.failed == old(disk.failed)
      invariant tried <= |old(disk.identifiers)| && disk.identifiers == old(disk.identifiers)[tried..]
      invariant AllAside(before, hash, config.suffix, old(disk.identifiers), tried)
      decreases |disk.identifiers|
    {
      var bytes := disk.Fill();
      if bytes.None? {
        return Failed(IdentifierGeneration);
      }
      var identifier := RandomIdentifier(bytes.value);
      NewNameDiffers(hash, config.suffix, bytes.value);
      var taken;
      taken, r := QuarantineAttempt(disk, config, hash, identifier, QuarantineName(stem, config.suffix, identifier));
      if !taken {
        HealthyQuarantine(r, before, disk.files, config, hash, old(disk.failed), disk.failed);
        return;
      }
      AsideNext(before, hash, config.suffix, old(disk.identifiers), tried);
      tried := tried + 1;
    }
  }
}
