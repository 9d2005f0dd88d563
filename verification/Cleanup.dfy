/** Removal of stale staging files, with a report that names each of them once. */
module Cleanup {
  import opened Collections
  import opened Crc32c
  import opened Names
  import opened FileSystem
  import opened FileStore
  import opened FileRemoval

  /** What the directory listing yields: a file name, or an error in its place. */
  type DirectoryEntry = Option<string>

  const UNREADABLE: string := "<directory-entry>"

  /** What becomes of one owned file. */
  datatype Finding = Stale | Young | Failing

  function With(names: seq<string>, here: bool, name: string): seq<string> {
    if here then names + [name] else names
  }

  class CleanupReport {
    var removed: seq<string>
    var skipped: seq<string>
    var failures: seq<string>

    constructor ()
      ensures removed == [] && skipped == [] && failures == []
    {
      removed, skipped, failures := [], [], [];
    }

    function All(): multiset<string>
      reads this
    {
      multiset(removed) + multiset(skipped) + multiset(failures)
    }

    method Add(finding: Finding, name: string)
      modifies this
      ensures removed == With(old(removed), finding.Stale?, name)
      ensures skipped == With(old(skipped), finding.Young?, name)
      ensures failures == With(old(failures), finding.Failing?, name)
      ensures All() == old(All()) + multiset{name}
    {
      match finding {
        case Stale => removed := removed + [name];
        case Young => skipped := skipped + [name];
        case Failing => failures := failures + [name];
      }
    }
  }

  predicate OldEnough(entry: Entry, now: int, minimumAge: nat) {
    entry.Regular? && entry.modified.Some? && entry.modified.value <= now && now - entry.modified.value >= minimumAge
  }

  /** A file is old enough from the moment on that its age is the minimum, and never while its time is in the future. */
  lemma OldFrom(bytes: seq<Byte>, flushed: bool, modified: int, now: int, minimumAge: nat)
    ensures OldEnough(Regular(bytes, Some(modified), flushed), now, minimumAge) <==> modified + minimumAge <= now
    ensures !OldEnough(Regular(bytes, None, flushed), now, minimumAge) && !OldEnough(Special, now, minimumAge)
  {
  }

  /** What a report must account for: each owned name and each unreadable entry. */
  function Accountable(entries: seq<DirectoryEntry>, suffix: string): multiset<string> {
    if entries == [] then multiset{}
    else
      var front, last := entries[..|entries| - 1], entries[|entries| - 1];
      Accountable(front, suffix) +
      if last.None? then multiset{UNREADABLE}
      else if IsOwnedTemporaryFilename(last.value, suffix) then multiset{last.value}
      else multiset{}
  }

  /** Only owned, old enough, regular files can be missing. */
  ghost predicate OnlyStaleRemoved(before: Files, now: Files, suffix: string, clock: int, minimumAge: nat) {
    && now.Keys <= before.Keys
    && (forall name :: name in now ==> now[name] == before[name])
    && forall name :: name in before && name !in now ==>
         IsOwnedTemporaryFilename(name, suffix) && OldEnough(before[name], clock, minimumAge)
  }

  ghost predicate AlwaysOnlyStaleRemoved(history: seq<Files>, from: nat, before: Files, suffix: string, clock: int,
                                         minimumAge: nat)
  {
    forall i :: from <= i < |history| ==> OnlyStaleRemoved(before, history[i], suffix, clock, minimumAge)
  }

  predicate Distinct(entries: seq<DirectoryEntry>) {
    forall i, j :: 0 <= i < j < |entries| && entries[i].Some? ==> entries[i] != entries[j]
  }

  /** Everything the report says so far is true of the directory. */
  ghost predicate Truthful(before: Files, now: Files, removed: seq<string>, skipped: seq<string>, failures: seq<string>,
                           clock: int, minimumAge: nat)
  {
    && (forall name :: name in removed ==> name in before && name !in now)
    && (forall name :: name in skipped ==> name in now && !OldEnough(now[name], clock, minimumAge))
    && (forall name :: name in before && name !in now ==> name in removed || name in failures)
  }

  /** What is to become of an owned file: a call may have refused it. */
  function Verdict(files: Files, name: string, refused: bool, clock: int, minimumAge: nat): Finding {
    if refused || name !in files || files[name].Special? then Failing
    else if OldEnough(files[name], clock, minimumAge) then Stale
    else Young
  }

  /** Where an owned file that has been looked at is reported, `refused` being those for which a call failed: an old
      regular file is removed and a young one skipped; anything else, and what storage refused, is a failure. */
  predicate Classified(before: Files, name: string, removed: seq<string>, skipped: seq<string>, failures: seq<string>,
                       refused: set<string>, clock: int, minimumAge: nat)
  {
    if name in refused || name !in before || before[name].Special? then name in failures
    else if OldEnough(before[name], clock, minimumAge) then name in removed
    else name in skipped
  }

  predicate OnlyOwned(names: seq<string>, suffix: string) {
    forall name :: name in names ==> IsOwnedTemporaryFilename(name, suffix)
  }

  /** All owned names among these entries are classified, and only they can have been refused. */
  ghost predicate AllClassified(before: Files, entries: seq<DirectoryEntry>, suffix: string, removed: seq<string>,
                                skipped: seq<string>, failures: seq<string>, refused: set<string>, clock: int,
                                minimumAge: nat)
  {
    && (forall name :: Some(name) in entries && IsOwnedTemporaryFilename(name, suffix) ==>
          Classified(before, name, removed, skipped, failures, refused, clock, minimumAge))
    && (forall name :: name in refused ==> Some(name) in entries)
    && OnlyOwned(removed, suffix) && OnlyOwned(skipped, suffix)
  }

  /** Looks at one owned file that the report does not mention yet. */
  method CleanOne(disk: Disk, suffix: string, name: string, clock: int, minimumAge: nat, ghost before: Files,
                  ghost removed: seq<string>, ghost skipped: seq<string>, ghost failures: seq<string>)
      returns (finding: Finding, ghost refused: bool)
    requires disk.Valid() && IsOwnedTemporaryFilename(name, suffix)
    requires OnlyStaleRemoved(before, disk.files, suffix, clock, minimumAge)
    requires Truthful(before, disk.files, removed, skipped, failures, clock, minimumAge)
    requires name !in skipped
    modifies disk`files, disk`history, disk`failed
    ensures disk.Valid() && old(disk.history) <= disk.history
    ensures old(disk.failed) <= disk.failed && |disk.failed| == |old(disk.failed)| + if refused then 1 else 0
    ensures finding == Verdict(old(disk.files), name, refused, clock, minimumAge)
    ensures disk.files == old(disk.files) || disk.files == old(disk.files) - {name}
    ensures AlwaysOnlyStaleRemoved(disk.history, |old(disk.history)|, before, suffix, clock, minimumAge)
    ensures OnlyStaleRemoved(before, disk.files, suffix, clock, minimumAge)
    ensures Truthful(before, disk.files, With(removed, finding.Stale?, name), With(skipped, finding.Young?, name),
                     With(failures, finding.Failing?, name), clock, minimumAge)
  {
    hide IsOwnedTemporaryFilename, OldEnough, OnlyStaleRemoved, Truthful;
    var found := disk.Metadata(name);
    refused := found.LookupFailed?;
    if !found.Found? || found.entry.Special? {
      MoreFailures(before, disk.files, removed, skipped, failures, name, clock, minimumAge);
      finding := Failing;
      return;
    }
    if !OldEnough(found.entry, clock, minimumAge) {
      MoreSkipped(before, disk.files, removed, skipped, failures, name, clock, minimumAge);
      finding := Young;
      return;
    }
    MoreFailures(before, disk.files, removed, skipped, failures, name, clock, minimumAge);
    OneMoreGone(before, disk.files, suffix, name, removed, skipped, failures, clock, minimumAge);
    var ok := disk.Delete(name);
    refused, finding := !ok, if ok then Stale else Failing;
  }

  /** Only what has been looked at can be gone. */
  ghost predicate GoneFrom(before: Files, now: Files, entries: seq<DirectoryEntry>) {
    forall name :: name in before && name !in now ==> Some(name) in entries
  }

  lemma ClassifiedNext(before: Files, entries: seq<DirectoryEntry>, i: nat, suffix: string, removed: seq<string>,
                       skipped: seq<string>, failures: seq<string>, removed': seq<string>, skipped': seq<string>,
                       failures': seq<string>, refused: set<string>, more: set<string>, clock: int, minimumAge: nat)
    requires i < |entries| && removed <= removed' && skipped <= skipped' && failures <= failures'
    requires AllClassified(before, entries[..i], suffix, removed, skipped, failures, refused, clock, minimumAge)
    requires more == {} || (Distinct(entries) && entries[i].Some? && more == {entries[i].value})
    requires entries[i].Some? && IsOwnedTemporaryFilename(entries[i].value, suffix) ==>
      Classified(before, entries[i].value, removed', skipped', failures', more, clock, minimumAge)
    requires Distinct(entries) && OnlyOwned(removed', suffix) && OnlyOwned(skipped', suffix)
    ensures AllClassified(before, entries[..i + 1], suffix, removed', skipped', failures', refused + more, clock,
                          minimumAge)
    ensures |refused + more| == |refused| + |more|
  {
    hide IsOwnedTemporaryFilename, OldEnough;
    assert entries[..i + 1] == entries[..i] + [entries[i]];
    assert entries[i].Some? ==> entries[i] !in entries[..i];
  }

  /** Everything that holds once the first i entries have been looked at. */
  ghost predicate Progress(before: Files, now: Files, entries: seq<DirectoryEntry>, i: nat, suffix: string,
                           removed: seq<string>, skipped: seq<string>, failures: seq<string>, refused: set<string>,
                           clock: int, minimumAge: nat)
  {
    && i <= |entries| && Distinct(entries)
    && OnlyStaleRemoved(before, now, suffix, clock, minimumAge)
    && Truthful(before, now, removed, skipped, failures, clock, minimumAge)
    && FromListing(skipped, entries, i)
    && AllClassified(before, entries[..i], suffix, removed, skipped, failures, refused, clock, minimumAge)
    && GoneFrom(before, now, entries[..i])
  }

  lemma OwnedSoFar(before: Files, entries: seq<DirectoryEntry>, suffix: string, removed: seq<string>,
                   skipped: seq<string>, failures: seq<string>, refused: set<string>, clock: int, minimumAge: nat)
    requires AllClassified(before, entries, suffix, removed, skipped, failures, refused, clock, minimumAge)
    ensures OnlyOwned(removed, suffix) && OnlyOwned(skipped, suffix)
    ensures forall name: string :: IsOwnedTemporaryFilename(name, suffix) ==>
      OnlyOwned(removed + [name], suffix) && OnlyOwned(skipped + [name], suffix)
  {
    hide IsOwnedTemporaryFilename, OldEnough;
  }

  lemma ForeignNext(before: Files, now: Files, entries: seq<DirectoryEntry>, i: nat, suffix: string,
                    removed: seq<string>, skipped: seq<string>, failures: seq<string>, refused: set<string>,
                    clock: int, minimumAge: nat)
    requires Progress(before, now, entries, i, suffix, removed, skipped, failures, refused, clock, minimumAge)
    requires i < |entries| && (entries[i].None? || !IsOwnedTemporaryFilename(entries[i].value, suffix))
    ensures Progress(before, now, entries, i + 1, suffix, removed, skipped, failures, refused, clock, minimumAge)
    ensures Progress(before, now, entries, i + 1, suffix, removed, skipped, failures + [UNREADABLE], refused, clock,
                     minimumAge)
  {
    hide OnlyStaleRemoved, Truthful, FromListing, AllClassified, Classified, GoneFrom, Distinct, OnlyOwned,
      IsOwnedTemporaryFilename;
    OwnedSoFar(before, entries[..i], suffix, removed, skipped, failures, refused, clock, minimumAge);
    NewToReport(skipped, entries, i);
    GoneNext(before, now, now, entries, i);
    MoreFailures(before, now, removed, skipped, failures, UNREADABLE, clock, minimumAge);
    ClassifiedNext(before, entries, i, suffix, removed, skipped, failures, removed, skipped, failures, refused, {},
                   clock, minimumAge);
    ClassifiedNext(before, entries, i, suffix, removed, skipped, failures, removed, skipped, failures + [UNREADABLE],
                   refused, {}, clock, minimumAge);
    assert refused + {} == refused;
  }

  lemma FoundNext(before: Files, files: Files, now: Files, entries: seq<DirectoryEntry>, i: nat, suffix: string,
                  removed: seq<string>, skipped: seq<string>, failures: seq<string>, refused: set<string>,
                  finding: Finding, refusal: bool, clock: int, minimumAge: nat)
    requires Progress(before, files, entries, i, suffix, removed, skipped, failures, refused, clock, minimumAge)
    requires i < |entries| && entries[i].Some? && IsOwnedTemporaryFilename(entries[i].value, suffix)
    requires now == files || now == files - {entries[i].value}
    requires OnlyStaleRemoved(before, now, suffix, clock, minimumAge)
    requires finding == Verdict(files, entries[i].value, refusal, clock, minimumAge)
    requires Truthful(before, now, With(removed, finding.Stale?, entries[i].value),
                      With(skipped, finding.Young?, entries[i].value),
                      With(failures, finding.Failing?, entries[i].value), clock, minimumAge)
    ensures var more := if refusal then {entries[i].value} else {};
            && |refused + more| == |refused| + |more|
            && Progress(before, now, entries, i + 1, suffix, With(removed, finding.Stale?, entries[i].value),
                        With(skipped, finding.Young?, entries[i].value),
                        With(failures, finding.Failing?, entries[i].value), refused + more, clock, minimumAge)
  {
    hide OnlyStaleRemoved, Truthful, FromListing, AllClassified, Classified, GoneFrom, Distinct, Verdict,
      IsOwnedTemporaryFilename;
    var name := entries[i].value;
    NewToReport(skipped, entries, i);
    GoneNext(before, files, now, entries, i);
    StillThere(before, files, entries, i, suffix, clock, minimumAge);
    OwnedSoFar(before, entries[..i], suffix, removed, skipped, failures, refused, clock, minimumAge);
    FoundClass(before, files, name, finding, removed, skipped, failures, refusal, clock, minimumAge);
    ClassifiedNext(before, entries, i, suffix, removed, skipped, failures, With(removed, finding.Stale?, name),
                   With(skipped, finding.Young?, name), With(failures, finding.Failing?, name), refused,
                   if refusal then {name} else {}, clock, minimumAge);
  }

  method CleanEntry(disk: Disk, suffix: string, entries: seq<DirectoryEntry>, i: nat, clock: int, minimumAge: nat,
                    report: CleanupReport, ghost before: Files, ghost refused: set<string>)
      returns (ghost refused': set<string>)
    requires disk.Valid() && i < |entries|
    requires Progress(before, disk.files, entries, i, suffix, report.removed, report.skipped, report.failures, refused,
                      clock, minimumAge)
    modifies disk`files, disk`history, disk`failed, report
    ensures disk.Valid() && old(disk.history) <= disk.history
    ensures old(disk.failed) <= disk.failed && |disk.failed| + |refused| == |old(disk.failed)| + |refused'|
    ensures AlwaysOnlyStaleRemoved(disk.history, |old(disk.history)|, before, suffix, clock, minimumAge)
    ensures Progress(before, disk.files, entries, i + 1, suffix, report.removed, report.skipped, report.failures,
                     refused', clock, minimumAge)
    ensures report.All() == old(report.All()) +
      if entries[i].None? then multiset{UNREADABLE}
      else if IsOwnedTemporaryFilename(entries[i].value, suffix) then multiset{entries[i].value}
      else multiset{}
  {
    hide IsOwnedTemporaryFilename, OnlyStaleRemoved, Truthful, Verdict, FromListing, Distinct, AllClassified, GoneFrom,
      With;
    ghost var removed, skipped, failures, files := report.removed, report.skipped, report.failures, disk.files;
    refused' := refused;
    if entries[i].None? {
      ForeignNext(before, files, entries, i, suffix, removed, skipped, failures, refused, clock, minimumAge);
      report.failures := report.failures + [UNREADABLE];
      return;
    }
    var name := entries[i].value;
    if !IsOwnedTemporaryFilename(name, suffix) {
      ForeignNext(before, files, entries, i, suffix, removed, skipped, failures, refused, clock, minimumAge);
      return;
    }
    NewToReport(skipped, entries, i);
    var finding;
    ghost var refusal;
    finding, refusal := CleanOne(disk, suffix, name, clock, minimumAge, before, removed, skipped, failures);
    report.Add(finding, name);
    FoundNext(before, files, disk.files, entries, i, suffix, removed, skipped, failures, refused, finding, refusal,
              clock, minimumAge);
    refused' := refused + if refusal then {name} else {};
  }

  method CleanupStaleFiles(disk: Disk, config: Config, listing: Option<seq<DirectoryEntry>>, clock: int,
                           minimumAge: nat)
      returns (r: StoreResult<CleanupReport>, ghost refused: set<string>)
    requires disk.Valid() && ValidConfig(config) && (listing.Some? ==> Distinct(listing.value))
    modifies disk`files, disk`history, disk`failed
    ensures disk.Valid() && old(disk.history) <= disk.history
    ensures r.Failed? <==> listing.None?
    ensures r.Failed? ==> r.error == IoError(EnumerateTemporaryFiles) && disk.files == old(disk.files)
    ensures AlwaysOnlyStaleRemoved(disk.history, |old(disk.history)|, old(disk.files), config.suffix, clock, minimumAge)
    ensures OnlyStaleRemoved(old(disk.files), disk.files, config.suffix, clock, minimumAge)
    ensures r.Done? ==> fresh(r.value) && r.value.All() == Accountable(listing.value, config.suffix)
    ensures r.Done? ==>
      Truthful(old(disk.files), disk.files, r.value.removed, r.value.skipped, r.value.failures, clock, minimumAge)
    ensures r.Done? ==>
      AllClassified(old(disk.files), listing.value, config.suffix, r.value.removed, r.value.skipped, r.value.failures,
                    refused, clock, minimumAge)
    ensures old(disk.failed) <= disk.failed && |disk.failed| == |old(disk.failed)| + |refused|
  {
    hide IsOwnedTemporaryFilename, OnlyStaleRemoved, Truthful, FromListing, Distinct, Accountable, AllClassified,
      GoneFrom, Progress;
    ghost var before := disk.files;
    NothingRemoved(before, config.suffix, clock, minimumAge);
    refused := {};
    if listing.None? {
      r := Failed(IoError(EnumerateTemporaryFiles));
      return;
    }
    var entries := listing.value;
    NoProgress(before, entries, config.suffix, clock, minimumAge);
    var report := new CleanupReport();
    r := Done(report);
    var i := 0;
    while i < |entries|
      invariant i <= |entries| && disk.Valid() && old(disk.history) <= disk.history
      invariant r == Done(report) && fresh(report)
      invariant AlwaysOnlyStaleRemoved(disk.history, |old(disk.history)|, before, config.suffix, clock, minimumAge)
      invariant Progress(before, disk.files, entries, i, config.suffix, report.removed, report.skipped,
                         report.failures, refused, clock, minimumAge)
      invariant report.All() == Accountable(entries[..i], config.suffix)
      invariant old(disk.failed) <= disk.failed && |disk.failed| == |old(disk.failed)| + |refused|
    {
      AccountableNext(entries, config.suffix, i);
      refused := CleanEntry(disk, config.suffix, entries, i, clock, minimumAge, report, before, refused);
      i := i + 1;
    }
    assert entries[..i] == entries;
    AllProgress(before, disk.files, entries, config.suffix, report.removed, report.skipped, report.failures, refused,
                clock, minimumAge);
  }

  lemma AllProgress(before: Files, now: Files, entries: seq<DirectoryEntry>, suffix: string, removed: seq<string>,
                    skipped: seq<string>, failures: seq<string>, refused: set<string>, clock: int, minimumAge: nat)
    requires Progress(before, now, entries, |entries|, suffix, removed, skipped, failures, refused, clock, minimumAge)
    ensures OnlyStaleRemoved(before, now, suffix, clock, minimumAge)
    ensures Truthful(before, now, removed, skipped, failures, clock, minimumAge)
    ensures AllClassified(before, entries, suffix, removed, skipped, failures, refused, clock, minimumAge)
  {
    hide OnlyStaleRemoved, Truthful, FromListing, AllClassified, GoneFrom, Distinct;
    assert entries[..|entries|] == entries;
  }

  lemma NoProgress(files: Files, entries: seq<DirectoryEntry>, suffix: string, clock: int, minimumAge: nat)
    requires Distinct(entries)
    ensures Progress(files, files, entries, 0, suffix, [], [], [], {}, clock, minimumAge)
    ensures Accountable(entries[..0], suffix) == multiset{}
  {
    hide OnlyStaleRemoved, Truthful, FromListing, AllClassified, GoneFrom, Distinct;
    NothingRemoved(files, suffix, clock, minimumAge);
    NothingListed(entries, suffix);
    NothingClassified(files, entries, suffix, clock, minimumAge);
  }

  lemma NothingClassified(before: Files, entries: seq<DirectoryEntry>, suffix: string, clock: int, minimumAge: nat)
    ensures AllClassified(before, entries[..0], suffix, [], [], [], {}, clock, minimumAge)
    ensures GoneFrom(before, before, entries[..0])
  {
  }

  /** A name that has not been looked at is as it was. */
  lemma StillThere(before: Files, now: Files, entries: seq<DirectoryEntry>, i: nat, suffix: string, clock: int,
                   minimumAge: nat)
    requires OnlyStaleRemoved(before, now, suffix, clock, minimumAge) && Distinct(entries)
    requires i < |entries| && entries[i].Some? && GoneFrom(before, now, entries[..i])
    ensures Same(before, now, entries[i].value)
  {
    hide IsOwnedTemporaryFilename, OldEnough;
    assert entries[i] !in entries[..i];
  }

  lemma FoundClass(before: Files, files: Files, name: string, finding: Finding, removed: seq<string>,
                   skipped: seq<string>, failures: seq<string>, refused: bool, clock: int, minimumAge: nat)
    requires Same(before, files, name)
    requires finding == Verdict(files, name, refused, clock, minimumAge)
    ensures Classified(before, name, With(removed, finding.Stale?, name), With(skipped, finding.Young?, name),
                       With(failures, finding.Failing?, name), if refused then {name} else {}, clock, minimumAge)
  {
    hide OldEnough;
  }

  lemma GoneNext(before: Files, files: Files, now: Files, entries: seq<DirectoryEntry>, i: nat)
    requires i < |entries| && GoneFrom(before, files, entries[..i])
    requires now == files || (entries[i].Some? && now == files - {entries[i].value})
    ensures GoneFrom(before, now, entries[..i + 1])
  {
    assert entries[..i + 1] == entries[..i] + [entries[i]];
  }

  /** The names skipped so far come from the listing so far. */
  ghost predicate FromListing(skipped: seq<string>, entries: seq<DirectoryEntry>, i: nat) {
    i <= |entries| && forall name :: name in skipped ==> exists j :: 0 <= j < i && entries[j] == Some(name)
  }

  lemma NewToReport(skipped: seq<string>, entries: seq<DirectoryEntry>, i: nat)
    requires FromListing(skipped, entries, i) && Distinct(entries) && i < |entries|
    ensures FromListing(skipped, entries, i + 1)
    ensures entries[i].Some? ==>
      entries[i].value !in skipped && FromListing(skipped + [entries[i].value], entries, i + 1)
  {
  }

  lemma NothingListed(entries: seq<DirectoryEntry>, suffix: string)
    ensures FromListing([], entries, 0) && Accountable(entries[..0], suffix) == multiset{}
  {
  }

  lemma NothingRemoved(files: Files, suffix: string, clock: int, minimumAge: nat)
    ensures OnlyStaleRemoved(files, files, suffix, clock, minimumAge)
    ensures Truthful(files, files, [], [], [], clock, minimumAge)
  {
  }

  lemma MoreFailures(before: Files, now: Files, removed: seq<string>, skipped: seq<string>, failures: seq<string>,
                     name: string, clock: int, minimumAge: nat)
    requires Truthful(before, now, removed, skipped, failures, clock, minimumAge)
    ensures Truthful(before, now, removed, skipped, failures + [name], clock, minimumAge)
  {
  }

  lemma MoreSkipped(before: Files, now: Files, removed: seq<string>, skipped: seq<string>, failures: seq<string>,
                    name: string, clock: int, minimumAge: nat)
    requires Truthful(before, now, removed, skipped, failures, clock, minimumAge)
    requires name in now && !OldEnough(now[name], clock, minimumAge)
    ensures Truthful(before, now, removed, skipped + [name], failures, clock, minimumAge)
  {
  }

  lemma OneMoreGone(before: Files, now: Files, suffix: string, name: string, removed: seq<string>, skipped: seq<string>,
                    failures: seq<string>, clock: int, minimumAge: nat)
    requires OnlyStaleRemoved(before, now, suffix, clock, minimumAge)
    requires Truthful(before, now, removed, skipped, failures, clock, minimumAge)
    requires name in now && name !in skipped && IsOwnedTemporaryFilename(name, suffix)
    requires OldEnough(now[name], clock, minimumAge)
    ensures OnlyStaleRemoved(before, now - {name}, suffix, clock, minimumAge)
    ensures Truthful(before, now - {name}, removed + [name], skipped, failures, clock, minimumAge)
    ensures Truthful(before, now - {name}, removed, skipped, failures + [name], clock, minimumAge)
  {
    hide OldEnough, IsOwnedTemporaryFilename;
  }

  lemma AccountableNext(entries: seq<DirectoryEntry>, suffix: string, i: nat)
    requires i < |entries|
    ensures Accountable(entries[..i + 1], suffix) == Accountable(entries[..i], suffix) +
      if entries[i].None? then multiset{UNREADABLE}
      else if IsOwnedTemporaryFilename(entries[i].value, suffix) then multiset{entries[i].value}
      else multiset{}
  {
    assert entries[..i + 1][..i] == entries[..i];
  }

  // ---- What the report and the directory mean --------------------------------------------------

  lemma {:induction false} NotAccountable(entries: seq<DirectoryEntry>, suffix: string, name: string)
    requires name != UNREADABLE && forall i :: 0 <= i < |entries| ==> entries[i] != Some(name)
    ensures Accountable(entries, suffix)[name] == 0
  {
    if entries != [] {
      NotAccountable(entries[..|entries| - 1], suffix, name);
    }
  }

  /** Each enumerated owned name is to be reported once, and no other name at all. */
  lemma {:induction false} AccountableOnce(entries: seq<DirectoryEntry>, suffix: string, name: string)
    requires Distinct(entries) && name != UNREADABLE
    ensures Accountable(entries, suffix)[name] ==
      if Some(name) in entries && IsOwnedTemporaryFilename(name, suffix) then 1 else 0
  {
    hide IsOwnedTemporaryFilename;
    if entries != [] {
      var front, last := entries[..|entries| - 1], entries[|entries| - 1];
      assert entries == front + [last];
      AccountableOnce(front, suffix, name);
      if last == Some(name) {
        assert forall i :: 0 <= i < |front| ==> front[i] == entries[i] && entries[i] != last;
        NotAccountable(front, suffix, name);
      }
    }
  }

  lemma UnreadableNotOwned(suffix: string)
    requires ValidSuffix(suffix)
    ensures !IsOwnedTemporaryFilename(UNREADABLE, suffix)
  {
    if IsOwnedTemporaryFilename(UNREADABLE, suffix) {
      var h, k, i := OwnedIsGenerated(UNREADABLE, suffix);
      assert false;
    }
  }

  /** Each enumerated owned name is in exactly one of the three lists, exactly once. */
  lemma ReportedExactlyOnce(entries: seq<DirectoryEntry>, suffix: string, removed: seq<string>, skipped: seq<string>,
                            failures: seq<string>, name: string)
    requires Distinct(entries) && ValidSuffix(suffix)
    requires multiset(removed) + multiset(skipped) + multiset(failures) == Accountable(entries, suffix)
    requires Some(name) in entries && IsOwnedTemporaryFilename(name, suffix)
    ensures multiset(removed)[name] + multiset(skipped)[name] + multiset(failures)[name] == 1
  {
    hide IsOwnedTemporaryFilename;
    UnreadableNotOwned(suffix);
    AccountableOnce(entries, suffix, name);
    assert (multiset(removed) + multiset(skipped) + multiset(failures))[name] == 1;
  }

  /** A report says exactly what became of each listed staging file: the old regular ones have been removed, the young
      ones skipped, and the failures are those that storage refused, those that are no regular file or are gone, and
      the unreadable entries. */
  lemma ReportIsExact(before: Files, entries: seq<DirectoryEntry>, suffix: string, removed: seq<string>,
                      skipped: seq<string>, failures: seq<string>, refused: set<string>, clock: int, minimumAge: nat,
                      name: string)
    requires Distinct(entries) && ValidSuffix(suffix)
    requires multiset(removed) + multiset(skipped) + multiset(failures) == Accountable(entries, suffix)
    requires AllClassified(before, entries, suffix, removed, skipped, failures, refused, clock, minimumAge)
    ensures var listed := Some(name) in entries && IsOwnedTemporaryFilename(name, suffix);
            var regular := name !in refused && name in before && before[name].Regular?;
            && (name in removed <==> listed && regular && OldEnough(before[name], clock, minimumAge))
            && (name in skipped <==> listed && regular && !OldEnough(before[name], clock, minimumAge))
            && (name in failures && name != UNREADABLE <==> listed && !regular)
    ensures multiset(failures)[UNREADABLE] == Accountable(entries, suffix)[UNREADABLE]
  {
    hide IsOwnedTemporaryFilename, OldEnough;
    UnreadableNotOwned(suffix);
    assert (multiset(removed) + multiset(skipped) + multiset(failures))[UNREADABLE]
        == Accountable(entries, suffix)[UNREADABLE];
    if name != UNREADABLE {
      AccountableOnce(entries, suffix, name);
      assert (multiset(removed) + multiset(skipped) + multiset(failures))[name] == Accountable(entries, suffix)[name];
    }
  }

  /** Whatever cleanup does and wherever it stops, canonical and quarantined blobs stay as they are. */
  lemma CleanupSparesBlobs(before: Files, now: Files, suffix: string, clock: int, minimumAge: nat, hash: string,
                           other: string, identifier: string)
    requires OnlyStaleRemoved(before, now, suffix, clock, minimumAge) && ValidSuffix(suffix)
    requires IsHash(hash) && ValidSuffix(other)
    ensures Same(before, now, BlobName(hash, other))
    ensures Same(before, now, QuarantineName(hash, other, identifier))
    ensures forall h: string, kind: string, id: string :: other != suffix && IsHash(h) && IsKind(kind) && IsHash(id) ==>
      Same(before, now, TempName(h, other, kind, id))
  {
    hide IsOwnedTemporaryFilename, BlobName, QuarantineName, TempName;
    CanonicalNeverOwned(hash, other, suffix);
    QuarantineNeverOwned(hash, other, identifier, suffix);
    forall h: string, kind: string, id: string | other != suffix && IsHash(h) && IsKind(kind) && IsHash(id)
      ensures Same(before, now, TempName(h, other, kind, id))
    {
      OwnedUnderOneSuffix(h, other, kind, id, suffix);
    }
  }
}
