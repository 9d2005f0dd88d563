/** A namespace directory: each call is one atomic step, may fail, and leaves a record of every state. */
module FileSystem {
  import opened Collections
  import opened Crc32c

  /** A regular file, and whether what it holds has been flushed, or something else. */
  datatype Entry = Regular(bytes: seq<Byte>, modified: Option<int>, flushed: bool) | Special

  type Files = map<string, Entry>

  predicate Same(before: Files, now: Files, name: string) {
    && (name in before <==> name in now)
    && (name in before && name in now ==> before[name] == now[name])
  }

  function Renamed(files: Files, source: string, destination: string): Files
    requires source in files
  {
    (files - {source})[destination := files[source]]
  }

  function Touched(files: Files, name: string, modified: Option<int>): Files {
    if name in files && files[name].Regular? then files[name := files[name].(modified := modified)] else files
  }

  /** A file that has received some of the bytes being written to it. */
  predicate Growing(before: Files, now: Files, name: string, bytes: seq<Byte>) {
    && name in before && before[name].Regular? && name in now && now[name].Regular?
    && now == before[name := now[name]]
    && before[name].bytes <= now[name].bytes <= before[name].bytes + bytes
  }

  datatype OpenResult = Created | AlreadyExists | OpenFailed
  datatype MoveResult = Moved | SourceNotFound | DestinationExists | MoveFailed
  datatype RemoveResult = Removed | RemoveNotFound | RemoveFailed
  datatype TouchResult = TouchDone | TouchNotFound | TouchFailed
  datatype Availability = Available | NotADirectory | InspectFailed
  datatype Lookup = Found(entry: Entry) | Missing | LookupFailed

  /** The kinds of calls that can fail. */
  datatype Failure =
    | CreateFailure | WriteFailure | FlushFailure | MoveFailure | SyncFailure | OpenDirectoryFailure | DeleteFailure
    | TouchFailure | CommitFailure | InspectFailure | NotDirectoryFailure | MetadataFailure
    | OpenFailure | ReadFailure

  function Blame(failed: bool, failure: Failure): seq<Failure> {
    if failed then [failure] else []
  }

  class Disk {
    var files: Files
    /** What the random source will still produce before it fails. */
    var identifiers: seq<seq<Byte>>
    /** Every state the directory has been in, the current one last: the states a crash can leave. */
    ghost var history: seq<Files>
    /** How many of these states the last successful synchronization covers. */
    ghost var synced: nat
    /** The calls that have failed, in order. Only the methods of this class, which stand for storage, add to it. */
    ghost var failed: seq<Failure>

    ghost predicate Valid()
      reads this
    {
      && history != [] && history[|history| - 1] == files && synced <= |history|
      && forall i :: 0 <= i < |identifiers| ==> |identifiers[i]| == 32
    }

    constructor (files: Files, identifiers: seq<seq<Byte>>)
      requires forall i :: 0 <= i < |identifiers| ==> |identifiers[i]| == 32
      ensures Valid() && this.files == files && this.identifiers == identifiers && history == [files] && failed == []
    {
      this.files, this.identifiers, history, synced, failed := files, identifiers, [files], 0, [];
    }

    /** One atomic step, seen by a crash from now on. */
    method Become(next: Files)
      modifies this`files, this`history
      ensures files == next && history == old(history) + [next]
    {
      files := next;
      history := history + [next];
    }

    /** A call that reports a failure of the given kind. */
    ghost method Fail(failure: Failure)
      modifies this`failed
      ensures failed == old(failed) + [failure]
    {
      failed := failed + [failure];
    }

    /** Fills 32 bytes, until the random source fails. */
    method Fill() returns (bytes: Option<seq<Byte>>)
      requires Valid()
      modifies this`identifiers
      ensures Valid()
      ensures bytes == if old(identifiers) == [] then None else Some(old(identifiers)[0])
      ensures identifiers == if old(identifiers) == [] then [] else old(identifiers)[1..]
    {
      if identifiers == [] {
        return None;
      }
      bytes := Some(identifiers[0]);
      identifiers := identifiers[1..];
    }

    method CreateNew(name: string) returns (r: OpenResult)
      requires Valid()
      modifies this`files, this`history, this`failed
      ensures Valid() && failed == old(failed) + Blame(r.OpenFailed?, CreateFailure)
      ensures r.AlreadyExists? ==> name in old(files)
      ensures !r.Created? ==> files == old(files) && history == old(history)
      ensures r.Created? ==> name !in old(files) && name in files && files[name].Regular? && files[name].bytes == []
      ensures r.Created? ==> files == old(files)[name := files[name]] && history == old(history) + [files]
    {
      if * {
        Fail(CreateFailure);
        return OpenFailed;
      }
      if name in files {
        return AlreadyExists;
      }
      var now: int := *;
      Become(files[name := Regular([], Some(now), false)]);
      return Created;
    }

    /** Writes bytes one by one; a crash can leave any part of them. */
    method Append(name: string, bytes: seq<Byte>)
      requires Valid() && name in files && files[name].Regular?
      modifies this`files, this`history
      ensures Valid() && old(history) <= history
      ensures Growing(old(files), files, name, bytes) && files[name].bytes == old(files)[name].bytes + bytes
      ensures forall i :: |old(history)| <= i < |history| ==> Growing(old(files), history[i], name, bytes)
    {
      ghost var before := files;
      var content := files[name].bytes;
      var k := 0;
      while k < |bytes|
        invariant k <= |bytes| && Valid() && old(history) <= history
        invariant Growing(before, files, name, bytes) && files[name].bytes == content + bytes[..k]
        invariant forall i :: |old(history)| <= i < |history| ==> Growing(before, history[i], name, bytes)
      {
        k := k + 1;
        assert content + bytes[..k] <= content + bytes;
        var now: int := *;
        Become(files[name := Regular(content + bytes[..k], Some(now), false)]);
      }
      assert bytes[..k] == bytes;
    }

    /** Writes everything, or fails having written part of it. */
    method WriteAll(name: string, bytes: seq<Byte>) returns (ok: bool)
      requires Valid() && name in files && files[name].Regular?
      modifies this`files, this`history, this`failed
      ensures Valid() && old(history) <= history && failed == old(failed) + Blame(!ok, WriteFailure)
      ensures Growing(old(files), files, name, bytes)
      ensures ok ==> files[name].bytes == old(files)[name].bytes + bytes
      ensures forall i :: |old(history)| <= i < |history| ==> Growing(old(files), history[i], name, bytes)
    {
      ok := *;
      if ok {
        Append(name, bytes);
      } else {
        Fail(WriteFailure);
        var k: nat :| k <= |bytes|;
        Append(name, bytes[..k]);
        assert old(files)[name].bytes + bytes[..k] <= old(files)[name].bytes + bytes;
      }
    }

    method Flush(name: string) returns (ok: bool)
      requires Valid() && name in files && files[name].Regular?
      modifies this`files, this`history, this`failed
      ensures Valid() && failed == old(failed) + Blame(!ok, FlushFailure)
      ensures ok ==>
        files == old(files)[name := old(files)[name].(flushed := true)] && history == old(history) + [files]
      ensures !ok ==> files == old(files) && history == old(history)
    {
      ok := *;
      if ok {
        Become(files[name := files[name].(flushed := true)]);
      } else {
        Fail(FlushFailure);
      }
    }

    /** Opens the directory itself. */
    method OpenDirectory() returns (ok: bool)
      modifies this`failed
      ensures failed == old(failed) + Blame(!ok, OpenDirectoryFailure)
    {
      ok := *;
      if !ok {
        Fail(OpenDirectoryFailure);
      }
    }

    /** Synchronizes the names in the directory as they are now. */
    method SyncDirectory() returns (ok: bool)
      requires Valid()
      modifies this`synced, this`failed
      ensures Valid() && failed == old(failed) + Blame(!ok, SyncFailure)
      ensures synced == if ok then |history| else old(synced)
    {
      ok := *;
      if ok {
        synced := |history|;
      } else {
        Fail(SyncFailure);
      }
    }

    method Inspect() returns (r: Availability)
      modifies this`failed
      ensures failed
           == old(failed) + Blame(r.NotADirectory?, NotDirectoryFailure) + Blame(r.InspectFailed?, InspectFailure)
    {
      if * {
        Fail(NotDirectoryFailure);
        return NotADirectory;
      } else if * {
        Fail(InspectFailure);
        return InspectFailed;
      }
      return Available;
    }

    /** What is under a name. */
    method Metadata(name: string) returns (r: Lookup)
      modifies this`failed
      ensures failed == old(failed) + Blame(r.LookupFailed?, MetadataFailure)
      ensures r.Found? ==> name in files && r.entry == files[name]
      ensures r.Missing? ==> name !in files
    {
      if * {
        Fail(MetadataFailure);
        return LookupFailed;
      }
      return if name in files then Found(files[name]) else Missing;
    }

    /** Opens a file to read it. */
    method OpenFile(name: string) returns (r: Lookup)
      modifies this`failed
      ensures failed == old(failed) + Blame(r.LookupFailed?, OpenFailure)
      ensures r.Found? ==> name in files && r.entry == files[name]
      ensures r.Missing? ==> name !in files
    {
      if * {
        Fail(OpenFailure);
        return LookupFailed;
      }
      return if name in files then Found(files[name]) else Missing;
    }

    /** Where reading an open file starts to fail, if it does. */
    method ReadingFault() returns (fault: Option<nat>)
      modifies this`failed
      ensures failed == old(failed) + Blame(fault.Some?, ReadFailure)
    {
      fault := *;
      if fault.Some? {
        Fail(ReadFailure);
      }
    }

    /** How much of a file that is to have this many bytes can be written; less is a failed write. */
    method Room(ghost wanted: nat) returns (capacity: Option<nat>)
      modifies this`failed
      ensures failed == old(failed) + Blame(capacity.Some? && capacity.value < wanted, WriteFailure)
    {
      capacity := *;
      if capacity.Some? && capacity.value < wanted {
        Fail(WriteFailure);
      }
    }

    /** Opens a staging file of the platform's own. */
    method OpenStaging() returns (ok: bool)
      modifies this`failed
      ensures failed == old(failed) + Blame(!ok, CreateFailure)
    {
      ok := *;
      if !ok {
        Fail(CreateFailure);
      }
    }

    /** Renames a file. Only an unspecific failure leaves it open whether anything happened. */
    method Move(source: string, destination: string, replace: bool) returns (r: MoveResult)
      requires Valid() && source != destination
      modifies this`files, this`history, this`failed
      ensures Valid() && failed == old(failed) + Blame(r.MoveFailed?, MoveFailure)
      ensures r.SourceNotFound? ==> source !in old(files)
      ensures r.DestinationExists? ==> destination in old(files) && !replace
      ensures r.SourceNotFound? || r.DestinationExists? ==> files == old(files) && history == old(history)
      ensures r.Moved? || files != old(files) ==>
        && source in old(files) && (replace || destination !in old(files))
        && files == Renamed(old(files), source, destination)
      ensures history == old(history) || history == old(history) + [files]
    {
      var early: bool := *;
      var takesEffect: bool := *;
      if source !in files && early {
        return SourceNotFound;
      }
      if source in files && destination in files && !replace && early {
        return DestinationExists;
      }
      if source in files && (replace || destination !in files) && takesEffect {
        Become(Renamed(files, source, destination));
        if * {
          return Moved;
        }
      }
      Fail(MoveFailure);
      return MoveFailed;
    }

    /** Removes a file. A failure leaves it open whether the file is gone. */
    method Delete(name: string) returns (ok: bool)
      requires Valid()
      modifies this`files, this`history, this`failed
      ensures Valid() && failed == old(failed) + Blame(!ok, DeleteFailure)
      ensures files == old(files) || files == old(files) - {name}
      ensures ok ==> name in old(files) && files == old(files) - {name}
      ensures history == old(history) || history == old(history) + [files]
    {
      var takesEffect: bool := *;
      if name in files && takesEffect {
        Become(files - {name});
        ok := *;
      } else {
        ok := false;
      }
      if !ok {
        Fail(DeleteFailure);
      }
    }

    /** Removes a file, telling a missing one apart. */
    method Remove(name: string) returns (r: RemoveResult)
      requires Valid()
      modifies this`files, this`history, this`failed
      ensures Valid() && failed == old(failed) + Blame(r.RemoveFailed?, DeleteFailure)
      ensures files == old(files) || files == old(files) - {name}
      ensures r.Removed? ==> name in old(files) && files == old(files) - {name}
      ensures r.RemoveNotFound? ==> name !in old(files) && files == old(files)
      ensures history == old(history) || history == old(history) + [files]
    {
      var early: bool := *;
      if name !in files && early {
        return RemoveNotFound;
      }
      var ok := Delete(name);
      return if ok then Removed else RemoveFailed;
    }

    /** Puts a complete, flushed file in place of whatever was there. A failure leaves it open whether it did. */
    method Commit(destination: string, bytes: seq<Byte>) returns (ok: bool)
      requires Valid()
      modifies this`files, this`history, this`failed
      ensures Valid() && failed == old(failed) + Blame(!ok, CommitFailure)
      ensures files == old(files) || (
        && destination in files && files[destination].Regular? && files[destination].flushed
        && files[destination].bytes == bytes && files == old(files)[destination := files[destination]])
      ensures ok ==> destination in files && files[destination].Regular? && files[destination].flushed
      ensures ok ==> files[destination].bytes == bytes
      ensures history == old(history) || history == old(history) + [files]
    {
      var takesEffect: bool := *;
      if takesEffect {
        var now: int := *;
        Become(files[destination := Regular(bytes, Some(now), true)]);
        ok := *;
      } else {
        ok := false;
      }
      if !ok {
        Fail(CommitFailure);
      }
    }

    /** Brings the modification time up to date. */
    method Touch(name: string) returns (r: TouchResult)
      requires Valid()
      modifies this`files, this`history, this`failed
      ensures Valid() && failed == old(failed) + Blame(r.TouchFailed?, TouchFailure)
      ensures r.TouchNotFound? ==> name !in old(files) && files == old(files)
      ensures exists modified :: files == Touched(old(files), name, modified)
      ensures history == old(history) || history == old(history) + [files]
    {
      ghost var modified := if name in files && files[name].Regular? then files[name].modified else None;
      assert files == Touched(files, name, modified);
      var early: bool := *;
      var takesEffect: bool := *;
      if name !in files && early {
        return TouchNotFound;
      }
      if name in files && files[name].Regular? && takesEffect {
        var now: int := *;
        assert Touched(files, name, Some(now)) == files[name := files[name].(modified := Some(now))];
        Become(files[name := files[name].(modified := Some(now))]);
        if * {
          return TouchDone;
        }
      }
      Fail(TouchFailure);
      return TouchFailed;
    }
  }
}
