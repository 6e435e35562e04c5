/** Publishing one descriptor inventory in a directory while every system call may fail. */
module DescriptorCapture {
  import opened Basics
  import opened EventFile

  type Name = string

  /** Whether each system call of one capture succeeds; `writes` answers the write loop. */
  datatype Faults = Faults(
    statOk: bool, nameOk: bool, openOk: bool, writes: nat -> OsWrite, syncOk: bool, closeOk: bool, linkOk: bool,
    unlinkOk: bool, dirSyncOk: bool, unpublishOk: bool, cleanupOk: bool)

  datatype Counters = Counters(
    written: nat, invalidRecords: nat, capacityDropped: nat, conflicts: nat, ioErrors: nat, closedDropped: nat)

  /** What the capture is asked to publish; `data` is `None` when the record cannot be serialised. */
  datatype Request = Request(regions: nat, data: Option<Bytes>, finalName: Name, temporaryName: Name)

  datatype Result = Published(name: Name) | Refused

  /** How a capture ends, by the counter that records it. */
  datatype Fate = CLOSED | FAILED | OVER_CAPACITY | UNSERIALISABLE | CONFLICT | WRITTEN

  function Bump(c: Counters, fate: Fate): Counters {
    match fate
    case CLOSED => c.(closedDropped := c.closedDropped + 1)
    case FAILED => c.(ioErrors := c.ioErrors + 1)
    case OVER_CAPACITY => c.(capacityDropped := c.capacityDropped + 1)
    case UNSERIALISABLE => c.(invalidRecords := c.invalidRecords + 1)
    case CONFLICT => c.(conflicts := c.conflicts + 1)
    case WRITTEN => c.(written := c.written + 1)
  }

  /** A taken name is a conflict; publication needs every call and both names free. */
  function PublishFate(directory: map<Name, Bytes>, finalName: Name, temporaryName: Name, data: Bytes, f: Faults): Fate
  {
    if !f.openOk then FAILED
    else if temporaryName in directory then CONFLICT
    else if !AppendAll([], data, f.writes, 0).1 || !f.syncOk || !f.closeOk || !f.linkOk then FAILED
    else if finalName in directory || finalName == temporaryName then CONFLICT
    else if !f.unlinkOk || !f.dirSyncOk then FAILED
    else Fate.WRITTEN
  }

  /** The counters after a capture: its fate once, and one more I/O error for every failed cleanup call. */
  predicate CountedAs(before: Counters, after: Counters, fate: Fate, f: Faults) {
    && after.(ioErrors := 0) == Bump(before, fate).(ioErrors := 0)
    && Bump(before, fate).ioErrors <= after.ioErrors <= Bump(before, fate).ioErrors + 2
    && (CleansUp(f) ==> after == Bump(before, fate))
  }

  /** The cleanup calls that this capture may need did what they were asked. */
  predicate CleansUp(f: Faults) { f.unpublishOk && f.cleanupOk }

  function FateOf(closed: bool, directory: map<Name, Bytes>, maxRegions: nat, maxRecordBytes: nat, r: Request,
                  f: Faults): Fate
  {
    if closed then CLOSED
    else if !f.statOk then FAILED
    else if r.regions > maxRegions then OVER_CAPACITY
    else if r.data.None? then UNSERIALISABLE
    else if |r.data.value| > maxRecordBytes then OVER_CAPACITY
    else if !f.nameOk then FAILED
    else PublishFate(directory, r.finalName, r.temporaryName, r.data.value, f)
  }

  // ----- the fate of a capture, by its request, its directory and the answers it meets -----

  /** The request gets as far as creating its temporary file. */
  predicate Admissible(closed: bool, maxRegions: nat, maxRecordBytes: nat, r: Request, f: Faults) {
    && !closed && f.statOk && r.regions <= maxRegions
    && r.data.Some? && |r.data.value| <= maxRecordBytes && f.nameOk
  }

  /** The temporary file is created, filled, made durable and closed, and the link is allowed. */
  ghost predicate Prepared(directory: map<Name, Bytes>, r: Request, f: Faults)
    requires r.data.Some?
  {
    && f.openOk && r.temporaryName !in directory
    && TakesInAll(f.writes, 0, |r.data.value|)
    && f.syncOk && f.closeOk && f.linkOk
  }

  /**
   * A capture publishes if and only if it is admissible, both names are free and
   * different, and every call succeeds, the writes taking all of the data.
   */
  lemma PublishesExactly(closed: bool, directory: map<Name, Bytes>, maxRegions: nat, maxRecordBytes: nat, r: Request,
                         f: Faults)
    ensures FateOf(closed, directory, maxRegions, maxRecordBytes, r, f).WRITTEN? <==>
      && Admissible(closed, maxRegions, maxRecordBytes, r, f)
      && Prepared(directory, r, f)
      && r.finalName !in directory && r.finalName != r.temporaryName
      && f.unlinkOk && f.dirSyncOk
  {
    if r.data.Some? { LoopCompletes([], r.data.value, f.writes, 0); }
    hide TakesInAll;
  }

  /** It is a conflict exactly when a name it needs is taken once it gets to need it. */
  lemma ConflictsExactly(closed: bool, directory: map<Name, Bytes>, maxRegions: nat, maxRecordBytes: nat, r: Request,
                         f: Faults)
    ensures FateOf(closed, directory, maxRegions, maxRecordBytes, r, f).CONFLICT? <==>
      && Admissible(closed, maxRegions, maxRecordBytes, r, f)
      && ((f.openOk && r.temporaryName in directory)
          || (Prepared(directory, r, f) && (r.finalName in directory || r.finalName == r.temporaryName)))
  {
    if r.data.Some? { LoopCompletes([], r.data.value, f.writes, 0); }
    hide TakesInAll;
  }

  /** Which refusals are counted as closed, as over a limit, and as unserialisable. */
  lemma RefusalsExactly(closed: bool, directory: map<Name, Bytes>, maxRegions: nat, maxRecordBytes: nat, r: Request,
                        f: Faults)
    ensures var fate := FateOf(closed, directory, maxRegions, maxRecordBytes, r, f);
      && (fate.CLOSED? <==> closed)
      && (fate.OVER_CAPACITY? <==>
            !closed && f.statOk && (r.regions > maxRegions || (r.data.Some? && |r.data.value| > maxRecordBytes)))
      && (fate.UNSERIALISABLE? <==> !closed && f.statOk && r.regions <= maxRegions && r.data.None?)
  {
  }

  /** What a capture may do to the directory, whatever fails. */
  ghost predicate Safe(before: map<Name, Bytes>, after: map<Name, Bytes>, finalName: Name, temporaryName: Name,
                       data: Bytes)
  {
    && (forall name :: name in before ==> name in after && after[name] == before[name])
    && after.Keys <= before.Keys + {finalName, temporaryName}
    && (finalName !in before && finalName in after && finalName != temporaryName ==> after[finalName] == data)
    && (temporaryName !in before && temporaryName in after && finalName != temporaryName ==>
          after[temporaryName] <= data)
  }

  /** A capture whose cleanup works either adds exactly the final name, free until then, or changes nothing. */
  predicate CapturedAs(before: map<Name, Bytes>, after: map<Name, Bytes>, finalName: Name, data: Bytes, ok: bool) {
    if ok then finalName !in before && after == before[finalName := data] else after == before
  }

  /** Whatever stays behind of the two complete names is safe. */
  lemma LeftoversSafe(before: map<Name, Bytes>, after: map<Name, Bytes>, finalName: Name, temporaryName: Name,
                      data: Bytes)
    requires finalName !in before && temporaryName !in before
    requires after in {before, before[finalName := data], before[temporaryName := data],
                       before[temporaryName := data][finalName := data]}
    ensures Safe(before, after, finalName, temporaryName, data)
  {
  }

  /** A failure, and up to two failed cleanup calls after it. */
  lemma FailureCounted(before: Counters, after: Counters, f: Faults, failed: nat)
    requires failed <= 2 && (CleansUp(f) ==> failed == 0)
    requires after == before.(ioErrors := before.ioErrors + 1 + failed)
    ensures CountedAs(before, after, FAILED, f)
  {
  }

  class DescriptorLayoutCapture {
    const maxRegions: nat
    const maxRecordBytes: nat
    var directory: map<Name, Bytes>
    var counters: Counters
    var closed: bool

    constructor (maxRegions: nat, maxRecordBytes: nat, directory: map<Name, Bytes>)
      ensures this.maxRegions == maxRegions && this.maxRecordBytes == maxRecordBytes && this.directory == directory
      ensures counters == Counters(0, 0, 0, 0, 0, 0) && !closed
    {
      this.maxRegions, this.maxRecordBytes, this.directory := maxRegions, maxRecordBytes, directory;
      counters, closed := Counters(0, 0, 0, 0, 0, 0), false;
    }

    method CountIoError()
      modifies this`counters
      ensures counters == old(counters).(ioErrors := old(counters).ioErrors + 1)
    {
      counters := counters.(ioErrors := counters.ioErrors + 1);
    }

    /** The write loop on the new temporary file: on an error a proper prefix stays behind. */
    method WriteAll(name: Name, data: Bytes, writes: nat -> OsWrite) returns (ok: bool, ghost stored: Bytes)
      requires name in directory && directory[name] == []
      modifies this`directory
      ensures directory == old(directory)[name := stored]
      ensures stored <= data && (ok ==> stored == data)
      ensures ok == AppendAll([], data, writes, 0).1
      ensures ok <==> TakesInAll(writes, 0, |data|)
    {
      LoopCompletes([], data, writes, 0);
      hide TakesInAll;
      var done := 0;
      var k := 0;
      stored := [];
      while done < |data|
        invariant 0 <= done <= |data| && stored == data[..done]
        invariant AppendAll(data[..done], data[done..], writes, k).1 == AppendAll([], data, writes, 0).1
        invariant directory == old(directory)[name := data[..done]]
      {
        if writes(k).WriteFails? || writes(k).n <= 0 {
          return false, stored;
        }
        ghost var taken := Min(writes(k).n, |data| - done);
        assert data[..done] + data[done..][..taken] == data[..done + taken] &&
          data[done..][taken..] == data[done + taken..];
        done := done + Min(writes(k).n, |data| - done);
        directory := directory[name := data[..done]];
        stored := data[..done];
        k := k + 1;
      }
      ok := true;
    }

    /** Removes the temporary name; a failure is counted and leaves it. */
    method CleanUp(name: Name, ok: bool)
      modifies this`directory, this`counters
      ensures directory == if ok then old(directory) - {name} else old(directory)
      ensures counters == if ok then old(counters) else old(counters).(ioErrors := old(counters).ioErrors + 1)
    {
      if ok {
        directory := directory - {name};
      } else {
        CountIoError();
      }
    }

    /** Later captures are refused; a failure to release the directory is counted, once. */
    method Close(ok: bool)
      modifies this`closed, this`counters
      ensures closed
      ensures counters == if old(closed) || ok then old(counters)
        else old(counters).(ioErrors := old(counters).ioErrors + 1)
    {
      if closed {
        return;
      }
      closed := true;
      if !ok {
        CountIoError();
      }
    }

    /**
     * Publishes complete data under a name that was free, or leaves every existing name as
     * it was: whatever fails, no name that existed before is altered or removed, and a final
     * name that was not there before holds the complete data if it is there afterwards. A returned name means that
     * exactly the final name was added. Without a returned name, working cleanup restores
     * the directory exactly; otherwise at most the temporary name and the final name remain.
     */
    method Capture(r: Request, f: Faults) returns (result: Result)
      modifies this`directory, this`counters
      ensures r.data.None? ==> directory == old(directory)
      ensures r.data.Some? ==> Safe(old(directory), directory, r.finalName, r.temporaryName, r.data.value)
      ensures result.Published? ==>
        && result.name == r.finalName && r.finalName !in old(directory) && r.data.Some?
        && directory == old(directory)[r.finalName := r.data.value]
      ensures result.Refused? && CleansUp(f) ==> directory == old(directory)
      ensures r.data.Some? && CleansUp(f) ==>
        CapturedAs(old(directory), directory, r.finalName, r.data.value, result.Published?)
      ensures result.Published? <==>
        && Admissible(old(closed), maxRegions, maxRecordBytes, r, f)
        && Prepared(old(directory), r, f)
        && r.finalName !in old(directory) && r.finalName != r.temporaryName
        && f.unlinkOk && f.dirSyncOk
      ensures counters.written == old(counters).written + (if result.Published? then 1 else 0)
      ensures counters.conflicts != old(counters).conflicts <==>
        && Admissible(old(closed), maxRegions, maxRecordBytes, r, f)
        && ((f.openOk && r.temporaryName in old(directory))
            || (Prepared(old(directory), r, f)
                && (r.finalName in old(directory) || r.finalName == r.temporaryName)))
      ensures counters.capacityDropped != old(counters).capacityDropped <==>
        !old(closed) && f.statOk && (r.regions > maxRegions || (r.data.Some? && |r.data.value| > maxRecordBytes))
      ensures counters.invalidRecords != old(counters).invalidRecords <==>
        !old(closed) && f.statOk && r.regions <= maxRegions && r.data.None?
      ensures counters.closedDropped != old(counters).closedDropped <==> old(closed)
      ensures var fate := FateOf(old(closed), old(directory), maxRegions, maxRecordBytes, r, f);
        (result.Published? <==> fate.WRITTEN?) && CountedAs(old(counters), counters, fate, f)
    {
      PublishesExactly(closed, directory, maxRegions, maxRecordBytes, r, f);
      ConflictsExactly(closed, directory, maxRegions, maxRecordBytes, r, f);
      RefusalsExactly(closed, directory, maxRegions, maxRecordBytes, r, f);
      hide Prepared;
      hide PublishFate;
      if closed {
        counters := counters.(closedDropped := counters.closedDropped + 1);
        return Refused;
      }
      if !f.statOk {
        CountIoError();
        return Refused;
      }
      if r.regions > maxRegions {
        counters := counters.(capacityDropped := counters.capacityDropped + 1);
        return Refused;
      }
      if r.data.None? {
        counters := counters.(invalidRecords := counters.invalidRecords + 1);
        return Refused;
      }
      var data := r.data.value;
      if |data| > maxRecordBytes {
        counters := counters.(capacityDropped := counters.capacityDropped + 1);
        return Refused;
      }
      if !f.nameOk {
        CountIoError();
        return Refused;
      }
      result := Publish(r.finalName, r.temporaryName, data, f);
    }

    /** Exclusive creation, complete write, no-overwrite link, and the cleanup of whatever failed. */
    method Publish(finalName: Name, temporaryName: Name, data: Bytes, f: Faults) returns (result: Result)
      modifies this`directory, this`counters
      ensures Safe(old(directory), directory, finalName, temporaryName, data)
      ensures result.Published? ==>
        result.name == finalName && finalName !in old(directory) && directory == old(directory)[finalName := data]
      ensures result.Refused? && CleansUp(f) ==> directory == old(directory)
      ensures var fate := PublishFate(old(directory), finalName, temporaryName, data, f);
        (result.Published? <==> fate.WRITTEN?) && CountedAs(old(counters), counters, fate, f)
    {
      if !f.openOk || temporaryName in directory {
        // exclusive creation refuses an existing name: a conflict; any other failure is an I/O error
        if f.openOk {
          counters := counters.(conflicts := counters.conflicts + 1);
        } else {
          CountIoError();
        }
        return Refused;
      }
      directory := directory[temporaryName := []];
      var complete, stored := WriteAll(temporaryName, data, f.writes);
      assert directory == old(directory)[temporaryName := stored];
      assert directory - {temporaryName} == old(directory);
      if !complete || !f.syncOk || !f.closeOk {
        CountIoError();
        CleanUp(temporaryName, f.cleanupOk);
        return Refused;
      }
      if !f.linkOk || finalName in directory {
        if f.linkOk {
          counters := counters.(conflicts := counters.conflicts + 1);
        } else {
          CountIoError();
        }
        CleanUp(temporaryName, f.cleanupOk);
        return Refused;
      }
      result := Settle(finalName, temporaryName, data, f, old(directory));
    }

    /** Links the complete temporary file and removes its temporary name; takes both back on an error. */
    method Settle(finalName: Name, temporaryName: Name, data: Bytes, f: Faults, ghost before: map<Name, Bytes>)
      returns (result: Result)
      requires temporaryName !in before && directory == before[temporaryName := data]
      requires finalName !in directory
      modifies this`directory, this`counters
      ensures Safe(before, directory, finalName, temporaryName, data)
      ensures result.Published? ==> result.name == finalName && directory == before[finalName := data]
      ensures result.Refused? && CleansUp(f) ==> directory == before
      ensures var fate := if f.unlinkOk && f.dirSyncOk then Fate.WRITTEN else FAILED;
        (result.Published? <==> fate.WRITTEN?) && CountedAs(old(counters), counters, fate, f)
    {
      hide Safe;
      directory := directory[finalName := data];
      assert directory == before[temporaryName := data][finalName := data];
      assert directory - {temporaryName} == before[finalName := data];
      assert directory - {finalName} == before[temporaryName := data];
      assert directory - {finalName} - {temporaryName} == before;
      if !f.unlinkOk {
        CountIoError();
        Unpublish(finalName, f.unpublishOk);
        CleanUp(temporaryName, f.cleanupOk);
        LeftoversSafe(before, directory, finalName, temporaryName, data);
        FailureCounted(old(counters), counters, f, (if f.unpublishOk then 0 else 1) + (if f.cleanupOk then 0 else 1));
        return Refused;
      }
      directory := directory - {temporaryName};
      if !f.dirSyncOk {
        CountIoError();
        Unpublish(finalName, f.unpublishOk);
        assert f.unpublishOk ==> directory == before;
        LeftoversSafe(before, directory, finalName, temporaryName, data);
        FailureCounted(old(counters), counters, f, if f.unpublishOk then 0 else 1);
        return Refused;
      }
      LeftoversSafe(before, directory, finalName, temporaryName, data);
      assert CountedAs(old(counters), old(counters).(written := old(counters).written + 1), Fate.WRITTEN, f);
      counters := counters.(written := counters.written + 1);
      result := Published(finalName);
    }

    /** Takes a published name back; a failure is counted and leaves it. */
    method Unpublish(name: Name, ok: bool)
      modifies this`directory, this`counters
      ensures directory == if ok then old(directory) - {name} else old(directory)
      ensures counters == if ok then old(counters) else old(counters).(ioErrors := old(counters).ioErrors + 1)
    {
      CleanUp(name, ok);
    }
  }
}
