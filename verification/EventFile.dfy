/** Appending one record to the event file while the operating system may fail at every call. */
module EventFile {

  type Bytes = seq<bv8>

  /** The answer of one `write` call: how many bytes it took, or an error. */
  datatype OsWrite = Took(n: int) | WriteFails

  /** The answers of the calls one record needs; `write` may be called many times. */
  datatype Faults = Faults(opens: bool, locks: bool, stats: bool, writes: nat -> OsWrite, truncates: bool,
                           unlocks: bool)

  datatype Outcome = WRITTEN | CAPACITY | IO_ERROR

  function Min(a: int, b: int): int { if a <= b then a else b }

  /** The file after the write loop, and whether the loop got through; `k` counts the calls made. */
  function AppendAll(content: Bytes, data: Bytes, writes: nat -> OsWrite, k: nat): (r: (Bytes, bool))
    decreases |data|
  {
    if data == [] then (content, true)
    else if writes(k).WriteFails? || writes(k).n <= 0 then (content, false)
    else
      var taken := Min(writes(k).n, |data|);
      AppendAll(content + data[..taken], data[taken..], writes, k + 1)
  }

  /** The file and the outcome after one record. */
  function RecordEffect(content: Bytes, data: Bytes, maxFileBytes: int, open: bool, f: Faults): (Bytes, Outcome) {
    if !open && !f.opens then (content, IO_ERROR)
    else if !f.locks then (content, IO_ERROR)
    else if !f.stats then (content, IO_ERROR)
    else if |content| + |data| > maxFileBytes then (content, if f.unlocks then CAPACITY else IO_ERROR)
    else
      var (after, complete) := AppendAll(content, data, f.writes, 0);
      if complete then (after, if f.unlocks then WRITTEN else IO_ERROR)
      else (if f.truncates then content else after, IO_ERROR)
  }

  /** The bytes that the record leaves behind. */
  function Residue(content: Bytes, data: Bytes, maxFileBytes: int, open: bool, f: Faults): (r: Bytes)
    ensures RecordEffect(content, data, maxFileBytes, open, f).0 == content + r
    ensures r <= data
    ensures r != [] ==> |content| + |data| <= maxFileBytes
  {
    if (!open && !f.opens) || !f.locks || !f.stats || |content| + |data| > maxFileBytes then []
    else
      AppendIsPrefix(content, data, f.writes, 0);
      var (after, complete) := AppendAll(content, data, f.writes, 0);
      if complete || !f.truncates then after[|content|..] else []
  }

  /** The loop appends a prefix of the data, and all of it exactly when it gets through. */
  lemma {:induction false} AppendIsPrefix(content: Bytes, data: Bytes, writes: nat -> OsWrite, k: nat)
    ensures var (after, complete) := AppendAll(content, data, writes, k);
      && |content| <= |after| <= |content| + |data|
      && after == content + data[..|after| - |content|]
      && (complete <==> |after| == |content| + |data|)
    decreases |data|
  {
    if data != [] && writes(k).Took? && writes(k).n > 0 {
      var taken := Min(writes(k).n, |data|);
      AppendIsPrefix(content + data[..taken], data[taken..], writes, k + 1);
      var after := AppendAll(content + data[..taken], data[taken..], writes, k + 1).0;
      var rest := |after| - |content| - taken;
      assert data[..taken] + data[taken..][..rest] == data[..taken + rest];
    }
  }

  // ----- when the write loop gets through, by the answers alone -----

  predicate Takes(answer: OsWrite) { answer.Took? && answer.n > 0 }

  /** The answers `k` to `k + n - 1` all take something. */
  predicate AllTake(writes: nat -> OsWrite, k: nat, n: nat) {
    forall i :: k <= i < k + n ==> Takes(writes(i))
  }

  /** How many bytes those answers would take in all. */
  function Total(writes: nat -> OsWrite, k: nat, n: nat): int
    requires AllTake(writes, k, n)
    decreases n
  {
    if n == 0 then 0 else writes(k).n + Total(writes, k + 1, n - 1)
  }

  /** Some number of leading answers, none of which refuses, take `length` bytes or more. */
  ghost predicate TakesInAll(writes: nat -> OsWrite, k: nat, length: nat) {
    exists n: nat :: AllTake(writes, k, n) && Total(writes, k, n) >= length
  }

  lemma TakesStep(writes: nat -> OsWrite, k: nat, n: nat)
    requires n > 0
    ensures AllTake(writes, k, n) <==> Takes(writes(k)) && AllTake(writes, k + 1, n - 1)
  {
  }

  lemma {:induction false} TotalIsNatural(writes: nat -> OsWrite, k: nat, n: nat)
    requires AllTake(writes, k, n)
    ensures Total(writes, k, n) >= n
    decreases n
  {
    if n > 0 { TotalIsNatural(writes, k + 1, n - 1); }
  }

  lemma TakesUnfold(writes: nat -> OsWrite, k: nat, length: nat)
    requires length > 0
    ensures TakesInAll(writes, k, length) <==>
      Takes(writes(k)) && (writes(k).n >= length || TakesInAll(writes, k + 1, length - writes(k).n))
  {
    if TakesInAll(writes, k, length) {
      var n: nat :| AllTake(writes, k, n) && Total(writes, k, n) >= length;
      TakesStep(writes, k, n);
      assert AllTake(writes, k + 1, n - 1);
    }
    if Takes(writes(k)) && writes(k).n >= length {
      assert AllTake(writes, k, 1) && Total(writes, k + 1, 0) == 0;
    } else if Takes(writes(k)) && TakesInAll(writes, k + 1, length - writes(k).n) {
      var n: nat :| AllTake(writes, k + 1, n) && Total(writes, k + 1, n) >= length - writes(k).n;
      TakesStep(writes, k, n + 1);
      assert AllTake(writes, k, n + 1);
    }
  }

  /** The loop gets through exactly when its answers take all of the data before one of them refuses. */
  lemma {:induction false} LoopCompletes(content: Bytes, data: Bytes, writes: nat -> OsWrite, k: nat)
    ensures AppendAll(content, data, writes, k).1 <==> TakesInAll(writes, k, |data|)
    ensures TakesInAll(writes, k, |data|) ==> AppendAll(content, data, writes, k) == (content + data, true)
    decreases |data|
  {
    hide TakesInAll;
    AppendIsPrefix(content, data, writes, k);
    if data == [] {
      NothingToTake(writes, k);
    } else {
      TakesUnfold(writes, k, |data|);
      if Takes(writes(k)) {
        var taken := Min(writes(k).n, |data|);
        LoopCompletes(content + data[..taken], data[taken..], writes, k + 1);
        assert content + data[..taken] + data[taken..] == content + data;
        if taken == |data| { NothingToTake(writes, k + 1); }
      }
    }
  }

  lemma NothingToTake(writes: nat -> OsWrite, k: nat)
    ensures TakesInAll(writes, k, 0)
  {
    assert AllTake(writes, k, 0) && Total(writes, k, 0) == 0;
  }

  /** In particular, short writes are completed: while every answer takes at least a byte, all data is written. */
  lemma ShortWritesComplete(content: Bytes, data: Bytes, writes: nat -> OsWrite, k: nat)
    requires forall i :: i >= k ==> Takes(writes(i))
    ensures AppendAll(content, data, writes, k) == (content + data, true)
  {
    assert AllTake(writes, k, |data|);
    TotalIsNatural(writes, k, |data|);
    LoopCompletes(content, data, writes, k);
  }

  /** When it does not get through, it has written what the answers before the first refusal took. */
  lemma {:induction false} LoopStops(content: Bytes, data: Bytes, writes: nat -> OsWrite, k: nat)
    returns (n: nat)
    requires !TakesInAll(writes, k, |data|)
    ensures AllTake(writes, k, n) && !Takes(writes(k + n)) && 0 <= Total(writes, k, n) < |data|
    ensures AppendAll(content, data, writes, k) == (content + data[..Total(writes, k, n)], false)
    decreases |data|
  {
    hide TakesInAll;
    if data == [] {
      NothingToTake(writes, k);
      assert false;
    } else {
      TakesUnfold(writes, k, |data|);
      if Takes(writes(k)) {
        var taken := writes(k).n;
        var m := LoopStops(content + data[..taken], data[taken..], writes, k + 1);
        n := m + 1;
        TakesStep(writes, k, n);
        var rest := data[taken..][..Total(writes, k + 1, m)];
        assert data[..Total(writes, k, n)] == data[..taken] + rest;
        assert content + data[..taken] + rest == content + (data[..taken] + rest);
      } else {
        n := 0;
        assert content + data[..0] == content;
      }
    }
  }

  // ----- what becomes of one record, by the answers it meets -----

  /** The record gets as far as the write loop. */
  predicate ReachesWrites(content: Bytes, data: Bytes, maxFileBytes: int, open: bool, f: Faults) {
    (open || f.opens) && f.locks && f.stats && |content| + |data| <= maxFileBytes
  }

  /** The answers of the write loop take the whole record before one of them refuses. */
  ghost predicate Completes(content: Bytes, data: Bytes, maxFileBytes: int, open: bool, f: Faults) {
    ReachesWrites(content, data, maxFileBytes, open, f) && TakesInAll(f.writes, 0, |data|)
  }

  /** The record is written whole, and then the unlock fails. */
  ghost predicate LosesUnlock(content: Bytes, data: Bytes, maxFileBytes: int, open: bool, f: Faults) {
    Completes(content, data, maxFileBytes, open, f) && !f.unlocks
  }

  /** The first write takes something, a later one fails, and so does the truncation. */
  ghost predicate LeavesPart(content: Bytes, data: Bytes, maxFileBytes: int, open: bool, f: Faults) {
    && ReachesWrites(content, data, maxFileBytes, open, f)
    && Takes(f.writes(0)) && !TakesInAll(f.writes, 0, |data|)
    && !f.truncates
  }

  /** The loop adds nothing exactly when its first write takes nothing. */
  lemma FirstWriteDecides(content: Bytes, data: Bytes, writes: nat -> OsWrite)
    requires data != []
    ensures AppendAll(content, data, writes, 0).0 == content <==> !Takes(writes(0))
  {
    if Takes(writes(0)) {
      var taken := Min(writes(0).n, |data|);
      AppendIsPrefix(content + data[..taken], data[taken..], writes, 1);
    }
  }

  /**
   * The outcome and the file, exactly. The whole record is in the file if and only if the
   * loop completes, and it is counted as written if and only if the unlock succeeds too.
   * A part of it is left if and only if a first write took something, the loop failed and
   * the truncation failed. In every other case the file is as it was: rollback is exact.
   */
  lemma OutcomeMeans(content: Bytes, data: Bytes, maxFileBytes: int, open: bool, f: Faults)
    requires data != []
    ensures var r, outcome :=
        Residue(content, data, maxFileBytes, open, f), RecordEffect(content, data, maxFileBytes, open, f).1;
      && (r == data <==> Completes(content, data, maxFileBytes, open, f))
      && (r != [] && r != data <==> LeavesPart(content, data, maxFileBytes, open, f))
      && (outcome == WRITTEN <==> Completes(content, data, maxFileBytes, open, f) && f.unlocks)
      && (r == data && outcome != WRITTEN <==> LosesUnlock(content, data, maxFileBytes, open, f))
      && (outcome == CAPACITY <==>
            (open || f.opens) && f.locks && f.stats && f.unlocks && |content| + |data| > maxFileBytes)
      && (outcome == CAPACITY ==> r == [])
  {
    hide TakesInAll;
    AppendIsPrefix(content, data, f.writes, 0);
    LoopCompletes(content, data, f.writes, 0);
    FirstWriteDecides(content, data, f.writes);
  }

  /** A write that takes one byte and then fails. */
  function TornWrite(k: nat): OsWrite { if k == 0 then Took(1) else WriteFails }

  function FailedWrite(k: nat): OsWrite { WriteFails }

  /** A torn write with a truncation that fails leaves its first byte. */
  lemma FailedTruncationLeavesPart()
    ensures var f := Faults(true, true, true, TornWrite, false, true);
      LeavesPart([], [1, 2], 2, false, f) && RecordEffect([], [1, 2], 2, false, f) == ([1], IO_ERROR)
  {
    var data: Bytes := [1, 2];
    assert data[..1] == [1] && [] + data[..1] == [1];
    assert AppendAll([1], data[1..], TornWrite, 1) == ([1], false);
    assert AppendAll([], data, TornWrite, 0) == ([1], false);
    LoopCompletes([], data, TornWrite, 0);
    hide TakesInAll;
  }

  /** A truncation that fails after a write that took nothing leaves the file as it was. */
  lemma FailedTruncationCanBeHarmless()
    ensures RecordEffect([], [1, 2], 2, false, Faults(true, true, true, FailedWrite, false, true)) == ([], IO_ERROR)
  {
  }

  /** The file and the descriptor that the writer thread owns. */
  class EventDestination {
    var content: Bytes
    var open: bool

    constructor (content: Bytes)
      ensures this.content == content && !open
    {
      this.content := content;
      open := false;
    }

    /** One `write` call takes at most the bytes it is offered. */
    method Write(view: Bytes, answer: OsWrite) returns (written: int)
      requires answer.Took?
      modifies this`content
      ensures written == Min(answer.n, |view|)
      ensures content == if written <= 0 then old(content) else old(content) + view[..written]
    {
      written := Min(answer.n, |view|);
      if written > 0 {
        content := content + view[..written];
      }
    }

    /** The loop ends because every call that does not raise makes progress. */
    method WriteAll(data: Bytes, writes: nat -> OsWrite) returns (ok: bool)
      modifies this`content
      ensures (content, ok) == AppendAll(old(content), data, writes, 0)
      ensures ok <==> TakesInAll(writes, 0, |data|)
      ensures ok ==> content == old(content) + data
    {
      LoopCompletes(content, data, writes, 0);
      hide TakesInAll;
      var view := data;
      var k := 0;
      while view != []
        invariant AppendAll(content, view, writes, k) == AppendAll(old(content), data, writes, 0)
        decreases |view|
      {
        if writes(k).WriteFails? {
          return false;
        }
        var written := Write(view, writes(k));
        if written <= 0 {
          return false;
        }
        view := view[written..];
        k := k + 1;
      }
      ok := true;
    }

    /** Appends one record under the file lock, and rolls a partial write back. */
    method WriteRecord(data: Bytes, maxFileBytes: int, f: Faults) returns (outcome: Outcome)
      modifies this
      ensures (content, outcome) == RecordEffect(old(content), data, maxFileBytes, old(open), f)
      ensures open <==> old(open) || f.opens
    {
      if !open {
        if !f.opens {
          return IO_ERROR;
        }
        open := true;
      }
      if !f.locks {
        return IO_ERROR;
      }
      if !f.stats {
        return IO_ERROR;
      }
      var startSize := |content|;
      if startSize + |data| > maxFileBytes {
        return if f.unlocks then CAPACITY else IO_ERROR;
      }
      var ok := WriteAll(data, f.writes);
      if !ok {
        if f.truncates {
          AppendIsPrefix(old(content), data, f.writes, 0);
          content := content[..startSize];
        }
        return IO_ERROR;
      }
      outcome := if f.unlocks then WRITTEN else IO_ERROR;
    }
  }
}
