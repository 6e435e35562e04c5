/**
 * The asynchronous event sink as a state machine over its threads' steps: any number of
 * emitters and closers, and one writer. `_state_lock` is explicit, because the writer
 * takes records from the queue without it.
 */
module EventSink {
  import opened EventFile

  /** Who holds the state lock between the two effects of its critical section. */
  datatype Lock =
    | FREE
    | EMITTER_COUNTING  // a record is in the queue and not yet counted
    | CLOSER_STOPPING   // `closed` is set and the stop event is not yet

  datatype Writer =
    | AT_LOOP
    | SAW_STOP                                       // read the stop event as set, about to test the queue
    | AT_GET
    | HOLDING(record: Bytes)                         // took a record, not yet written
    | COUNTING(result: Outcome)                      // dealt with a record, not yet counted
    | EXITED

  datatype Counters = Counters(
    enqueued: nat, written: nat, queueDropped: nat, recordSizeDropped: nat, fileCapacityDropped: nat,
    serializationErrors: nat, ioErrors: nat, closedDropped: nat, shutdownTimeouts: nat)

  /** What became of one record taken from the queue. */
  datatype Done = Done(record: Bytes, outcome: Outcome, residue: Bytes)

  datatype Sink = Sink(
    maxPending: nat, maxRecordBytes: nat, maxFileBytes: nat,
    queue: seq<Bytes>, closed: bool, stop: bool, lock: Lock, writer: Writer, counters: Counters,
    content: Bytes, open: bool,
    accepted: seq<Bytes>, done: seq<Done>)  // history: records put into the queue, records dealt with

  function Initial(maxPending: nat, maxRecordBytes: nat, maxFileBytes: nat, content: Bytes): Sink {
    Sink(maxPending, maxRecordBytes, maxFileBytes, [], false, false, FREE, AT_LOOP,
         Counters(0, 0, 0, 0, 0, 0, 0, 0, 0), content, false, [], [])
  }

  /** What an emitter offers: a line ending in a newline, or a record that cannot be serialised. */
  datatype Encoded = Unserialisable | Line(bytes: Bytes)

  datatype Step =
    | Emit(encoded: Encoded)
    | EmitCount
    | CloseMark
    | CloseStop
    | CloseTimesOut
    | WriterReadsStop
    | WriterTestsQueue
    | WriterGets
    | WriterTimesOut
    | WriterWrites(faults: Faults)
    | WriterCounts

  predicate CanStep(s: Sink, step: Step) {
    match step
    case Emit(encoded) => s.lock.FREE? && encoded != Line([])
    case EmitCount => s.lock.EMITTER_COUNTING?
    case CloseMark => s.lock.FREE?
    case CloseStop => s.lock.CLOSER_STOPPING?
    case CloseTimesOut => s.lock.FREE? && s.closed && !s.writer.EXITED?
    case WriterReadsStop => s.writer.AT_LOOP?
    case WriterTestsQueue => s.writer.SAW_STOP?
    case WriterGets => s.writer.AT_GET? && s.queue != []
    case WriterTimesOut => s.writer.AT_GET? && s.queue == []
    case WriterWrites(_) => s.writer.HOLDING?
    case WriterCounts => s.writer.COUNTING? && s.lock.FREE?
  }

  function Counted(c: Counters, result: Outcome): Counters {
    match result
    case WRITTEN => c.(written := c.written + 1)
    case CAPACITY => c.(fileCapacityDropped := c.fileCapacityDropped + 1)
    case IO_ERROR => c.(ioErrors := c.ioErrors + 1)
  }

  /** The writer deals with the record it holds; an I/O error closes the descriptor. */
  function Write(s: Sink, f: Faults): Sink
    requires s.writer.HOLDING?
  {
    var record := s.writer.record;
    var (content, outcome) := RecordEffect(s.content, record, s.maxFileBytes, s.open, f);
    s.(content := content, open := outcome != IO_ERROR, writer := COUNTING(outcome),
       done := s.done + [Done(record, outcome, Residue(s.content, record, s.maxFileBytes, s.open, f))])
  }

  /** One `emit` call up to its put: checks in the source's order, newest dropped on overflow. */
  function Offer(s: Sink, encoded: Encoded): Sink {
    var c := s.counters;
    if encoded.Unserialisable? then s.(counters := c.(serializationErrors := c.serializationErrors + 1))
    else if |encoded.bytes| > s.maxRecordBytes then s.(counters := c.(recordSizeDropped := c.recordSizeDropped + 1))
    else if s.closed then s.(counters := c.(closedDropped := c.closedDropped + 1))
    else if |s.queue| >= s.maxPending then s.(counters := c.(queueDropped := c.queueDropped + 1))
    else s.(queue := s.queue + [encoded.bytes], accepted := s.accepted + [encoded.bytes], lock := EMITTER_COUNTING)
  }

  function Next(s: Sink, step: Step): Sink
    requires CanStep(s, step)
  {
    var c := s.counters;
    match step
    case Emit(encoded) => Offer(s, encoded)
    case EmitCount => s.(counters := c.(enqueued := c.enqueued + 1), lock := FREE)
    case CloseMark => if s.closed then s else s.(closed := true, lock := CLOSER_STOPPING)
    case CloseStop => s.(stop := true, lock := FREE)
    case CloseTimesOut => s.(counters := c.(shutdownTimeouts := c.shutdownTimeouts + 1))
    case WriterReadsStop => s.(writer := if s.stop then SAW_STOP else AT_GET)
    case WriterTestsQueue => s.(writer := if s.queue == [] then EXITED else AT_GET)
    case WriterGets => s.(writer := HOLDING(s.queue[0]), queue := s.queue[1..])
    case WriterTimesOut => s.(writer := AT_LOOP)
    case WriterWrites(f) => Write(s, f)
    case WriterCounts => s.(counters := Counted(c, s.writer.result), writer := AT_LOOP)
  }

  /** Every interleaving: each step was possible when it was taken. */
  predicate Schedule(s: Sink, steps: seq<Step>)
    decreases |steps|
  {
    steps == [] || (CanStep(s, steps[0]) && Schedule(Next(s, steps[0]), steps[1..]))
  }

  function Run(s: Sink, steps: seq<Step>): Sink
    requires Schedule(s, steps)
    decreases |steps|
  {
    if steps == [] then s else Run(Next(s, steps[0]), steps[1..])
  }

  // ----- the invariant -----

  function Records(done: seq<Done>): (r: seq<Bytes>)
    ensures |r| == |done|
  {
    seq(|done|, i requires 0 <= i < |done| => done[i].record)
  }

  function InHand(w: Writer): seq<Bytes> { if w.HOLDING? then [w.record] else [] }

  function Tally(done: seq<Done>, o: Outcome): nat {
    if done == [] then 0 else Tally(done[..|done| - 1], o) + (if done[|done| - 1].outcome == o then 1 else 0)
  }

  function Uncounted(w: Writer, o: Outcome): nat { if w.COUNTING? && w.result == o then 1 else 0 }

  function Residues(done: seq<Done>): Bytes {
    if done == [] then [] else Residues(done[..|done| - 1]) + done[|done| - 1].residue
  }

  /** The close protocol: the stop event is set only after `closed`, inside the same critical section. */
  predicate CloseInv(s: Sink) {
    && (s.closed <==> s.stop || s.lock.CLOSER_STOPPING?)
    && (s.stop ==> !s.lock.CLOSER_STOPPING?)
    && (s.lock.EMITTER_COUNTING? ==> !s.closed)
    && (s.writer.SAW_STOP? || s.writer.EXITED? ==> s.stop)
    && (s.writer.EXITED? ==> s.queue == [])
  }

  /** Records leave in the order they came in: dealt with, then in hand, then queued. */
  predicate QueueInv(s: Sink) {
    && |s.queue| <= s.maxPending
    && s.accepted == Records(s.done) + InHand(s.writer) + s.queue
    && s.counters.enqueued + (if s.lock.EMITTER_COUNTING? then 1 else 0) == |s.accepted|
  }

  predicate CountInv(s: Sink) {
    && s.counters.written + Uncounted(s.writer, WRITTEN) == Tally(s.done, WRITTEN)
    && s.counters.fileCapacityDropped + Uncounted(s.writer, CAPACITY) == Tally(s.done, CAPACITY)
    && s.counters.ioErrors + Uncounted(s.writer, IO_ERROR) == Tally(s.done, IO_ERROR)
  }

  predicate ResidueOk(d: Done) {
    && d.record != []
    && d.residue <= d.record
    && (d.outcome == WRITTEN ==> d.residue == d.record)
    && (d.outcome == CAPACITY ==> d.residue == [])
  }

  predicate FileInv(s: Sink, start: Bytes) {
    && s.content == start + Residues(s.done)
    && (forall i :: 0 <= i < |s.done| ==> ResidueOk(s.done[i]))
    && (forall i :: 0 <= i < |s.accepted| ==> s.accepted[i] != [])
    && (|start| <= s.maxFileBytes ==> |s.content| <= s.maxFileBytes)
  }

  predicate Inv(s: Sink, start: Bytes) {
    CloseInv(s) && QueueInv(s) && CountInv(s) && FileInv(s, start)
  }

  lemma CloseStep(s: Sink, step: Step)
    requires CloseInv(s) && CanStep(s, step)
    ensures CloseInv(Next(s, step))
  {
  }

  lemma RecordsAppend(done: seq<Done>, d: Done)
    ensures Records(done + [d]) == Records(done) + [d.record]
  {
  }

  lemma OfferKeepsQueue(s: Sink, encoded: Encoded)
    requires QueueInv(s) && s.lock.FREE?
    ensures QueueInv(Offer(s, encoded))
  {
    hide Records;
  }

  lemma QueueStep(s: Sink, step: Step)
    requires QueueInv(s) && CanStep(s, step)
    ensures QueueInv(Next(s, step))
  {
    hide RecordEffect;
    hide Offer;
    match step
    case Emit(encoded) => OfferKeepsQueue(s, encoded);
    case WriterGets => assert s.queue == [s.queue[0]] + s.queue[1..];
    case WriterWrites(f) => RecordsAppend(s.done, Next(s, step).done[|s.done|]);
    case _ =>
  }

  lemma TallyAppend(done: seq<Done>, d: Done, o: Outcome)
    ensures Tally(done + [d], o) == Tally(done, o) + if d.outcome == o then 1 else 0
  {
    assert (done + [d])[..|done|] == done;
  }

  lemma CountStep(s: Sink, step: Step)
    requires CountInv(s) && CanStep(s, step)
    ensures CountInv(Next(s, step))
  {
    hide Tally;
    hide RecordEffect;
    if step.WriterWrites? {
      var d := Next(s, step).done[|s.done|];
      TallyAppend(s.done, d, WRITTEN);
      TallyAppend(s.done, d, CAPACITY);
      TallyAppend(s.done, d, IO_ERROR);
    }
  }

  lemma ResiduesAppend(done: seq<Done>, d: Done)
    ensures Residues(done + [d]) == Residues(done) + d.residue
  {
    assert (done + [d])[..|done|] == done;
  }

  lemma HeldIsNonempty(s: Sink, start: Bytes)
    requires QueueInv(s) && FileInv(s, start) && s.writer.HOLDING?
    ensures s.writer.record != []
  {
    assert s.accepted[|s.done|] == s.writer.record;
  }

  lemma WriteKeepsFile(s: Sink, f: Faults, start: Bytes)
    requires QueueInv(s) && FileInv(s, start) && s.writer.HOLDING?
    ensures FileInv(Write(s, f), start)
  {
    hide QueueInv;
    hide RecordEffect;
    hide Residue;
    hide Residues;
    HeldIsNonempty(s, start);
    OutcomeMeans(s.content, s.writer.record, s.maxFileBytes, s.open, f);
    ResiduesAppend(s.done, Write(s, f).done[|s.done|]);
  }

  lemma FileStep(s: Sink, step: Step, start: Bytes)
    requires QueueInv(s) && FileInv(s, start) && CanStep(s, step)
    ensures FileInv(Next(s, step), start)
  {
    hide QueueInv;
    hide Residues;
    hide ResidueOk;
    hide Write;
    if step.WriterWrites? { WriteKeepsFile(s, step.faults, start); }
  }

  lemma NextKeepsInv(s: Sink, step: Step, start: Bytes)
    requires Inv(s, start) && CanStep(s, step)
    ensures Inv(Next(s, step), start)
  {
    hide CloseInv;
    hide QueueInv;
    hide CountInv;
    hide FileInv;
    hide CanStep;
    hide Next;
    CloseStep(s, step);
    QueueStep(s, step);
    CountStep(s, step);
    FileStep(s, step, start);
  }

  lemma {:induction false} RunKeepsInv(s: Sink, steps: seq<Step>, start: Bytes)
    requires Inv(s, start) && Schedule(s, steps)
    ensures Inv(Run(s, steps), start)
    decreases |steps|
  {
    hide Inv;
    hide CanStep;
    hide Next;
    if steps != [] {
      NextKeepsInv(s, steps[0], start);
      RunKeepsInv(Next(s, steps[0]), steps[1..], start);
    }
  }

  lemma InitialInv(maxPending: nat, maxRecordBytes: nat, maxFileBytes: nat, content: Bytes)
    ensures Inv(Initial(maxPending, maxRecordBytes, maxFileBytes, content), content)
  {
  }

  // ----- what every schedule keeps -----

  predicate Fresh(s: Sink) { s == Initial(s.maxPending, s.maxRecordBytes, s.maxFileBytes, s.content) }

  lemma {:induction false} TallyTotal(done: seq<Done>)
    ensures Tally(done, WRITTEN) + Tally(done, CAPACITY) + Tally(done, IO_ERROR) == |done|
  {
    if done != [] { TallyTotal(done[..|done| - 1]); }
  }

  /**
   * Nothing is lost: between critical sections, every record counted as enqueued is
   * written, dropped for file capacity, failed, queued, or in the writer's hands; and
   * records are dealt with in the order they were accepted.
   */
  lemma Conservation(s: Sink, steps: seq<Step>)
    requires Fresh(s) && Schedule(s, steps)
    ensures var e := Run(s, steps); !e.lock.EMITTER_COUNTING? ==>
      e.counters.enqueued == e.counters.written + e.counters.fileCapacityDropped + e.counters.ioErrors
        + |e.queue| + (if e.writer.HOLDING? || e.writer.COUNTING? then 1 else 0)
    ensures var e := Run(s, steps); Records(e.done) <= e.accepted && |e.queue| <= e.maxPending
  {
    InitialInv(s.maxPending, s.maxRecordBytes, s.maxFileBytes, s.content);
    RunKeepsInv(s, steps, s.content);
    TallyTotal(Run(s, steps).done);
    hide Run;
    hide Tally;
  }

  /**
   * An emission is accepted exactly when its line is within the record limit, the sink is
   * open and the queue has room; then it is queued last, and otherwise nothing is queued.
   */
  lemma EmissionAccepted(s: Sink, encoded: Encoded)
    requires CanStep(s, Emit(encoded))
    ensures var s' := Next(s, Emit(encoded));
      var fits := encoded.Line? && |encoded.bytes| <= s.maxRecordBytes && !s.closed && |s.queue| < s.maxPending;
      && s'.queue == (if fits then s.queue + [encoded.bytes] else s.queue)
      && s'.accepted == (if fits then s.accepted + [encoded.bytes] else s.accepted)
      && (s'.lock.EMITTER_COUNTING? <==> fits)
      && Refused(s'.counters) == Refused(s.counters) + (if fits then 0 else 1)
  {
  }

  /** Emissions counted as dropped, for whatever reason. */
  function Refused(c: Counters): nat {
    c.serializationErrors + c.recordSizeDropped + c.closedDropped + c.queueDropped
  }

  function Emissions(steps: seq<Step>): nat {
    if steps == [] then 0 else (if steps[0].Emit? then 1 else 0) + Emissions(steps[1..])
  }

  lemma StepCountsEmission(s: Sink, step: Step)
    requires CanStep(s, step)
    ensures var s' := Next(s, step);
      |s'.accepted| + Refused(s'.counters) == |s.accepted| + Refused(s.counters) + (if step.Emit? then 1 else 0)
  {
    hide Offer;
    hide RecordEffect;
    hide Residue;
    if step.Emit? { EmissionAccepted(s, step.encoded); }
  }

  /** In every schedule each emission is accepted or refused, once. */
  lemma {:induction false} EveryEmissionCounts(s: Sink, steps: seq<Step>)
    requires Schedule(s, steps)
    ensures var e := Run(s, steps);
      |e.accepted| + Refused(e.counters) == |s.accepted| + Refused(s.counters) + Emissions(steps)
    decreases |steps|
  {
    hide Refused;
    hide CanStep;
    hide Next;
    if steps != [] {
      StepCountsEmission(s, steps[0]);
      EveryEmissionCounts(Next(s, steps[0]), steps[1..]);
    }
  }

  lemma EmissionReason(s: Sink, encoded: Encoded)
    requires CanStep(s, Emit(encoded))
    ensures var c, c' := s.counters, Next(s, Emit(encoded)).counters;
      && (c'.serializationErrors != c.serializationErrors <==> encoded.Unserialisable?)
      && (c'.recordSizeDropped != c.recordSizeDropped <==> encoded.Line? && |encoded.bytes| > s.maxRecordBytes)
      && (c'.closedDropped != c.closedDropped <==> encoded.Line? && |encoded.bytes| <= s.maxRecordBytes && s.closed)
  {
  }

  /** Once the stop event is set nothing is accepted any more. */
  lemma {:induction false} StoppedAcceptsNothing(s: Sink, steps: seq<Step>)
    requires s.closed && Schedule(s, steps)
    ensures var e := Run(s, steps); e.accepted == s.accepted && e.closed
    decreases |steps|
  {
    hide RecordEffect;
    if steps != [] { StoppedAcceptsNothing(Next(s, steps[0]), steps[1..]); }
  }

  lemma {:induction false} ExitedStays(s: Sink, steps: seq<Step>)
    requires s.writer.EXITED? && s.closed && Schedule(s, steps)
    ensures Run(s, steps).writer.EXITED? && Run(s, steps).queue == s.queue && Run(s, steps).done == s.done
    decreases |steps|
  {
    hide RecordEffect;
    if steps != [] { ExitedStays(Next(s, steps[0]), steps[1..]); }
  }

  /**
   * No record is lost in the race between emitters and a closer: when the writer has
   * exited, every record ever accepted has been dealt with, and whatever emitters still
   * do, no record is accepted afterwards.
   */
  lemma ExitedHasDrained(s: Sink, steps: seq<Step>, later: seq<Step>)
    requires Fresh(s) && Schedule(s, steps) && Run(s, steps).writer.EXITED? && Schedule(Run(s, steps), later)
    ensures var e := Run(Run(s, steps), later); e.queue == [] && Records(e.done) == e.accepted == Run(s, steps).accepted
  {
    InitialInv(s.maxPending, s.maxRecordBytes, s.maxFileBytes, s.content);
    RunKeepsInv(s, steps, s.content);
    var m := Run(s, steps);
    StoppedAcceptsNothing(m, later);
    ExitedStays(m, later);
    RunKeepsInv(m, later, s.content);
    hide Run;
  }

  // ----- the file -----

  /** The records that the file holds whole, in order. */
  function Landed(done: seq<Done>): (r: seq<Bytes>) {
    if done == [] then []
    else
      var rest, d := Landed(done[..|done| - 1]), done[|done| - 1];
      if d.residue == d.record then rest + [d.record] else rest
  }

  function Concat(rs: seq<Bytes>): Bytes {
    if rs == [] then [] else Concat(rs[..|rs| - 1]) + rs[|rs| - 1]
  }

  /** Every record is in the file whole or not at all. */
  predicate NoParts(done: seq<Done>) {
    forall i :: 0 <= i < |done| ==> done[i].residue == [] || done[i].residue == done[i].record
  }

  /** Every record that is in the file whole was counted as written. */
  predicate LandedIsWritten(done: seq<Done>) {
    forall i :: 0 <= i < |done| && done[i].residue == done[i].record ==> done[i].outcome == WRITTEN
  }

  predicate AllResidueOk(done: seq<Done>) { forall i :: 0 <= i < |done| ==> ResidueOk(done[i]) }

  lemma NoPartsAppend(done: seq<Done>, d: Done)
    ensures NoParts(done + [d]) <==> NoParts(done) && (d.residue == [] || d.residue == d.record)
    ensures LandedIsWritten(done + [d]) <==> LandedIsWritten(done) && (d.residue == d.record ==> d.outcome == WRITTEN)
  {
    var more := done + [d];
    assert forall i :: 0 <= i < |done| ==> more[i] == done[i];
    assert more[|done|] == d;
  }

  lemma ConcatAppend(rs: seq<Bytes>, r: Bytes)
    ensures Concat(rs + [r]) == Concat(rs) + r
  {
    assert (rs + [r])[..|rs|] == rs;
  }

  /** The bytes left behind are those of the landed records and, beyond them, of the parts. */
  lemma {:induction false} PartsAddBytes(done: seq<Done>)
    requires AllResidueOk(done)
    ensures |Residues(done)| >= |Concat(Landed(done))|
    ensures NoParts(done) ==> Residues(done) == Concat(Landed(done))
    ensures !NoParts(done) ==> |Residues(done)| > |Concat(Landed(done))|
  {
    if done != [] {
      var n := |done| - 1;
      assert done == done[..n] + [done[n]];
      PartsAddBytes(done[..n]);
      NoPartsAppend(done[..n], done[n]);
      ConcatAppend(Landed(done[..n]), done[n].record);
      assert ResidueOk(done[n]);
      hide NoParts;
      hide Concat;
    }
  }

  /** The file is whole records alone exactly when no record left a part. */
  lemma WholeRecordsOnly(done: seq<Done>)
    requires AllResidueOk(done)
    ensures Residues(done) == Concat(Landed(done)) <==> NoParts(done)
  {
    PartsAddBytes(done);
    hide NoParts;
  }

  /** As many records landed as were written exactly when every landed one was. */
  lemma {:induction false} WrittenAreLanded(done: seq<Done>)
    requires AllResidueOk(done)
    ensures |Landed(done)| >= Tally(done, WRITTEN)
    ensures |Landed(done)| == Tally(done, WRITTEN) <==> LandedIsWritten(done)
  {
    if done != [] {
      var n := |done| - 1;
      assert done == done[..n] + [done[n]];
      WrittenAreLanded(done[..n]);
      NoPartsAppend(done[..n], done[n]);
      assert ResidueOk(done[n]);
      hide LandedIsWritten;
    }
  }

  /** A subsequence keeps the order: every landed record is a dealt-with record, in the same order. */
  ghost predicate Subsequence(a: seq<Bytes>, b: seq<Bytes>) {
    a == [] || (b != [] && ((a[|a| - 1] == b[|b| - 1] && Subsequence(a[..|a| - 1], b[..|b| - 1]))
                            || Subsequence(a, b[..|b| - 1])))
  }

  lemma {:induction false} LandedInOrder(done: seq<Done>)
    ensures Subsequence(Landed(done), Records(done))
  {
    if done != [] {
      var n := |done| - 1;
      LandedInOrder(done[..n]);
      var rest := Landed(done[..n]);
      assert Records(done)[..n] == Records(done[..n]);
      assert (rest + [done[n].record])[..|rest|] == rest;
    }
  }

  // ----- the same, by the answers that the schedule gives -----

  /** The step is a write whose answers leave a part of its record in the file. */
  ghost predicate PartNow(s: Sink, step: Step)
    requires CanStep(s, step)
  {
    step.WriterWrites? && LeavesPart(s.content, s.writer.record, s.maxFileBytes, s.open, step.faults)
  }

  /** The step is a write whose unlock fails after the record was written whole. */
  ghost predicate UnlockNow(s: Sink, step: Step)
    requires CanStep(s, step)
  {
    step.WriterWrites? && LosesUnlock(s.content, s.writer.record, s.maxFileBytes, s.open, step.faults)
  }

  ghost predicate SomePartLeft(s: Sink, steps: seq<Step>)
    requires Schedule(s, steps)
    decreases |steps|
  {
    steps != [] && (PartNow(s, steps[0]) || SomePartLeft(Next(s, steps[0]), steps[1..]))
  }

  ghost predicate SomeUnlockLost(s: Sink, steps: seq<Step>)
    requires Schedule(s, steps)
    decreases |steps|
  {
    steps != [] && (UnlockNow(s, steps[0]) || SomeUnlockLost(Next(s, steps[0]), steps[1..]))
  }

  lemma WriteShows(s: Sink, f: Faults, start: Bytes)
    requires Inv(s, start) && s.writer.HOLDING?
    ensures var done := Write(s, f).done;
      && (NoParts(done) <==> NoParts(s.done) && !LeavesPart(s.content, s.writer.record, s.maxFileBytes, s.open, f))
      && (LandedIsWritten(done) <==>
            LandedIsWritten(s.done) && !LosesUnlock(s.content, s.writer.record, s.maxFileBytes, s.open, f))
  {
    hide CloseInv;
    hide QueueInv;
    hide CountInv;
    hide FileInv;
    hide NoParts;
    hide LandedIsWritten;
    hide RecordEffect;
    hide Residue;
    hide LeavesPart;
    hide LosesUnlock;
    HeldIsNonempty(s, start);
    OutcomeMeans(s.content, s.writer.record, s.maxFileBytes, s.open, f);
    NoPartsAppend(s.done, Write(s, f).done[|s.done|]);
  }

  lemma OthersDoNothing(s: Sink, step: Step)
    requires CanStep(s, step) && !step.WriterWrites?
    ensures Next(s, step).done == s.done
  {
  }

  lemma {:induction false} ScheduleShows(s: Sink, steps: seq<Step>, start: Bytes)
    requires Inv(s, start) && Schedule(s, steps)
    ensures NoParts(Run(s, steps).done) <==> NoParts(s.done) && !SomePartLeft(s, steps)
    ensures LandedIsWritten(Run(s, steps).done) <==> LandedIsWritten(s.done) && !SomeUnlockLost(s, steps)
    decreases |steps|
  {
    hide Inv;
    hide NoParts;
    hide LandedIsWritten;
    hide LeavesPart;
    hide LosesUnlock;
    hide Write;
    if steps != [] {
      NextKeepsInv(s, steps[0], start);
      if steps[0].WriterWrites? {
        WriteShows(s, steps[0].faults, start);
      } else {
        OthersDoNothing(s, steps[0]);
      }
      ScheduleShows(Next(s, steps[0]), steps[1..], start);
    }
  }

  lemma FreshRun(s: Sink, steps: seq<Step>)
    requires Fresh(s) && Schedule(s, steps)
    ensures var e := Run(s, steps); Inv(e, s.content) && AllResidueOk(e.done)
    ensures NoParts(Run(s, steps).done) <==> !SomePartLeft(s, steps)
    ensures LandedIsWritten(Run(s, steps).done) <==> !SomeUnlockLost(s, steps)
  {
    InitialInv(s.maxPending, s.maxRecordBytes, s.maxFileBytes, s.content);
    RunKeepsInv(s, steps, s.content);
    ScheduleShows(s, steps, s.content);
    hide Run;
    hide Schedule;
    hide SomePartLeft;
    hide SomeUnlockLost;
  }

  /**
   * For every schedule of short writes and failures, exactly: the file is its initial
   * content followed by whole accepted records in their order if and only if no write
   * leaves a part; and those records number `written` if and only if no unlock fails
   * after a complete write. They are never fewer than `written`.
   */
  lemma FileHoldsWholeRecords(s: Sink, steps: seq<Step>)
    requires Fresh(s) && Schedule(s, steps)
    ensures var e := Run(s, steps);
      && (e.content == s.content + Concat(Landed(e.done)) <==> !SomePartLeft(s, steps))
      && Subsequence(Landed(e.done), Records(e.done)) && Records(e.done) <= e.accepted
      && |Landed(e.done)| >= e.counters.written + Uncounted(e.writer, WRITTEN)
      && (|Landed(e.done)| == e.counters.written + Uncounted(e.writer, WRITTEN) <==> !SomeUnlockLost(s, steps))
  {
    hide Run;
    hide Schedule;
    hide Fresh;
    hide Residues;
    hide Concat;
    hide Landed;
    hide Subsequence;
    hide Tally;
    hide NoParts;
    hide LandedIsWritten;
    hide AllResidueOk;
    hide SomePartLeft;
    hide SomeUnlockLost;
    var e := Run(s, steps);
    FreshRun(s, steps);
    WholeRecordsOnly(e.done);
    WrittenAreLanded(e.done);
    LandedInOrder(e.done);
    var residues, landed := Residues(e.done), Concat(Landed(e.done));
    assert e.content == s.content + residues;
    assert s.content + residues == s.content + landed <==> residues == landed by {
      assert (s.content + residues)[|s.content|..] == residues && (s.content + landed)[|s.content|..] == landed;
    }
  }

  /** The one emission and the one write of a sink that meets the answers `f`. */
  function OneRecord(record: Bytes, f: Faults): seq<Step> {
    [Emit(Line(record)), EmitCount, WriterReadsStop, WriterGets, WriterWrites(f), WriterCounts]
  }

  /** The states of a small sink in that schedule. */
  lemma OneRecordStates(record: Bytes, f: Faults)
    requires 0 < |record| <= 2
    ensures var s0, steps := Initial(1, 2, 2, []), OneRecord(record, f);
      CanStep(s0, steps[0]) && var s1 := Next(s0, steps[0]);
      CanStep(s1, steps[1]) && var s2 := Next(s1, steps[1]);
      CanStep(s2, steps[2]) && var s3 := Next(s2, steps[2]);
      CanStep(s3, steps[3]) && var s4 := Next(s3, steps[3]);
      CanStep(s4, steps[4]) && var s5 := Next(s4, steps[4]);
      CanStep(s5, steps[5]) && var s6 := Next(s5, steps[5]);
      && s4.writer == HOLDING(record) && s4.content == [] && s4.maxFileBytes == 2 && !s4.open
      && s6.content == RecordEffect([], record, 2, false, f).0
      && s6.counters.written == if RecordEffect([], record, 2, false, f).1 == WRITTEN then 1 else 0
  {
    hide RecordEffect;
    hide Residue;
  }

  lemma OneStep(s: Sink, steps: seq<Step>, rest: seq<Step>)
    requires steps != [] && rest == steps[1..] && CanStep(s, steps[0]) && Schedule(Next(s, steps[0]), rest)
    ensures Schedule(s, steps) && Run(s, steps) == Run(Next(s, steps[0]), rest)
    ensures SomePartLeft(s, steps) <==> PartNow(s, steps[0]) || SomePartLeft(Next(s, steps[0]), rest)
    ensures SomeUnlockLost(s, steps) <==> UnlockNow(s, steps[0]) || SomeUnlockLost(Next(s, steps[0]), rest)
  {
    hide RecordEffect;
    hide LeavesPart;
    hide LosesUnlock;
  }

  lemma OneRecordRuns(record: Bytes, f: Faults)
    requires 0 < |record| <= 2
    ensures var s, steps := Initial(1, 2, 2, []), OneRecord(record, f);
      && Schedule(s, steps)
      && (SomePartLeft(s, steps) <==> LeavesPart([], record, 2, false, f))
      && (SomeUnlockLost(s, steps) <==> LosesUnlock([], record, 2, false, f))
      && Run(s, steps).content == RecordEffect([], record, 2, false, f).0
      && Run(s, steps).counters.written == if RecordEffect([], record, 2, false, f).1 == WRITTEN then 1 else 0
  {
    hide RecordEffect;
    hide LeavesPart;
    hide LosesUnlock;
    hide Next;
    hide CanStep;
    hide Initial;
    OneRecordStates(record, f);
    var s0, steps := Initial(1, 2, 2, []), OneRecord(record, f);
    var s1 := Next(s0, steps[0]);
    var s2 := Next(s1, steps[1]);
    var s3 := Next(s2, steps[2]);
    var s4 := Next(s3, steps[3]);
    var s5 := Next(s4, steps[4]);
    OneStep(s5, steps[5..], []);
    OneStep(s4, steps[4..], steps[5..]);
    OneStep(s3, steps[3..], steps[4..]);
    OneStep(s2, steps[2..], steps[3..]);
    OneStep(s1, steps[1..], steps[2..]);
    OneStep(s0, steps, steps[1..]);
    var s6 := Next(s5, steps[5]);
    assert Run(s6, []) == s6 && !SomePartLeft(s6, []) && !SomeUnlockLost(s6, []);
  }

  /** A write that takes both bytes at once. */
  function WholeWrite(k: nat): OsWrite { Took(2) }

  /** Neither condition is idle: one schedule leaves a part, and another loses an unlock. */
  lemma BothHappen()
    ensures var s := Initial(1, 2, 2, []);
      var torn := OneRecord([1, 2], Faults(true, true, true, TornWrite, false, true));
      var unlocked := OneRecord([1, 2], Faults(true, true, true, WholeWrite, true, false));
      && Schedule(s, torn) && SomePartLeft(s, torn) && Run(s, torn).content == [1]
      && Schedule(s, unlocked) && SomeUnlockLost(s, unlocked)
      && Run(s, unlocked).content == [1, 2] && Run(s, unlocked).counters.written == 0
  {
    var torn := Faults(true, true, true, TornWrite, false, true);
    var unlocked := Faults(true, true, true, WholeWrite, true, false);
    FailedTruncationLeavesPart();
    OneRecordRuns([1, 2], torn);
    OneRecordRuns([1, 2], unlocked);
    WholeWriteCompletes();
    LoopCompletes([], [1, 2], WholeWrite, 0);
    hide TakesInAll;
    hide Run;
    hide Schedule;
  }

  lemma WholeWriteCompletes()
    ensures AppendAll([], [1, 2], WholeWrite, 0) == ([1, 2], true)
  {
    var data: Bytes := [1, 2];
    ShortWritesComplete([], data, WholeWrite, 0);
    assert [] + data == data;
  }

  /** A file that starts within the limit never exceeds it, whatever fails. */
  lemma FileStaysWithinLimit(s: Sink, steps: seq<Step>)
    requires Fresh(s) && Schedule(s, steps) && |s.content| <= s.maxFileBytes
    ensures |Run(s, steps).content| <= s.maxFileBytes
  {
    InitialInv(s.maxPending, s.maxRecordBytes, s.maxFileBytes, s.content);
    RunKeepsInv(s, steps, s.content);
    LimitsStay(s, steps);
    hide Run;
  }

  lemma {:induction false} LimitsStay(s: Sink, steps: seq<Step>)
    requires Schedule(s, steps)
    ensures Run(s, steps).maxFileBytes == s.maxFileBytes
    decreases |steps|
  {
    hide RecordEffect;
    if steps != [] { LimitsStay(Next(s, steps[0]), steps[1..]); }
  }

  // ----- the writer exits -----

  predicate IsWriterStep(step: Step) {
    step.WriterReadsStop? || step.WriterTestsQueue? || step.WriterGets? || step.WriterTimesOut? ||
      step.WriterWrites? || step.WriterCounts?
  }

  /**
   * A bound on the steps the writer still takes once the stop event is set: five for each record,
   * and a few to leave.
   */
  function Work(s: Sink): nat {
    5 * |s.queue| +
    match s.writer
    case AT_LOOP => 2
    case SAW_STOP => 1
    case AT_GET => if s.queue == [] then 3 else 0
    case HOLDING(_) => 4
    case COUNTING(_) => 3
    case EXITED => 0
  }

  function WriterSteps(steps: seq<Step>): nat {
    if steps == [] then 0 else (if IsWriterStep(steps[0]) then 1 else 0) + WriterSteps(steps[1..])
  }

  lemma WorkShrinks(s: Sink, step: Step)
    requires s.stop && CloseInv(s) && CanStep(s, step)
    ensures Next(s, step).stop
    ensures Work(Next(s, step)) + (if IsWriterStep(step) then 1 else 0) <= Work(s)
  {
    hide RecordEffect;
    hide Residue;
  }

  /** While the writer has not exited it can take a step: once `stop` is set nobody holds the lock across steps. */
  lemma SomeoneMoves(s: Sink, f: Faults)
    requires s.stop && CloseInv(s) && !s.writer.EXITED?
    ensures CanStep(s, WriterReadsStop) || CanStep(s, WriterTestsQueue) || CanStep(s, WriterGets) ||
        CanStep(s, WriterTimesOut)
         || CanStep(s, WriterWrites(f)) || CanStep(s, WriterCounts)
  {
  }

  /**
   * Closing ends: once the stop event is set, the writer takes at most `Work` more steps
   * in any interleaving, whatever fails, and until it exits one of its steps is possible.
   */
  lemma {:induction false} CloseEnds(s: Sink, steps: seq<Step>, f: Faults, start: Bytes)
    requires s.stop && Inv(s, start) && Schedule(s, steps)
    ensures WriterSteps(steps) <= Work(s) - Work(Run(s, steps))
    ensures !Run(s, steps).writer.EXITED? ==> exists step :: IsWriterStep(step) && CanStep(Run(s, steps), step)
    decreases |steps|
  {
    if steps == [] {
      if !s.writer.EXITED? {
        SomeoneMoves(s, f);
        assert IsWriterStep(WriterReadsStop) && IsWriterStep(WriterTestsQueue) && IsWriterStep(WriterGets)
            && IsWriterStep(WriterTimesOut) && IsWriterStep(WriterWrites(f)) && IsWriterStep(WriterCounts);
      }
    } else {
      WorkShrinks(s, steps[0]);
      NextKeepsInv(s, steps[0], start);
      hide CloseInv;
      hide QueueInv;
      hide CountInv;
      hide FileInv;
      hide Work;
      hide CanStep;
      hide Next;
      CloseEnds(Next(s, steps[0]), steps[1..], f, start);
    }
  }
}
