/** What the binding makes of a host record, field by field, and what the host is told of it. */
module BindingAnswers {
  import opened Basics
  import opened Schema
  import opened ScopedIds
  import opened ObservationPath
  import opened Binding
  import opened BindingRuns
  import N = Normalization
  import A = NormalizerAcceptance
  import I = NormalizerInvariant
  import S = NormalizerSources

  // ----- well-formed host records -----

  predicate InRange(a: Attribute, low: int, high: int) { a.Int? && low <= a.n <= high }

  /** A submission has every field, each of its type and within its range. */
  predicate WellFormedSubmission(r: HostRecord) {
    && r.event == Text("transfer_submitted")
    && InRange(r.jobId, 0, UINT64_MAX) && InRange(r.rank, 0, UINT32_MAX)
    && r.requestId.Text? && PrintableAscii(r.requestId.s, 128)
    && (r.operation == Text("h2d_restore") || r.operation == Text("d2h_preserve"))
    && InRange(r.blockCount, 1, UINT32_MAX) && InRange(r.observedAtNs, 0, UINT64_MAX)
  }

  predicate WellFormedCompletion(r: HostRecord) {
    && r.event == Text("transfer_completed") && r.success.Bool? && InRange(r.observedAtNs, 0, UINT64_MAX)
    && (r.bytesMoved.Null? || InRange(r.bytesMoved, 1, UINT64_MAX))
    && !r.durationNs.Missing? && (r.durationNs.Int? ==> r.durationNs.n <= UINT64_MAX)
  }

  predicate WellFormedCancellation(r: HostRecord) {
    && r.event == Text("transfer_cancelled") && r.reason == Text("host_shutdown")
    && InRange(r.observedAtNs, 0, UINT64_MAX)
  }

  /** The words of the host for an operation. */
  function Word(operation: N.TransferOperation): string {
    match operation
    case H2D_RESTORE => "h2d_restore"
    case D2H_PRESERVE => "d2h_preserve"
  }

  predicate SameTransfer(e: Entry, r: HostRecord) {
    && r.requestId == Text(e.identity.requestId) && r.rank == Int(e.identity.rank)
    && r.operation == Text(Word(e.operation))
  }

  // ----- what is forwarded -----

  lemma WordsDiffer()
    ensures "h2d_restore" != "d2h_preserve" && "transfer_completed" != "transfer_cancelled"
    ensures "transfer_submitted" != "transfer_completed" && "transfer_submitted" != "transfer_cancelled"
  {
    assert "h2d_restore"[0] != "d2h_preserve"[0];
    assert "transfer_completed"[10] != "transfer_cancelled"[10];
    assert |"transfer_completed"| == |"transfer_submitted"|;
    assert "transfer_completed"[9] != "transfer_submitted"[9];
    assert "transfer_cancelled"[9] != "transfer_submitted"[9];
  }

  lemma OperationWord(r: HostRecord, operation: N.TransferOperation)
    ensures Operation(r) == Some(operation) <==> r.operation == Text(Word(operation))
  {
    WordsDiffer();
  }

  /**
   * A submission is forwarded exactly when it is well-formed, its job is new to the
   * binding, and there is room; and the source carries the operation, request, rank,
   * block count and time that the host gave.
   */
  lemma SubmissionTranslated(b: Bound, r: HostRecord)
    ensures Forwarded(b, r).Some? <==>
      WellFormedSubmission(r) && b.registered && r.jobId.n !in b.pending && |b.pending| < 4096
    ensures Forwarded(b, r).Some? ==> var src := Forwarded(b, r).value;
      && src.identity == ObservationIdentity(r.requestId.s, WorkerGeneration(b.uuid), r.rank.n, None)
      && src.transfer.value == Print(b.uuid, 't', r.jobId.n)
      && r.operation == Text(Word(src.operation))
      && src.blockCount == r.blockCount.n && src.observedAtNs == r.observedAtNs.n
  {
    hide WorkerGeneration;
    OperationWord(r, N.H2D_RESTORE);
    OperationWord(r, N.D2H_PRESERVE);
  }

  /**
   * A terminal record is forwarded exactly when its job is in the table under the same
   * request, rank and operation and it is well-formed; and the source carries the host's
   * time, success, bytes and positive device duration, with the job's receipt exactly on a
   * successful restore.
   */
  lemma TerminalTranslated(b: Bound, r: HostRecord)
    ensures Terminated(b, r).Some? <==>
      && b.registered && r.jobId.Int? && r.jobId.n in b.pending && SameTransfer(b.pending[r.jobId.n], r)
      && (WellFormedCompletion(r) || WellFormedCancellation(r))
    ensures Terminated(b, r).Some? ==> var src, e := Terminated(b, r).value, b.pending[r.jobId.n];
      && src.transfer == e.transfer && src.observedAtNs == r.observedAtNs.n
      && (src.CoreTransferCompleted? <==> WellFormedCompletion(r))
      && (src.CoreTransferCancelled? ==> src.reason == HOST_SHUTDOWN)
      && (src.CoreTransferCompleted? ==>
            && r.success == Bool(src.success)
            && r.bytesMoved == (if src.bytesMoved.Some? then Int(src.bytesMoved.value) else Null)
            && (forall d :: src.deviceDurationNs == Some(d) <==> r.durationNs == Int(d) && d > 0)
            && (src.receipt.Some? <==> src.success && r.operation == Text("h2d_restore"))
            && (src.receipt.Some? ==> src.receipt.value.value == Print(b.uuid, 'k', r.jobId.n)))
  {
    hide WorkerGeneration;
    WordsDiffer();
    if r.jobId.Int? && r.jobId.n in b.pending { OperationWord(r, b.pending[r.jobId.n].operation); }
  }

  // ----- what the sink is offered, and what the host is told -----

  function SourceFor(b: Bound, r: HostRecord): Option<N.Source> {
    if Forwarded(b, r).Some? then Forwarded(b, r) else Terminated(b, r)
  }

  /** The record that a host event brings before the sink, if it brings one. */
  function Offered(b: Bound, r: HostRecord): Option<KVTransferObservation> {
    if SourceFor(b, r).Some? && Reaches(b.path) then N.Step(b.path.norm, SourceFor(b, r).value).1 else None
  }

  /** The host is told that its event was accepted exactly when the sink took a record of it. */
  lemma ToldExactly(b: Bound, r: HostRecord, answer: SinkAnswer)
    ensures ObserveHost(b, r, answer).1 <==> Offered(b, r).Some? && answer.ACCEPTED?
  {
    hide N.Step;
    hide Observe;
    hide Forwarded;
    hide Terminated;
    if SourceFor(b, r).Some? { PathEffect(b.path, SourceFor(b, r).value, answer); }
  }

  /** The start record of a submission, in the words of the host record. */
  predicate StartOf(uuid: ProcessUuid, r: HostRecord, o: KVTransferObservation)
    requires WellFormedSubmission(r)
  {
    var restore := r.operation == Text("h2d_restore");
    && o.event == (if restore then RESTORE_STARTED else PRESERVE_STARTED)
    && o.direction == Some(if restore then H2D else D2H)
    && o.identity == ObservationIdentity(r.requestId.s, WorkerGeneration(uuid), r.rank.n, None)
    && o.transfer == Some(TransferFor(uuid, r.jobId.n))
    && o.blockCount == Some(r.blockCount.n) && o.observedAtNs == r.observedAtNs.n
  }

  lemma EntryHeld(b: Bound, j: uint64)
    requires Inv(b) && j in b.pending && !b.path.norm.closed
    ensures var t, e := TransferFor(b.uuid, j), b.pending[j];
      && e.transfer == t && t in b.path.norm.pending
      && b.path.norm.pending[t].identity == e.identity && b.path.norm.pending[t].operation == e.operation
  {
    hide TransferFor;
    assert Matched(b.uuid, j, b.pending[j], b.path.norm);
  }

  lemma TableHasRoom(b: Bound, j: uint64)
    requires Inv(b) && Takes(b.path.norm, TransferFor(b.uuid, j))
    ensures j !in b.pending && |b.pending| < 4096
  {
    hide TransferFor;
    IncludedImage(b);
    if j in b.pending { EntryHeld(b, j); }
  }

  lemma TransferValue(uuid: ProcessUuid, t: TransferIdentity, j: nat)
    requires IsUint64(j) && t.value == Print(uuid, 't', j)
    ensures t == TransferFor(uuid, j)
  {
  }

  lemma OperationIs(operation: N.TransferOperation, r: HostRecord)
    requires r.operation == Text(Word(operation))
    ensures r.operation == Text("h2d_restore") <==> operation.H2D_RESTORE?
    ensures r.operation == Text("d2h_preserve") <==> operation.D2H_PRESERVE?
  {
    WordsDiffer();
  }

  /**
   * A submission comes before the sink exactly when it is well-formed, the binding is
   * registered with an active adapter, and the normalizer has valid evidence, a free name
   * and room; and its record says what the host said.
   */
  lemma SubmissionOffered(b: Bound, r: HostRecord)
    requires Inv(b) && IsSubmission(r)
    ensures Offered(b, r).Some? <==>
      WellFormedSubmission(r) && b.registered && Reaches(b.path) && Takes(b.path.norm, TransferFor(b.uuid, r.jobId.n))
    ensures Offered(b, r).Some? ==> StartOf(b.uuid, r, Offered(b, r).value)
  {
    SubmissionTranslated(b, r);
    WordsDiffer();
    hide TransferFor;
    hide WorkerGeneration;
    hide Forwarded;
    hide N.Step;
    hide Inv;
    hide PrintableAscii;
    if WellFormedSubmission(r) && Takes(b.path.norm, TransferFor(b.uuid, r.jobId.n)) { TableHasRoom(b, r.jobId.n); }
    if Forwarded(b, r).Some? { ForwardedStarts(b, r); }
  }

  lemma ForwardedStarts(b: Bound, r: HostRecord)
    requires Inv(b) && Forwarded(b, r).Some?
    ensures WellFormedSubmission(r)
    ensures var out := N.Step(b.path.norm, Forwarded(b, r).value).1;
      && (out.Some? <==> Takes(b.path.norm, TransferFor(b.uuid, r.jobId.n)))
      && (out.Some? ==> StartOf(b.uuid, r, out.value))
  {
    SubmissionTranslated(b, r);
    var src := Forwarded(b, r).value;
    hide Forwarded;
    hide SubmissionOf;
    TransferValue(b.uuid, src.transfer, r.jobId.n);
    OperationIs(src.operation, r);
    SubmissionTaken(b.path.norm, src);
    S.AcceptedExactly(b.path.norm, src);
    hide TransferFor;
    hide WorkerGeneration;
    hide N.Step;
    hide PrintableAscii;
    hide I.Inv;
    hide Included;
  }

  /** The time and the bytes of a completion fit the transfer it ends, and a receipt to be kept finds room. */
  predicate Fits(norm: N.State, p: N.Pending, r: HostRecord)
    requires WellFormedCompletion(r)
  {
    var done := r.success == Bool(true);
    && (done <==> r.bytesMoved.Int?)
    && (if done || p.operation.D2H_PRESERVE? then p.observedAtNs < r.observedAtNs.n
        else p.observedAtNs <= r.observedAtNs.n)
    && (done && p.operation.H2D_RESTORE? && norm.config.retain ==> |norm.completed| < norm.config.maxTransfers)
  }

  /** The record of a completion, in the words of the host record and of its submission. */
  ghost predicate EndOf(uuid: ProcessUuid, p: N.Pending, r: HostRecord, o: KVTransferObservation)
    requires WellFormedCompletion(r) && InRange(r.jobId, 0, UINT64_MAX)
  {
    var restore := p.operation.H2D_RESTORE?;
    && o.direction == Some(if restore then H2D else D2H) && o.identity == p.identity
    && o.transfer == Some(TransferFor(uuid, r.jobId.n)) && o.observedAtNs == r.observedAtNs.n
    && if r.success == Bool(false) then o.event == TRANSFER_FAILED && o.terminalReason == Some(BACKEND_FAILURE)
       else
         && o.event == (if restore then RESTORE_COMPLETED else PRESERVE_COMPLETED)
         && o.receipt == (if restore then Some(ReceiptFor(uuid, r.jobId.n)) else None)
         && r.bytesMoved.Int? && o.bytesMoved == Some(r.bytesMoved.n)
         && (forall d :: o.deviceDurationNs == Some(d) <==> r.durationNs == Int(d) && d > 0)
         && o.blockCount == Some(p.blockCount) && o.durationNs == Some(r.observedAtNs.n - p.observedAtNs)
  }

  lemma ReceiptValue(uuid: ProcessUuid, k: ReceiptIdentity, j: nat)
    requires IsUint64(j) && k.value == Print(uuid, 'k', j)
    ensures k == ReceiptFor(uuid, j)
  {
  }

  /** The source is the completion `r` of transfer `t`, of operation `operation`. */
  ghost predicate Mirrors(uuid: ProcessUuid, operation: N.TransferOperation, r: HostRecord, src: N.Source)
    requires WellFormedCompletion(r) && InRange(r.jobId, 0, UINT64_MAX)
  {
    && src.CoreTransferCompleted? && src.transfer == TransferFor(uuid, r.jobId.n)
    && src.observedAtNs == r.observedAtNs.n && r.success == Bool(src.success)
    && r.bytesMoved == (if src.bytesMoved.Some? then Int(src.bytesMoved.value) else Null)
    && (forall d :: src.deviceDurationNs == Some(d) <==> r.durationNs == Int(d) && d > 0)
    && src.receipt == if src.success && operation.H2D_RESTORE? then Some(ReceiptFor(uuid, r.jobId.n)) else None
  }

  lemma TerminalMirrors(b: Bound, r: HostRecord)
    requires Terminated(b, r).Some? && WellFormedCompletion(r)
    requires b.pending[r.jobId.n].transfer == TransferFor(b.uuid, r.jobId.n)
    ensures Mirrors(b.uuid, b.pending[r.jobId.n].operation, r, Terminated(b, r).value)
  {
    TerminalTranslated(b, r);
    var src, e := Terminated(b, r).value, b.pending[r.jobId.n];
    hide Terminated;
    OperationIs(e.operation, r);
    if src.receipt.Some? { ReceiptValue(b.uuid, src.receipt.value, r.jobId.n); }
    hide TransferFor;
    hide ReceiptFor;
  }

  lemma FitsExactly(norm: N.State, uuid: ProcessUuid, r: HostRecord, src: N.Source)
    requires WellFormedCompletion(r) && InRange(r.jobId, 0, UINT64_MAX)
    requires src.CoreTransferCompleted? && src.transfer in norm.pending
    requires Mirrors(uuid, norm.pending[src.transfer].operation, r, src)
    ensures S.Accepts(norm, src) <==> Fits(norm, norm.pending[src.transfer], r)
  {
    SameProcess(uuid, r.jobId.n);
    hide TransferFor;
    hide ReceiptFor;
    hide TransferIdentity.ProcessUuid;
    hide ReceiptIdentity.ProcessUuid;
  }

  lemma CarriesEnd(norm: N.State, uuid: ProcessUuid, r: HostRecord, src: N.Source, o: KVTransferObservation)
    requires WellFormedCompletion(r) && InRange(r.jobId, 0, UINT64_MAX)
    requires S.Accepts(norm, src) && S.Carries(norm, src, o) && src.CoreTransferCompleted?
    requires Mirrors(uuid, norm.pending[src.transfer].operation, r, src)
    ensures EndOf(uuid, norm.pending[src.transfer], r, o)
  {
    hide TransferFor;
    hide ReceiptFor;
    hide TransferIdentity.ProcessUuid;
    hide ReceiptIdentity.ProcessUuid;
  }

  /** What the normalizer says of a completion that the binding forwards. */
  lemma ForwardedEnds(b: Bound, r: HostRecord)
    requires Inv(b) && !b.path.norm.closed && Terminated(b, r).Some? && WellFormedCompletion(r)
    ensures var t := TransferFor(b.uuid, r.jobId.n);
      && t in b.path.norm.pending
      && var p, out := b.path.norm.pending[t], N.Step(b.path.norm, Terminated(b, r).value).1;
      && (out.Some? <==> A.Live(b.path.norm) && Fits(b.path.norm, p, r))
      && (out.Some? ==> EndOf(b.uuid, p, r, out.value))
  {
    EntryHeld(b, r.jobId.n);
    TerminalMirrors(b, r);
    var src, norm := Terminated(b, r).value, b.path.norm;
    FitsExactly(norm, b.uuid, r, src);
    S.AcceptedExactly(norm, src);
    hide Terminated;
    hide TransferFor;
    hide N.Step;
    hide Inv;
    hide S.Accepts;
    hide S.Carries;
    hide Fits;
    hide EndOf;
    if N.Step(norm, src).1.Some? { CarriesEnd(norm, b.uuid, r, src, N.Step(norm, src).1.value); }
  }

  /**
   * A completion comes before the sink exactly when it is well-formed, names a transfer of
   * the table as it was submitted, and fits it, and the adapter is active with valid
   * evidence; and its record says what the host said, with the job's own receipt on a
   * successful restore.
   */
  lemma CompletionOffered(b: Bound, r: HostRecord)
    requires Inv(b) && !b.path.norm.closed && r.event == Text("transfer_completed")
    ensures Offered(b, r).Some? <==>
      && b.registered && Reaches(b.path) && A.Live(b.path.norm) && WellFormedCompletion(r)
      && r.jobId.Int? && r.jobId.n in b.pending && SameTransfer(b.pending[r.jobId.n], r)
      && TransferFor(b.uuid, r.jobId.n) in b.path.norm.pending
      && Fits(b.path.norm, b.path.norm.pending[TransferFor(b.uuid, r.jobId.n)], r)
    ensures Offered(b, r).Some? ==>
      EndOf(b.uuid, b.path.norm.pending[TransferFor(b.uuid, r.jobId.n)], r, Offered(b, r).value)
  {
    WordsDiffer();
    SubmissionTranslated(b, r);
    TerminalTranslated(b, r);
    hide Forwarded;
    hide Terminated;
    hide TransferFor;
    hide N.Step;
    hide Inv;
    hide Fits;
    hide EndOf;
    if Terminated(b, r).Some? { ForwardedEnds(b, r); }
  }

  predicate CancelOf(e: Entry, r: HostRecord, o: KVTransferObservation)
    requires WellFormedCancellation(r)
  {
    && o.event == TRANSFER_CANCELLED && o.terminalReason == Some(HOST_SHUTDOWN) && o.identity == e.identity
    && o.transfer == Some(e.transfer) && o.direction == Some(if e.operation.H2D_RESTORE? then H2D else D2H)
    && o.observedAtNs == r.observedAtNs.n
  }

  lemma ForwardedCancels(b: Bound, r: HostRecord)
    requires Inv(b) && !b.path.norm.closed && Terminated(b, r).Some? && WellFormedCancellation(r)
    ensures var t := TransferFor(b.uuid, r.jobId.n);
      && t in b.path.norm.pending
      && var p, out := b.path.norm.pending[t], N.Step(b.path.norm, Terminated(b, r).value).1;
      && (out.Some? <==> A.Live(b.path.norm) && p.observedAtNs <= r.observedAtNs.n)
      && (out.Some? ==> CancelOf(b.pending[r.jobId.n], r, out.value))
  {
    hide Terminated;
    hide TransferFor;
    hide N.Step;
    hide I.Inv;
    hide Included;
    WordsDiffer();
    EntryHeld(b, r.jobId.n);
    TerminalTranslated(b, r);
    S.AcceptedExactly(b.path.norm, Terminated(b, r).value);
  }

  /** A cancellation comes before the sink under the same conditions, with no measurement to fit. */
  lemma CancellationOffered(b: Bound, r: HostRecord)
    requires Inv(b) && !b.path.norm.closed && r.event == Text("transfer_cancelled")
    ensures Offered(b, r).Some? <==>
      && b.registered && Reaches(b.path) && A.Live(b.path.norm) && WellFormedCancellation(r)
      && r.jobId.Int? && r.jobId.n in b.pending && SameTransfer(b.pending[r.jobId.n], r)
      && TransferFor(b.uuid, r.jobId.n) in b.path.norm.pending
      && b.path.norm.pending[TransferFor(b.uuid, r.jobId.n)].observedAtNs <= r.observedAtNs.n
    ensures Offered(b, r).Some? ==> CancelOf(b.pending[r.jobId.n], r, Offered(b, r).value)
  {
    hide Forwarded;
    hide Terminated;
    hide TransferFor;
    hide N.Step;
    hide Inv;
    WordsDiffer();
    SubmissionTranslated(b, r);
    TerminalTranslated(b, r);
    if Terminated(b, r).Some? { ForwardedCancels(b, r); }
  }

  // ----- a transfer from its submission to its end -----

  function EntryOf(uuid: ProcessUuid, r: HostRecord): Entry
    requires WellFormedSubmission(r)
  {
    Entry(ObservationIdentity(r.requestId.s, WorkerGeneration(uuid), r.rank.n, None), TransferFor(uuid, r.jobId.n),
          if r.operation == Text("h2d_restore") then N.H2D_RESTORE else N.D2H_PRESERVE)
  }

  function PendingOf(uuid: ProcessUuid, r: HostRecord): N.Pending
    requires WellFormedSubmission(r)
  {
    var e := EntryOf(uuid, r);
    N.Pending(e.identity, e.operation, r.blockCount.n, r.observedAtNs.n)
  }

  lemma SubmittedStep(norm: N.State, src: N.Source)
    requires src.Valid() && src.CoreTransferSubmitted? && Takes(norm, src.transfer)
    ensures N.Step(norm, src).0 == norm.(
        pending := norm.pending[src.transfer :=
          N.Pending(src.identity, src.operation, src.blockCount, src.observedAtNs)],
        counters := norm.counters.(accepted := norm.counters.accepted + 1))
  {
    I.StartedRecordValid(src.transfer, N.Pending(src.identity, src.operation, src.blockCount, src.observedAtNs));
    hide KVTransferObservation.Valid;
  }

  /** An accepted submission leaves in both tables the transfer that the host described, and moves nothing else. */
  lemma SubmissionRecorded(b: Bound, r: HostRecord)
    requires Inv(b) && IsSubmission(r) && Offered(b, r).Some?
    ensures WellFormedSubmission(r)
    ensures var (b', told) := ObserveHost(b, r, ACCEPTED);
      && told && Inv(b') && b'.uuid == b.uuid && b'.registered && Reaches(b'.path)
      && b'.pending == b.pending[r.jobId.n := EntryOf(b.uuid, r)]
      && b'.path.norm == b.path.norm.(
           pending := b.path.norm.pending[TransferFor(b.uuid, r.jobId.n) := PendingOf(b.uuid, r)],
           counters := b.path.norm.counters.(accepted := b.path.norm.counters.accepted + 1))
  {
    hide TransferFor;
    hide WorkerGeneration;
    hide Forwarded;
    hide N.Step;
    hide Inv;
    hide Observe;
    SubmissionOffered(b, r);
    SubmissionTranslated(b, r);
    TableHasRoom(b, r.jobId.n);
    ToldExactly(b, r, ACCEPTED);
    SurplusGrowsExactly(b, r, ACCEPTED);
    var src := Forwarded(b, r).value;
    TransferValue(b.uuid, src.transfer, r.jobId.n);
    OperationIs(src.operation, r);
    PathEffect(b.path, src, ACCEPTED);
    SubmittedStep(b.path.norm, src);
  }

  /** An accepted completion removes its transfer from both tables. */
  lemma CompletionRecorded(b: Bound, r: HostRecord)
    requires Inv(b) && !b.path.norm.closed && r.event == Text("transfer_completed") && Offered(b, r).Some?
    ensures r.jobId.Int? && IsUint64(r.jobId.n)
    ensures var (b', told) := ObserveHost(b, r, ACCEPTED);
      && told && b'.pending == b.pending - {r.jobId.n}
      && b'.path.norm.pending == b.path.norm.pending - {TransferFor(b.uuid, r.jobId.n)}
  {
    hide TransferFor;
    hide Forwarded;
    hide Terminated;
    hide N.Step;
    hide I.Inv;
    hide Observe;
    WordsDiffer();
    SubmissionTranslated(b, r);
    TerminalTranslated(b, r);
    EntryHeld(b, r.jobId.n);
    ToldExactly(b, r, ACCEPTED);
    PathEffect(b.path, Terminated(b, r).value, ACCEPTED);
    TerminalEffect(b.path.norm, Terminated(b, r).value);
  }

  /** `r` is the successful completion of what `s` submitted. */
  predicate Completes(s: HostRecord, r: HostRecord) {
    && WellFormedSubmission(s) && WellFormedCompletion(r)
    && r.jobId == s.jobId && r.requestId == s.requestId && r.rank == s.rank && r.operation == s.operation
    && r.success == Bool(true) && r.bytesMoved.Int? && s.observedAtNs.n < r.observedAtNs.n
  }

  lemma RemoveNew<K, V>(m: map<K, V>, k: K, v: V)
    requires k !in m
    ensures m[k := v] - {k} == m
  {
  }

  /**
   * From submission to completion. Whenever a submission comes before a sink that takes it,
   * its successful completion does too, as long as a receipt to be kept finds room; the
   * records are those of the operation that the host named, the host is told of both, and
   * both tables are then what they were.
   */
  lemma SubmitThenComplete(b: Bound, s: HostRecord, r: HostRecord)
    requires Inv(b) && IsSubmission(s) && Offered(b, s).Some? && Completes(s, r)
    requires var norm := b.path.norm;
      s.operation == Text("h2d_restore") && norm.config.retain ==> |norm.completed| < norm.config.maxTransfers
    ensures StartOf(b.uuid, s, Offered(b, s).value)
    ensures var (b1, told1) := ObserveHost(b, s, ACCEPTED);
      && told1 && Offered(b1, r).Some? && EndOf(b.uuid, PendingOf(b.uuid, s), r, Offered(b1, r).value)
      && var (b2, told2) := ObserveHost(b1, r, ACCEPTED);
      && told2 && b2.pending == b.pending && b2.path.norm.pending == b.path.norm.pending
  {
    hide TransferFor;
    hide ReceiptFor;
    hide WorkerGeneration;
    hide ObserveHost;
    hide Offered;
    hide EndOf;
    hide Inv;
    hide PrintableAscii;
    SubmissionOffered(b, s);
    SubmissionRecorded(b, s);
    TableHasRoom(b, s.jobId.n);
    var b1 := ObserveHost(b, s, ACCEPTED).0;
    CompletionOffered(b1, r);
    CompletionRecorded(b1, r);
    RemoveNew(b.pending, s.jobId.n, EntryOf(b.uuid, s));
    RemoveNew(b.path.norm.pending, TransferFor(b.uuid, s.jobId.n), PendingOf(b.uuid, s));
  }

  /** A restore of two blocks by rank 1, and its end with 4096 bytes ten nanoseconds later. */
  const RESTORE := HostRecord(Text("transfer_submitted"), Int(7), Text("request-7"), Int(1), Text("h2d_restore"),
                              Int(2),
                              Int(10), Null, Null, Null, Null)

  const RESTORED := RESTORE.(event := Text("transfer_completed"), observedAtNs := Int(20), success := Bool(true),
                             bytesMoved := Int(4096), durationNs := Int(4))

  lemma RestoreOffered(uuid: ProcessUuid, config: N.Config)
    requires config.Valid()
    ensures Inv(Ready(uuid, config)) && Offered(Ready(uuid, config), RESTORE).Some?
  {
    hide TransferFor;
    hide WorkerGeneration;
    hide Offered;
    hide Ready;
    hide Inv;
    ReadyIs(uuid, config);
    ReadyInv(uuid, config);
    assert PrintableAscii("request-7", 128);
    SubmissionOffered(Ready(uuid, config), RESTORE);
  }

  /** A fresh adapter takes such a restore from its submission to its receipt. */
  lemma RestoreObserved(uuid: ProcessUuid, config: N.Config)
    requires config.Valid()
    ensures var (b, started) := ObserveHost(Ready(uuid, config), RESTORE, ACCEPTED);
      && started && b.pending.Keys == {7} && b.path.norm.pending.Keys == {TransferFor(uuid, 7)}
      && Offered(b, RESTORED).Some?
      && var o := Offered(b, RESTORED).value;
      && o.event == RESTORE_COMPLETED && o.receipt == Some(ReceiptFor(uuid, 7)) && o.bytesMoved == Some(4096)
      && ObserveHost(b, RESTORED, ACCEPTED).1
  {
    hide TransferFor;
    hide ReceiptFor;
    hide WorkerGeneration;
    hide ObserveHost;
    hide Offered;
    hide Ready;
    hide Inv;
    hide PrintableAscii;
    RestoreOffered(uuid, config);
    ReadyIs(uuid, config);
    var b := Ready(uuid, config);
    SubmissionRecorded(b, RESTORE);
    SubmitThenComplete(b, RESTORE, RESTORED);
  }

  // ----- what the adapter counts -----

  /** What becomes of a host event; an `UNSEEN` event never reaches the adapter. */
  datatype Fate = UNSEEN | INACTIVE | NOT_NORMALIZED | NOT_TAKEN | FAILED | EMITTED

  function FateOf(b: Bound, r: HostRecord, answer: SinkAnswer): Fate {
    if SourceFor(b, r).None? then UNSEEN
    else if !b.path.active then INACTIVE
    else if b.path.ready && Offered(b, r).None? then NOT_NORMALIZED
    else if !b.path.ready || answer.RAISED? then FAILED
    else if answer.ACCEPTED? then EMITTED
    else NOT_TAKEN
  }

  /** How many host events of a run meet fate `f`. */
  function Fates(b: Bound, events: seq<Event>, f: Fate): nat {
    if events == [] then 0
    else
      var n, e := |events| - 1, events[|events| - 1];
      Fates(b, events[..n], f) + if e.Host? && FateOf(Run(b, events[..n]), e.record, e.answer) == f then 1 else 0
  }

  /** How many host events of a run the host is told were accepted. */
  function Told(b: Bound, events: seq<Event>): nat {
    if events == [] then 0
    else
      var n, e := |events| - 1, events[|events| - 1];
      Told(b, events[..n]) + if e.Host? && ObserveHost(Run(b, events[..n]), e.record, e.answer).1 then 1 else 0
  }

  function One(c: bool): nat { if c then 1 else 0 }

  lemma PathCounted(p: Path, src: N.Source, answer: SinkAnswer)
    ensures var (q, accepted) := Observe(p, src, answer);
      var c, c', out := p.counters, q.counters, if Reaches(p) then N.Step(p.norm, src).1 else None;
      && c'.emitted == c.emitted + One(accepted)
      && c'.normalizationDropped == c.normalizationDropped + One(Reaches(p) && out.None?)
      && c'.sinkDropped == c.sinkDropped + One(out.Some? && answer.REFUSED?)
      && c'.callbackErrors == c.callbackErrors
            + One(p.active && (!p.ready || (out.Some? && answer.RAISED?)))
      && c'.inactiveDropped == c.inactiveDropped + One(!p.active)
  {
    hide N.Step;
  }

  lemma FateCounted(b: Bound, r: HostRecord, answer: SinkAnswer)
    ensures var c, c', f := b.path.counters, ObserveHost(b, r, answer).0.path.counters, FateOf(b, r, answer);
      && c'.emitted == c.emitted + One(ObserveHost(b, r, answer).1)
      && c'.normalizationDropped == c.normalizationDropped + One(f.NOT_NORMALIZED?)
      && c'.sinkDropped == c.sinkDropped + One(f.NOT_TAKEN?)
      && c'.callbackErrors == c.callbackErrors + One(f.FAILED?)
      && c'.inactiveDropped == c.inactiveDropped + One(f.INACTIVE?)
  {
    hide N.Step;
    hide Observe;
    hide Forwarded;
    hide Terminated;
    if SourceFor(b, r).Some? { PathCounted(b.path, SourceFor(b, r).value, answer); }
  }

  /**
   * In every run, the adapter's counters tell the fates of the host's events apart: as many
   * are emitted as the host was told were accepted, and each other counter grows with its
   * own fate alone.
   */
  lemma {:induction false} CountersTellFates(b: Bound, events: seq<Event>)
    ensures var c, c' := b.path.counters, Run(b, events).path.counters;
      && c'.emitted == c.emitted + Told(b, events)
      && c'.normalizationDropped == c.normalizationDropped + Fates(b, events, NOT_NORMALIZED)
      && c'.sinkDropped == c.sinkDropped + Fates(b, events, NOT_TAKEN)
      && c'.callbackErrors == c.callbackErrors + Fates(b, events, FAILED)
      && c'.inactiveDropped == c.inactiveDropped + Fates(b, events, INACTIVE)
  {
    hide ObserveHost;
    hide FateOf;
    if events != [] {
      var n := |events| - 1;
      CountersTellFates(b, events[..n]);
      if events[n].Host? { FateCounted(Run(b, events[..n]), events[n].record, events[n].answer); }
    }
  }
}
