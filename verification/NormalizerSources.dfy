/**
 * Which sources the normalizer accepts, and what the record it returns for one carries:
 * for every valid source, without naming the handlers.
 */
module NormalizerSources {
  import opened Basics
  import opened Schema
  import opened Normalization
  import opened NormalizerAcceptance
  import opened NormalizerInvariant

  /** The receipt that a completion of this transfer must bring, or must not. */
  predicate ReceiptFits(p: Pending, src: Source)
    requires src.CoreTransferCompleted?
  {
    if src.success && p.operation.H2D_RESTORE?
    then src.receipt.Some? && src.receipt.value.ProcessUuid() == src.transfer.ProcessUuid()
    else src.receipt.None?
  }

  /** The measurements of a completion fit its outcome, and its time the start of the transfer. */
  predicate MeasuresFit(p: Pending, src: Source)
    requires src.CoreTransferCompleted?
  {
    && src.bytesMoved.Some? == src.success
    && (if src.success || p.operation.D2H_PRESERVE? then p.observedAtNs < src.observedAtNs
        else p.observedAtNs <= src.observedAtNs)
  }

  /** The receipt table has room for a restore, if receipts are retained. */
  predicate ReceiptRoom(s: State, p: Pending, src: Source)
    requires src.CoreTransferCompleted?
  {
    src.success && p.operation.H2D_RESTORE? && s.config.retain ==> |s.completed| < s.config.maxTransfers
  }

  /** What a live normalizer asks of a valid source. */
  predicate Accepts(s: State, src: Source) {
    match src
    case CoreTransferSubmitted(_, t, _, _, _) =>
      t !in s.pending && t !in s.completed && |s.pending| < s.config.maxTransfers
    case CoreTransferCompleted(t, _, _, _, _, _) =>
      t in s.pending && MeasuresFit(s.pending[t], src) && ReceiptFits(s.pending[t], src) &&
        ReceiptRoom(s, s.pending[t], src)
    case CoreTransferCancelled(t, at, _) =>
      t in s.pending && s.pending[t].observedAtNs <= at
    case CoreRecoveryRequeued(id, _, _) =>
      id.recoveryEpoch.Some?
    case CoreRecoveryAdmitted(id, ts, at) =>
      && id.recoveryEpoch.Some? && id !in s.admissions && |s.admissions| < s.config.maxAdmissions
      && forall t :: t in ts ==> t in s.completed && s.completed[t].identity == id && s.completed[t].observedAtNs <= at
    case FirstComputeObserved(_, id, receipt, ts, _, at) =>
      && id in s.admissions && s.admissions[id].transfers == ts && s.admissions[id].observedAtNs <= at
      && forall t :: t in ts ==> t.ProcessUuid() == receipt.ProcessUuid()
    case Unsupported => false
  }

  /** The transfer part of a record: what the pending entry and the source say of it. */
  predicate CarriesTransfer(o: KVTransferObservation, t: TransferIdentity, p: Pending, at: int) {
    && o.identity == p.identity && o.observedAtNs == at
    && o.transfer == Some(t) && o.direction == Some(p.operation.Direction())
  }

  /** The record carries the source's own data, together with what the tables know of its transfer. */
  predicate Carries(s: State, src: Source, o: KVTransferObservation)
    requires Accepts(s, src)
  {
    match src
    case CoreTransferSubmitted(id, t, operation, blocks, at) =>
      && o.event == (if operation.H2D_RESTORE? then RESTORE_STARTED else PRESERVE_STARTED)
      && CarriesTransfer(o, t, Pending(id, operation, blocks, at), at) && o.blockCount == Some(blocks)
    case CoreTransferCompleted(t, at, success, bytes, device, receipt) =>
      var p := s.pending[t];
      && CarriesTransfer(o, t, p, at)
      && (if !success then o.event == TRANSFER_FAILED && o.terminalReason == Some(BACKEND_FAILURE)
          else
            && o.event == (if p.operation.H2D_RESTORE? then RESTORE_COMPLETED else PRESERVE_COMPLETED)
            && o.receipt == receipt && o.bytesMoved == bytes && o.deviceDurationNs == device
            && o.blockCount == Some(p.blockCount) && o.durationNs == Some(at - p.observedAtNs))
    case CoreTransferCancelled(t, at, reason) =>
      CarriesTransfer(o, t, s.pending[t], at) && o.event == TRANSFER_CANCELLED && o.terminalReason == Some(reason)
    case CoreRecoveryRequeued(id, reason, at) =>
      o.event == RECOVERY_REQUEUED && o.identity == id && o.requeueReason == Some(reason) && o.observedAtNs == at
    case CoreRecoveryAdmitted(id, ts, at) =>
      o.event == RECOVERY_ADMITTED && o.identity == id && o.associatedTransfers == ts && o.observedAtNs == at
    case FirstComputeObserved(_, id, receipt, ts, kind, at) =>
      && o.event == FIRST_COMPUTE && o.identity == id && o.associatedTransfers == ts && o.observedAtNs == at
      && o.receipt == Some(receipt) && o.computeKind == Some(kind)
  }

  /** A handler's attempt is a record exactly when the source is accepted, and carries what it should. */
  predicate Answers(s: State, src: Source, attempt: Attempt) {
    (attempt.Emitted? <==> Accepts(s, src)) && (attempt.Emitted? ==> Carries(s, src, attempt.record))
  }

  lemma RestoredRecordValid(t: TransferIdentity, p: Pending, at: int, receipt: ReceiptIdentity, bytes: int,
                            device: Option<int>)
    requires PendingOk(p) && p.observedAtNs <= at <= UINT64_MAX && 0 < bytes <= UINT64_MAX
    requires device.Some? ==> 0 < device.value <= UINT64_MAX
    ensures RestoredRecord(t, p, at, receipt, bytes, device).Valid() <==> receipt.ProcessUuid() == t.ProcessUuid()
  {
    hide TransferIdentity.ProcessUuid;
    hide ReceiptIdentity.ProcessUuid;
  }

  lemma RequeuedRecordValid(id: ObservationIdentity, reason: RecoveryRequeueReason, at: int)
    requires IsUint64(at)
    ensures RequeuedRecord(id, reason, at).Valid() <==> id.recoveryEpoch.Some?
  {
  }

  lemma SubmittedAnswers(s: State, src: Source)
    requires Inv(s) && src.Valid() && src.CoreTransferSubmitted?
    ensures Answers(s, src, HandleSubmitted(s, src).1)
  {
    hide Inv;
    hide KVTransferObservation.Valid;
    StartedRecordValid(src.transfer, Pending(src.identity, src.operation, src.blockCount, src.observedAtNs));
  }

  lemma FailureAnswers(s: State, src: Source, p: Pending)
    requires src.Valid() && src.CoreTransferCompleted? && !src.success
    requires src.transfer in s.pending && s.pending[src.transfer] == p && p.observedAtNs <= src.observedAtNs
    requires p.operation.D2H_PRESERVE? ==> p.observedAtNs < src.observedAtNs
    ensures Answers(s, src, HandleFailure(s, src, p).1)
  {
    hide KVTransferObservation.Valid;
    FailedRecordValid(src.transfer, p, src.observedAtNs);
  }

  lemma RestoreCarries(s: State, src: Source, p: Pending, bytes: int)
    requires src.CoreTransferCompleted? && src.success && src.bytesMoved == Some(bytes) && Accepts(s, src)
    requires src.transfer in s.pending && s.pending[src.transfer] == p && p.operation.H2D_RESTORE?
    requires HandleRestored(s, src, p, bytes).1.Emitted?
    ensures Carries(s, src, HandleRestored(s, src, p, bytes).1.record)
  {
    hide Accepts;
    hide KVTransferObservation.Valid;
  }

  lemma RestoreAnswers(s: State, src: Source, p: Pending, bytes: int)
    requires src.Valid() && src.CoreTransferCompleted? && src.success && src.bytesMoved == Some(bytes)
    requires src.transfer in s.pending && s.pending[src.transfer] == p && PendingOk(p)
    requires p.operation.H2D_RESTORE? && p.observedAtNs <= src.observedAtNs
    ensures Answers(s, src, HandleRestored(s, src, p, bytes).1)
  {
    hide KVTransferObservation.Valid;
    hide TransferIdentity.ProcessUuid;
    hide ReceiptIdentity.ProcessUuid;
    hide RestoredRecord;
    hide Carries;
    if src.receipt.Some? {
      RestoredRecordValid(src.transfer, p, src.observedAtNs, src.receipt.value, bytes, src.deviceDurationNs);
    }
    if HandleRestored(s, src, p, bytes).1.Emitted? && Accepts(s, src) { RestoreCarries(s, src, p, bytes); }
  }

  lemma PreserveCarries(s: State, src: Source, p: Pending, bytes: int)
    requires src.CoreTransferCompleted? && src.success && src.bytesMoved == Some(bytes) && Accepts(s, src)
    requires src.transfer in s.pending && s.pending[src.transfer] == p && p.operation.D2H_PRESERVE?
    requires HandlePreserved(s, src, p, bytes).1.Emitted?
    ensures Carries(s, src, HandlePreserved(s, src, p, bytes).1.record)
  {
    hide Accepts;
    hide KVTransferObservation.Valid;
  }

  lemma PreserveAnswers(s: State, src: Source, p: Pending, bytes: int)
    requires src.Valid() && src.CoreTransferCompleted? && src.success && src.bytesMoved == Some(bytes)
    requires src.transfer in s.pending && s.pending[src.transfer] == p && PendingOk(p)
    requires p.operation.D2H_PRESERVE? && p.observedAtNs < src.observedAtNs
    ensures Answers(s, src, HandlePreserved(s, src, p, bytes).1)
  {
    hide KVTransferObservation.Valid;
    hide PreservedRecord;
    hide Carries;
    PreservedRecordValid(src.transfer, p, src.observedAtNs, bytes, src.deviceDurationNs);
    if HandlePreserved(s, src, p, bytes).1.Emitted? && Accepts(s, src) { PreserveCarries(s, src, p, bytes); }
  }

  lemma CompletedAnswers(s: State, src: Source)
    requires Inv(s) && src.Valid() && src.CoreTransferCompleted?
    ensures Answers(s, src, HandleCompleted(s, src).1)
  {
    hide HandleFailure;
    hide HandleRestored;
    hide HandlePreserved;
    hide Carries;
    hide KVTransferObservation.Valid;
    var t, at := src.transfer, src.observedAtNs;
    if t in s.pending && s.pending[t].observedAtNs <= at {
      var p := s.pending[t];
      if p.operation.H2D_RESTORE? || p.observedAtNs < at {
        if !src.success {
          FailureAnswers(s, src, p);
        } else if src.bytesMoved.Some? {
          if p.operation.H2D_RESTORE? {
            RestoreAnswers(s, src, p, src.bytesMoved.value);
          } else {
            PreserveAnswers(s, src, p, src.bytesMoved.value);
          }
        }
      }
    }
  }

  lemma CancelledAnswers(s: State, src: Source)
    requires src.Valid() && src.CoreTransferCancelled?
    ensures Answers(s, src, HandleCancelled(s, src).1)
  {
    hide KVTransferObservation.Valid;
    if src.transfer in s.pending {
      CancelledRecordValid(src.transfer, s.pending[src.transfer], src.observedAtNs, src.reason);
    }
  }

  lemma AdmittedAnswers(s: State, src: Source)
    requires src.Valid() && src.CoreRecoveryAdmitted?
    ensures Answers(s, src, HandleAdmitted(s, src).1)
  {
    hide KVTransferObservation.Valid;
    if src.identity.recoveryEpoch.Some? {
      AdmittedRecordValid(src.identity, Admission(src.transfers, src.observedAtNs));
    }
  }

  lemma ComputeAnswers(s: State, src: Source)
    requires Inv(s) && src.Valid() && src.FirstComputeObserved?
    ensures Answers(s, src, HandleFirstCompute(s, src).1)
  {
    hide KVTransferObservation.Valid;
    if !ComputeMismatch(s, src) { ComputeRecordValid(src); }
  }

  lemma HandleAnswers(s: State, src: Source)
    requires Inv(s) && src.Valid()
    ensures Answers(s, src, Handle(s, src).1)
  {
    match src
    case CoreTransferSubmitted(_, _, _, _, _) => SubmittedAnswers(s, src);
    case CoreTransferCompleted(_, _, _, _, _, _) => CompletedAnswers(s, src);
    case CoreTransferCancelled(_, _, _) => CancelledAnswers(s, src);
    case CoreRecoveryRequeued(id, reason, at) => RequeuedRecordValid(id, reason, at);
    case CoreRecoveryAdmitted(_, _, _) => AdmittedAnswers(s, src);
    case FirstComputeObserved(_, _, _, _, _, _) => ComputeAnswers(s, src);
    case Unsupported =>
  }

  /**
   * A source is accepted exactly when the normalizer is live and the source fits its
   * tables, whatever host or process it comes from; and the record returned carries the
   * source's own data.
   */
  lemma AcceptedExactly(s: State, src: Source)
    requires Inv(s) && src.Valid()
    ensures Step(s, src).1.Some? <==> Live(s) && Accepts(s, src)
    ensures Step(s, src).1.Some? ==> Carries(s, src, Step(s, src).1.value)
  {
    hide Handle;
    hide Accepts;
    hide Carries;
    HandleAnswers(s, src);
  }

  /** Each call moves one counter, that of its outcome, and a call that finds no live normalizer nothing else. */
  lemma OutcomeCounted(s: State, src: Source)
    requires Inv(s) && src.Valid()
    ensures var c, c' := s.counters, Step(s, src).0.counters;
      if s.closed then c' == c.(closedDropped := c.closedDropped + 1)
      else if !s.evidenceValid then c' == c.(evidenceDisabledDropped := c.evidenceDisabledDropped + 1)
      else if Accepts(s, src) then c' == c.(accepted := c.accepted + 1)
      else if Overflow(s, src) then c' == c.(capacityDropped := c.capacityDropped + 1)
      else c' == c.(invalid := c.invalid + 1)
    ensures !Live(s) ==> Step(s, src).0 == s.(counters := Step(s, src).0.counters)
  {
    hide Accepts;
    hide Overflow;
    hide LatchFalls;
    hide Inv;
    hide Handle;
    hide Enabled;
    if Live(s) {
      AcceptedExactly(s, src);
      if Step(s, src).1.None? { RefusedSourceFrame(s, src); } else { EmittedWasEnabled(s, src); }
    }
  }

  /** The host that reports a first compute decides nothing. */
  lemma HostIrrelevant(s: State, src: Source, host: SourceHost)
    requires src.FirstComputeObserved?
    ensures Step(s, src) == Step(s, src.(host := host))
  {
    hide KVTransferObservation.Valid;
    assert ComputeMismatch(s, src) == ComputeMismatch(s, src.(host := host));
    hide ComputeMismatch;
  }
}
