/**
 * The normalizer seen from its output side: which canonical records a state can
 * emit, and what emitting one does to the tables.
 */
module NormalizerAcceptance {
  import opened Basics
  import opened Schema
  import opened Normalization

  predicate Live(s: State) { !s.closed && s.evidenceValid }

  /** The table entry a start record stands for. */
  function PendingOf(o: KVTransferObservation): Pending
    requires o.blockCount.Some?
  {
    var operation := if o.event.PRESERVE_STARTED? then D2H_PRESERVE else H2D_RESTORE;
    Pending(o.identity, operation, o.blockCount.value, o.observedAtNs)
  }

  predicate EnabledStart(s: State, o: KVTransferObservation)
    requires o.Valid() && (o.event.PRESERVE_STARTED? || o.event.RESTORE_STARTED?)
  {
    && o.transfer.value !in s.pending
    && o.transfer.value !in s.completed
    && |s.pending| < s.config.maxTransfers
  }

  predicate EnabledRestored(s: State, o: KVTransferObservation)
    requires o.Valid() && o.event.RESTORE_COMPLETED?
  {
    var t := o.transfer.value;
    && t in s.pending
    && s.pending[t].operation.H2D_RESTORE?
    && s.pending[t].identity == o.identity
    && s.pending[t].blockCount == o.blockCount.value
    && s.pending[t].observedAtNs < o.observedAtNs
    && o.durationNs.value == o.observedAtNs - s.pending[t].observedAtNs
    && (s.config.retain ==> |s.completed| < s.config.maxTransfers)
  }

  predicate EnabledPreserved(s: State, o: KVTransferObservation)
    requires o.Valid() && o.event.PRESERVE_COMPLETED?
  {
    var t := o.transfer.value;
    && t in s.pending
    && s.pending[t].operation.D2H_PRESERVE?
    && s.pending[t].identity == o.identity
    && s.pending[t].blockCount == o.blockCount.value
    && s.pending[t].observedAtNs < o.observedAtNs
    && o.durationNs.value == o.observedAtNs - s.pending[t].observedAtNs
  }

  /** A failure or a cancellation of a pending transfer. */
  predicate EnabledTerminal(s: State, o: KVTransferObservation)
    requires o.Valid() && (o.event.TRANSFER_FAILED? || o.event.TRANSFER_CANCELLED?)
  {
    var t := o.transfer.value;
    && t in s.pending
    && s.pending[t].identity == o.identity
    && o.direction == Some(s.pending[t].operation.Direction())
    && s.pending[t].observedAtNs <= o.observedAtNs
    && (o.event.TRANSFER_FAILED? ==>
          && o.terminalReason == Some(BACKEND_FAILURE)
          && (s.pending[t].operation.D2H_PRESERVE? ==> s.pending[t].observedAtNs < o.observedAtNs))
  }

  predicate EnabledAdmitted(s: State, o: KVTransferObservation)
    requires o.Valid() && o.event.RECOVERY_ADMITTED?
  {
    && o.identity !in s.admissions
    && |s.admissions| < s.config.maxAdmissions
    && forall t :: t in o.associatedTransfers ==> Restored(s.completed, t, o.identity, o.observedAtNs)
  }

  predicate EnabledCompute(s: State, o: KVTransferObservation)
    requires o.Valid() && o.event.FIRST_COMPUTE?
  {
    && o.identity in s.admissions
    && s.admissions[o.identity].transfers == o.associatedTransfers
    && s.admissions[o.identity].observedAtNs <= o.observedAtNs
  }

  /** State `s` can emit the valid record `o`. */
  predicate Enabled(s: State, o: KVTransferObservation)
    requires o.Valid()
  {
    match o.event
    case PRESERVE_STARTED => EnabledStart(s, o)
    case RESTORE_STARTED => EnabledStart(s, o)
    case PRESERVE_COMPLETED => EnabledPreserved(s, o)
    case RESTORE_COMPLETED => EnabledRestored(s, o)
    case TRANSFER_FAILED => EnabledTerminal(s, o)
    case TRANSFER_CANCELLED => EnabledTerminal(s, o)
    case RECOVERY_REQUEUED => true
    case RECOVERY_ADMITTED => EnabledAdmitted(s, o)
    case FIRST_COMPUTE => EnabledCompute(s, o)
    case TRANSFER_STARTED => false
    case TRANSFER_COMPLETED => false
  }

  function AfterPending(s: State, o: KVTransferObservation): map<TransferIdentity, Pending>
    requires o.Valid()
  {
    if o.event.PRESERVE_STARTED? || o.event.RESTORE_STARTED? then s.pending[o.transfer.value := PendingOf(o)]
    else if o.transfer.Some? then s.pending - {o.transfer.value}
    else s.pending
  }

  function AfterCompleted(s: State, o: KVTransferObservation): map<TransferIdentity, CompletedRestore>
    requires o.Valid()
  {
    if o.event.RESTORE_COMPLETED? && s.config.retain then
      s.completed[o.transfer.value := CompletedRestore(o.identity, o.receipt.value, o.observedAtNs)]
    else if o.event.FIRST_COMPUTE? then s.completed - ToSet(o.associatedTransfers)
    else s.completed
  }

  function AfterAdmissions(s: State, o: KVTransferObservation): map<ObservationIdentity, Admission>
    requires o.Valid()
  {
    if o.event.RECOVERY_ADMITTED? then s.admissions[o.identity := Admission(o.associatedTransfers, o.observedAtNs)]
    else if o.event.FIRST_COMPUTE? then s.admissions - {o.identity}
    else s.admissions
  }

  /** The tables after emitting `o`. */
  function AfterTables(s: State, o: KVTransferObservation): State
    requires o.Valid()
  {
    s.(pending := AfterPending(s, o), completed := AfterCompleted(s, o), admissions := AfterAdmissions(s, o))
  }

  /** The state after emitting `o`. */
  function After(s: State, o: KVTransferObservation): State
    requires o.Valid()
  {
    AfterTables(s, o).(counters := s.counters.(accepted := s.counters.accepted + 1))
  }

  /** The source record that a canonical record stands for. */
  function SourceOf(o: KVTransferObservation): (src: Source)
    requires o.Valid()
  {
    match o.event
    case PRESERVE_STARTED =>
      CoreTransferSubmitted(o.identity, o.transfer.value, D2H_PRESERVE, o.blockCount.value, o.observedAtNs)
    case RESTORE_STARTED =>
      CoreTransferSubmitted(o.identity, o.transfer.value, H2D_RESTORE, o.blockCount.value, o.observedAtNs)
    case PRESERVE_COMPLETED =>
      CoreTransferCompleted(o.transfer.value, o.observedAtNs, true, o.bytesMoved, o.deviceDurationNs, None)
    case RESTORE_COMPLETED =>
      CoreTransferCompleted(o.transfer.value, o.observedAtNs, true, o.bytesMoved, o.deviceDurationNs, o.receipt)
    case TRANSFER_FAILED => CoreTransferCompleted(o.transfer.value, o.observedAtNs, false, None, None, None)
    case TRANSFER_CANCELLED => CoreTransferCancelled(o.transfer.value, o.observedAtNs, o.terminalReason.value)
    case RECOVERY_REQUEUED => CoreRecoveryRequeued(o.identity, o.requeueReason.value, o.observedAtNs)
    case RECOVERY_ADMITTED => CoreRecoveryAdmitted(o.identity, o.associatedTransfers, o.observedAtNs)
    case FIRST_COMPUTE =>
      FirstComputeObserved(VLLM, o.identity, o.receipt.value, o.associatedTransfers, o.computeKind.value,
                           o.observedAtNs)
    case TRANSFER_STARTED => Unsupported
    case TRANSFER_COMPLETED => Unsupported
  }

  ghost predicate Sound(s: State, r: (State, Attempt)) {
    r.1.Emitted? ==> r.1.record.Valid() && Enabled(s, r.1.record) && r.0 == AfterTables(s, r.1.record)
  }

  lemma SubmittedSound(s: State, src: Source)
    requires src.CoreTransferSubmitted?
    ensures Sound(s, HandleSubmitted(s, src))
  {
    var r := HandleSubmitted(s, src);
    if r.1.Emitted? {
      hide KVTransferObservation.FieldsInRange;
      assert PendingOf(r.1.record) == Pending(src.identity, src.operation, src.blockCount, src.observedAtNs);
    }
  }

  lemma FailureSound(s: State, src: Source, p: Pending)
    requires src.CoreTransferCompleted? && src.transfer in s.pending && s.pending[src.transfer] == p
    requires p.observedAtNs <= src.observedAtNs && (p.operation.D2H_PRESERVE? ==> p.observedAtNs < src.observedAtNs)
    ensures Sound(s, HandleFailure(s, src, p))
  {
  }

  lemma RestoredSound(s: State, src: Source, p: Pending, bytes: int)
    requires src.CoreTransferCompleted? && src.transfer in s.pending && s.pending[src.transfer] == p
    requires p.observedAtNs <= src.observedAtNs && p.operation.H2D_RESTORE?
    ensures Sound(s, HandleRestored(s, src, p, bytes))
  {
  }

  lemma PreservedSound(s: State, src: Source, p: Pending, bytes: int)
    requires src.CoreTransferCompleted? && src.transfer in s.pending && s.pending[src.transfer] == p
    requires p.observedAtNs < src.observedAtNs && p.operation.D2H_PRESERVE?
    ensures Sound(s, HandlePreserved(s, src, p, bytes))
  {
  }

  lemma CompletedSound(s: State, src: Source)
    requires src.CoreTransferCompleted?
    ensures Sound(s, HandleCompleted(s, src))
  {
    hide HandleFailure;
    hide HandleRestored;
    hide HandlePreserved;
    var t := src.transfer;
    if t in s.pending && s.pending[t].observedAtNs <= src.observedAtNs {
      var p := s.pending[t];
      if !src.success {
        if p.operation.H2D_RESTORE? || p.observedAtNs < src.observedAtNs { FailureSound(s, src, p); }
      } else if src.bytesMoved.Some? {
        if p.operation.H2D_RESTORE? {
          RestoredSound(s, src, p, src.bytesMoved.value);
        } else if p.observedAtNs < src.observedAtNs {
          PreservedSound(s, src, p, src.bytesMoved.value);
        }
      }
    }
  }

  lemma CancelledSound(s: State, src: Source)
    requires src.CoreTransferCancelled?
    ensures Sound(s, HandleCancelled(s, src))
  {
  }

  lemma AdmittedSound(s: State, src: Source)
    requires src.CoreRecoveryAdmitted?
    ensures Sound(s, HandleAdmitted(s, src))
  {
  }

  lemma FirstComputeSound(s: State, src: Source)
    requires src.FirstComputeObserved?
    ensures Sound(s, HandleFirstCompute(s, src))
  {
  }

  lemma HandleSound(s: State, src: Source)
    ensures Sound(s, Handle(s, src))
  {
    match src
    case CoreTransferSubmitted(_, _, _, _, _) => SubmittedSound(s, src);
    case CoreTransferCompleted(_, _, _, _, _, _) => CompletedSound(s, src);
    case CoreTransferCancelled(_, _, _) => CancelledSound(s, src);
    case CoreRecoveryAdmitted(_, _, _) => AdmittedSound(s, src);
    case FirstComputeObserved(_, _, _, _, _, _) => FirstComputeSound(s, src);
    case _ =>
  }

  /** Soundness: whatever the source was, an emitted record was enabled and had exactly its effect. */
  lemma EmittedWasEnabled(s: State, src: Source)
    requires Step(s, src).1.Some?
    ensures var o := Step(s, src).1.value;
      Live(s) && Enabled(s, o) && Step(s, src).0 == After(s, o)
  {
    HandleSound(s, src);
  }

  lemma StartEmitted(s: State, o: KVTransferObservation)
    requires o.Valid() && (o.event.PRESERVE_STARTED? || o.event.RESTORE_STARTED?) && Enabled(s, o)
    ensures HandleSubmitted(s, SourceOf(o)) == (AfterTables(s, o), Emitted(o))
  {
    assert StartedRecord(o.transfer.value, PendingOf(o)) == o;
  }

  lemma RestoredEmitted(s: State, o: KVTransferObservation)
    requires o.Valid() && o.event.RESTORE_COMPLETED? && Enabled(s, o)
    ensures HandleRestored(s, SourceOf(o), s.pending[o.transfer.value], o.bytesMoved.value)
        == (AfterTables(s, o), Emitted(o))
  {
    var t := o.transfer.value;
    assert RestoredRecord(t, s.pending[t], o.observedAtNs, o.receipt.value, o.bytesMoved.value, o.deviceDurationNs)
      == o;
  }

  lemma PreservedEmitted(s: State, o: KVTransferObservation)
    requires o.Valid() && o.event.PRESERVE_COMPLETED? && Enabled(s, o)
    ensures HandlePreserved(s, SourceOf(o), s.pending[o.transfer.value], o.bytesMoved.value)
        == (AfterTables(s, o), Emitted(o))
  {
    var t := o.transfer.value;
    assert PreservedRecord(t, s.pending[t], o.observedAtNs, o.bytesMoved.value, o.deviceDurationNs) == o;
  }

  lemma FailedEmitted(s: State, o: KVTransferObservation)
    requires o.Valid() && o.event.TRANSFER_FAILED? && Enabled(s, o)
    ensures HandleFailure(s, SourceOf(o), s.pending[o.transfer.value]) == (AfterTables(s, o), Emitted(o))
  {
    var t := o.transfer.value;
    assert FailedRecord(t, s.pending[t], o.observedAtNs) == o;
  }

  lemma CancelledEmitted(s: State, o: KVTransferObservation)
    requires o.Valid() && o.event.TRANSFER_CANCELLED? && Enabled(s, o)
    ensures HandleCancelled(s, SourceOf(o)) == (AfterTables(s, o), Emitted(o))
  {
    var t := o.transfer.value;
    assert CancelledRecord(t, s.pending[t], o.observedAtNs, o.terminalReason.value) == o;
  }

  lemma RequeuedEmitted(s: State, o: KVTransferObservation)
    requires o.Valid() && o.event.RECOVERY_REQUEUED?
    ensures Handle(s, SourceOf(o)) == (AfterTables(s, o), Emitted(o))
  {
    assert RequeuedRecord(o.identity, o.requeueReason.value, o.observedAtNs) == o;
  }

  lemma AdmittedEmitted(s: State, o: KVTransferObservation)
    requires o.Valid() && o.event.RECOVERY_ADMITTED? && Enabled(s, o)
    ensures HandleAdmitted(s, SourceOf(o)) == (AfterTables(s, o), Emitted(o))
  {
    assert AdmittedRecord(o.identity, Admission(o.associatedTransfers, o.observedAtNs)) == o;
  }

  lemma ComputeEmitted(s: State, o: KVTransferObservation)
    requires o.Valid() && o.event.FIRST_COMPUTE? && Enabled(s, o)
    ensures HandleFirstCompute(s, SourceOf(o)) == (AfterTables(s, o), Emitted(o))
  {
    assert ComputeRecord(o.identity, o.receipt.value, o.associatedTransfers, o.computeKind.value, o.observedAtNs) == o;
  }

  lemma CompletionEmitted(s: State, o: KVTransferObservation)
    requires o.Valid() && Enabled(s, o)
    requires o.event.RESTORE_COMPLETED? || o.event.PRESERVE_COMPLETED? || o.event.TRANSFER_FAILED?
    ensures HandleCompleted(s, SourceOf(o)) == (AfterTables(s, o), Emitted(o))
  {
    hide HandleFailure;
    hide HandleRestored;
    hide HandlePreserved;
    hide AfterTables;
    match o.event
    case RESTORE_COMPLETED => RestoredEmitted(s, o);
    case PRESERVE_COMPLETED => PreservedEmitted(s, o);
    case TRANSFER_FAILED => FailedEmitted(s, o);
  }

  lemma EnabledIsHandled(s: State, o: KVTransferObservation)
    requires o.Valid() && Enabled(s, o)
    ensures Handle(s, SourceOf(o)) == (AfterTables(s, o), Emitted(o))
  {
    hide AfterTables;
    hide HandleSubmitted;
    hide HandleCompleted;
    hide HandleCancelled;
    hide HandleAdmitted;
    hide HandleFirstCompute;
    match o.event
    case PRESERVE_STARTED => StartEmitted(s, o);
    case RESTORE_STARTED => StartEmitted(s, o);
    case PRESERVE_COMPLETED => CompletionEmitted(s, o);
    case RESTORE_COMPLETED => CompletionEmitted(s, o);
    case TRANSFER_FAILED => CompletionEmitted(s, o);
    case TRANSFER_CANCELLED => CancelledEmitted(s, o);
    case RECOVERY_REQUEUED => RequeuedEmitted(s, o);
    case RECOVERY_ADMITTED => AdmittedEmitted(s, o);
    case FIRST_COMPUTE => ComputeEmitted(s, o);
  }

  /** Completeness: a live state that enables a valid record emits it for the source it stands for. */
  lemma EnabledIsEmitted(s: State, o: KVTransferObservation)
    requires o.Valid() && Live(s) && Enabled(s, o)
    ensures Step(s, SourceOf(o)) == (After(s, o), Some(o))
  {
    hide Handle;
    hide SourceOf;
    EnabledIsHandled(s, o);
  }

  /** The two directions together: what the replaying validator learns from one comparison. */
  lemma ReplayAccepts(s: State, o: KVTransferObservation)
    requires o.Valid()
    ensures Step(s, SourceOf(o)).1 == Some(o) <==> Live(s) && Enabled(s, o)
    ensures Step(s, SourceOf(o)).1 == Some(o) ==> Step(s, SourceOf(o)).0 == After(s, o)
  {
    if Step(s, SourceOf(o)).1 == Some(o) { EmittedWasEnabled(s, SourceOf(o)); }
    if Live(s) && Enabled(s, o) { EnabledIsEmitted(s, o); }
  }
}
