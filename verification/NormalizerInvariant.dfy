/** What every step of the lifecycle normalizer keeps, and what a refused source may change. */
module NormalizerInvariant {
  import opened Basics
  import opened Schema
  import opened Normalization
  import opened NormalizerAcceptance

  // ----- the inductive invariant -----

  predicate PendingOk(p: Pending) { 0 < p.blockCount <= UINT32_MAX && IsUint64(p.observedAtNs) }

  predicate PendingWellFormed(pending: map<TransferIdentity, Pending>) {
    forall t :: t in pending ==> PendingOk(pending[t])
  }

  predicate AdmissionsBacked(admissions: map<ObservationIdentity, Admission>,
                             completed: map<TransferIdentity, CompletedRestore>) {
    forall id :: id in admissions ==>
      && id.recoveryEpoch.Some?
      && admissions[id].transfers != []
      && SortedUnique(admissions[id].transfers)
      && forall t :: t in admissions[id].transfers ==>
           Restored(completed, t, id, admissions[id].observedAtNs)
  }

  predicate TablesInv(config: Config, pending: map<TransferIdentity, Pending>,
                      completed: map<TransferIdentity, CompletedRestore>,
                      admissions: map<ObservationIdentity, Admission>) {
    && config.Valid()
    && pending.Keys !! completed.Keys
    && |pending| <= config.maxTransfers
    && |completed| <= config.maxTransfers
    && |admissions| <= config.maxAdmissions
    && (!config.retain ==> completed == map[])
    && PendingWellFormed(pending)
    && AdmissionsBacked(admissions, completed)
  }

  predicate Inv(s: State) {
    && TablesInv(s.config, s.pending, s.completed, s.admissions)
    && (s.closed ==> s.pending == map[] && s.completed == map[] && s.admissions == map[])
  }

  lemma InitialInv(config: Config)
    requires config.Valid()
    ensures Inv(Initial(config))
  {
  }

  lemma SettleKeeps(s: State, t: TransferIdentity)
    requires Inv(s) && !s.closed
    ensures Inv(s.(pending := s.pending - {t}))
  {
    SubmapCardinality(s.pending - {t}, s.pending);
  }

  lemma SubmittedKeeps(s: State, src: Source)
    requires Inv(s) && !s.closed && src.Valid() && src.CoreTransferSubmitted?
    ensures Inv(HandleSubmitted(s, src).0)
  {
  }

  lemma RetainKeeps(s: State, t: TransferIdentity, c: CompletedRestore)
    requires Inv(s) && !s.closed && s.config.retain
    requires t !in s.pending && t !in s.completed && |s.completed| < s.config.maxTransfers
    ensures Inv(s.(completed := s.completed[t := c]))
  {
    var completed := s.completed[t := c];
    forall id, u | id in s.admissions && u in s.admissions[id].transfers
      ensures Restored(completed, u, id, s.admissions[id].observedAtNs)
    {
      assert Restored(s.completed, u, id, s.admissions[id].observedAtNs);
    }
  }

  lemma CompletedKeeps(s: State, src: Source)
    requires Inv(s) && !s.closed && src.Valid() && src.CoreTransferCompleted?
    ensures Inv(HandleCompleted(s, src).0)
  {
    var t := src.transfer;
    if t in s.pending && HandleCompleted(s, src).0 != s {
      SettleKeeps(s, t);
      var settled := s.(pending := s.pending - {t});
      if src.receipt.Some? && s.config.retain && |s.completed| < s.config.maxTransfers {
        RetainKeeps(settled, t, CompletedRestore(s.pending[t].identity, src.receipt.value, src.observedAtNs));
      }
    }
  }

  lemma CancelledKeeps(s: State, src: Source)
    requires Inv(s) && !s.closed && src.CoreTransferCancelled?
    ensures Inv(HandleCancelled(s, src).0)
  {
    SettleKeeps(s, src.transfer);
  }

  lemma AdmittedKeeps(s: State, src: Source)
    requires Inv(s) && !s.closed && src.Valid() && src.CoreRecoveryAdmitted?
    ensures Inv(HandleAdmitted(s, src).0)
  {
    hide KVTransferObservation.Valid;
    hide PendingWellFormed;
    hide Restored;
    hide SortedUnique;
  }

  lemma FirstComputeKeeps(s: State, src: Source)
    requires Inv(s) && !s.closed && src.Valid() && src.FirstComputeObserved?
    ensures Inv(HandleFirstCompute(s, src).0)
  {
    if !ComputeMismatch(s, src) {
      var s' := HandleFirstCompute(s, src).0;
      forall id, t | id in s'.admissions && t in s'.admissions[id].transfers
        ensures Restored(s'.completed, t, id, s'.admissions[id].observedAtNs)
      {
        assert Restored(s.completed, t, id, s.admissions[id].observedAtNs);
        assert t in src.transfers ==> Restored(s.completed, t, src.identity, s.admissions[src.identity].observedAtNs);
      }
      SubmapCardinality(s'.completed, s.completed);
      SubmapCardinality(s'.admissions, s.admissions);
    }
  }

  lemma HandleKeepsInv(s: State, src: Source)
    requires Inv(s) && !s.closed && src.Valid()
    ensures Inv(Handle(s, src).0)
  {
    match src
    case CoreTransferSubmitted(_, _, _, _, _) => SubmittedKeeps(s, src);
    case CoreTransferCompleted(_, _, _, _, _, _) => CompletedKeeps(s, src);
    case CoreTransferCancelled(_, _, _) => CancelledKeeps(s, src);
    case CoreRecoveryAdmitted(_, _, _) => AdmittedKeeps(s, src);
    case FirstComputeObserved(_, _, _, _, _, _) => FirstComputeKeeps(s, src);
    case _ =>
  }

  /** Every valid source keeps the invariant. */
  lemma StepKeepsInv(s: State, src: Source)
    requires Inv(s) && src.Valid()
    ensures Inv(Step(s, src).0)
  {
    hide Handle;
    hide Source.Valid;
    if !s.closed && s.evidenceValid {
      HandleKeepsInv(s, src);
    }
  }

  lemma SubmapCardinality<K, V>(small: map<K, V>, large: map<K, V>)
    requires small.Keys <= large.Keys
    ensures |small| <= |large|
  {
    SubsetCardinality(small.Keys, large.Keys);
  }

  lemma {:induction false} SubsetCardinality<T>(a: set<T>, b: set<T>)
    requires a <= b
    ensures |a| <= |b|
  {
    assert |a| + |b - a| == |b| by { assert a + (b - a) == b; }
  }

  /** Consuming one admission never damages another: rosters of distinct admissions are disjoint. */
  lemma RostersDisjoint(s: State, id1: ObservationIdentity, id2: ObservationIdentity, t: TransferIdentity)
    requires Inv(s) && id1 in s.admissions && id2 in s.admissions
    requires t in s.admissions[id1].transfers && t in s.admissions[id2].transfers
    ensures id1 == id2
  {
    assert Restored(s.completed, t, id1, s.admissions[id1].observedAtNs);
    assert Restored(s.completed, t, id2, s.admissions[id2].observedAtNs);
  }

  // ----- refused sources -----

  predicate StartOverflow(s: State, src: Source) {
    && src.CoreTransferSubmitted? && src.transfer !in s.pending && src.transfer !in s.completed
    && |s.pending| >= s.config.maxTransfers
  }

  /** A well-formed restore completion that finds the receipt table full. */
  predicate CompletionOverflow(s: State, src: Source) {
    && src.CoreTransferCompleted? && src.transfer in s.pending
    && s.pending[src.transfer].operation.H2D_RESTORE?
    && s.pending[src.transfer].observedAtNs < src.observedAtNs
    && src.success && src.bytesMoved.Some? && src.receipt.Some?
    && s.config.retain && |s.completed| >= s.config.maxTransfers
  }

  predicate AdmissionOverflow(s: State, src: Source) {
    && src.CoreRecoveryAdmitted? && src.identity.recoveryEpoch.Some? && src.identity !in s.admissions
    && |s.admissions| >= s.config.maxAdmissions
  }

  predicate Overflow(s: State, src: Source) {
    StartOverflow(s, src) || CompletionOverflow(s, src) || AdmissionOverflow(s, src)
  }

  predicate LatchFalls(s: State, src: Source) {
    Overflow(s, src) || (src.FirstComputeObserved? && ComputeMismatch(s, src))
  }

  /** The exact effect of a handler that returns no record. */
  ghost predicate RefusalFrame(s: State, src: Source, r: (State, Attempt)) {
    !r.1.Emitted? ==>
      && r.0.completed == s.completed && r.0.admissions == s.admissions && r.0.closed == s.closed
      && r.0.pending == (if CompletionOverflow(s, src) then s.pending - {src.transfer} else s.pending)
      && (r.0.evidenceValid <==> s.evidenceValid && !LatchFalls(s, src))
      && (r.1.Dropped? <==> Overflow(s, src))
      && r.0.counters == if Overflow(s, src) then s.counters.(capacityDropped := s.counters.capacityDropped + 1)
                         else s.counters
  }

  lemma StartedRecordValid(t: TransferIdentity, p: Pending)
    requires PendingOk(p)
    ensures StartedRecord(t, p).Valid()
  {
  }

  lemma FailedRecordValid(t: TransferIdentity, p: Pending, at: int)
    requires IsUint64(at)
    ensures FailedRecord(t, p, at).Valid()
  {
  }

  lemma CancelledRecordValid(t: TransferIdentity, p: Pending, at: int, reason: TransferTerminalReason)
    requires IsUint64(at) && reason.IsCancellation()
    ensures CancelledRecord(t, p, at, reason).Valid()
  {
  }

  lemma PreservedRecordValid(t: TransferIdentity, p: Pending, at: int, bytes: int, device: Option<int>)
    requires PendingOk(p) && p.observedAtNs <= at <= UINT64_MAX && 0 < bytes <= UINT64_MAX
    requires device.Some? ==> 0 < device.value <= UINT64_MAX
    ensures PreservedRecord(t, p, at, bytes, device).Valid()
  {
  }

  lemma AdmittedRecordValid(id: ObservationIdentity, a: Admission)
    requires id.recoveryEpoch.Some? && a.transfers != [] && ValidAssociations(a.transfers) && IsUint64(a.observedAtNs)
    ensures AdmittedRecord(id, a).Valid()
  {
  }

  lemma ComputeRecordValid(src: Source)
    requires src.Valid() && src.FirstComputeObserved? && src.identity.recoveryEpoch.Some?
    requires forall t :: t in src.transfers ==> t.ProcessUuid() == src.computeReceipt.ProcessUuid()
    ensures ComputeRecord(src.identity, src.computeReceipt, src.transfers, src.computeKind, src.observedAtNs).Valid()
  {
  }

  lemma SubmittedFrame(s: State, src: Source)
    requires Inv(s) && src.Valid() && src.CoreTransferSubmitted?
    ensures RefusalFrame(s, src, HandleSubmitted(s, src))
  {
    StartedRecordValid(src.transfer, Pending(src.identity, src.operation, src.blockCount, src.observedAtNs));
    hide KVTransferObservation.Valid;
  }

  lemma FailureFrame(s: State, src: Source, p: Pending)
    requires src.Valid() && src.CoreTransferCompleted? && !src.success
    ensures RefusalFrame(s, src, HandleFailure(s, src, p))
  {
    FailedRecordValid(src.transfer, p, src.observedAtNs);
    hide KVTransferObservation.Valid;
  }

  lemma RestoredFrame(s: State, src: Source, p: Pending, bytes: int)
    requires src.Valid() && src.CoreTransferCompleted? && src.success && src.bytesMoved == Some(bytes)
    requires src.transfer in s.pending && s.pending[src.transfer] == p
    requires p.operation.H2D_RESTORE? && p.observedAtNs <= src.observedAtNs
    ensures RefusalFrame(s, src, HandleRestored(s, src, p, bytes))
  {
    hide KVTransferObservation.Valid;
  }

  lemma PreservedFrame(s: State, src: Source, p: Pending, bytes: int)
    requires src.Valid() && src.CoreTransferCompleted? && src.success && src.bytesMoved == Some(bytes)
    requires src.transfer in s.pending && s.pending[src.transfer] == p && PendingOk(p)
    requires p.operation.D2H_PRESERVE? && p.observedAtNs <= src.observedAtNs
    ensures RefusalFrame(s, src, HandlePreserved(s, src, p, bytes))
  {
    PreservedRecordValid(src.transfer, p, src.observedAtNs, bytes, src.deviceDurationNs);
    hide KVTransferObservation.Valid;
  }

  lemma CompletedFrame(s: State, src: Source)
    requires Inv(s) && src.Valid() && src.CoreTransferCompleted?
    ensures RefusalFrame(s, src, HandleCompleted(s, src))
  {
    hide HandleFailure;
    hide HandleRestored;
    hide HandlePreserved;
    var t, at := src.transfer, src.observedAtNs;
    if t in s.pending && s.pending[t].observedAtNs <= at {
      var p := s.pending[t];
      if !src.success {
        FailureFrame(s, src, p);
      } else if src.bytesMoved.Some? {
        if p.operation.H2D_RESTORE? {
          RestoredFrame(s, src, p, src.bytesMoved.value);
        } else {
          PreservedFrame(s, src, p, src.bytesMoved.value);
        }
      }
    }
  }

  lemma CancelledFrame(s: State, src: Source)
    requires Inv(s) && src.Valid() && src.CoreTransferCancelled?
    ensures RefusalFrame(s, src, HandleCancelled(s, src))
  {
    if src.transfer in s.pending {
      CancelledRecordValid(src.transfer, s.pending[src.transfer], src.observedAtNs, src.reason);
    }
    hide KVTransferObservation.Valid;
  }

  lemma AdmittedFrame(s: State, src: Source)
    requires Inv(s) && src.Valid() && src.CoreRecoveryAdmitted?
    ensures RefusalFrame(s, src, HandleAdmitted(s, src))
  {
    if src.identity.recoveryEpoch.Some? {
      AdmittedRecordValid(src.identity, Admission(src.transfers, src.observedAtNs));
    }
    hide KVTransferObservation.Valid;
  }

  lemma FirstComputeFrame(s: State, src: Source)
    requires Inv(s) && src.Valid() && src.FirstComputeObserved?
    ensures RefusalFrame(s, src, HandleFirstCompute(s, src))
  {
    if !ComputeMismatch(s, src) { ComputeRecordValid(src); }
    hide KVTransferObservation.Valid;
  }

  lemma HandleFrame(s: State, src: Source)
    requires Inv(s) && src.Valid()
    ensures RefusalFrame(s, src, Handle(s, src))
  {
    match src
    case CoreTransferSubmitted(_, _, _, _, _) => SubmittedFrame(s, src);
    case CoreTransferCompleted(_, _, _, _, _, _) => CompletedFrame(s, src);
    case CoreTransferCancelled(_, _, _) => CancelledFrame(s, src);
    case CoreRecoveryAdmitted(_, _, _) => AdmittedFrame(s, src);
    case FirstComputeObserved(_, _, _, _, _, _) => FirstComputeFrame(s, src);
    case _ =>
  }

  /**
   * A refused source leaves the tables as they were, and no handler raises after it
   * has changed one. The two exceptions are exact: the evidence latch falls on a
   * capacity loss or a first-compute mismatch, and a restore completion that finds
   * the receipt table full also loses its pending entry.
   */
  lemma RefusedSourceFrame(s: State, src: Source)
    requires Inv(s) && src.Valid() && Live(s) && Step(s, src).1.None?
    ensures var s' := Step(s, src).0;
      && s'.completed == s.completed && s'.admissions == s.admissions && !s'.closed
      && s'.pending == (if CompletionOverflow(s, src) then s.pending - {src.transfer} else s.pending)
      && (s'.evidenceValid <==> !LatchFalls(s, src))
      && s'.counters == if Overflow(s, src) then s.counters.(capacityDropped := s.counters.capacityDropped + 1)
                        else s.counters.(invalid := s.counters.invalid + 1)
  {
    hide Handle;
    HandleFrame(s, src);
  }
}
