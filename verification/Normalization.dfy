/**
 * The lifecycle normalizer: source records in, canonical observations out.
 *
 * `Step` gives the meaning of one call as a function on `State`; the class
 * `LifecycleNormalizer` performs the same call by updating its fields.
 */
module Normalization {
  import opened Basics
  import opened Schema

  const DEFAULT_MAX_CORRELATED_TRANSFERS := 4096
  const DEFAULT_MAX_RECOVERY_ADMISSIONS := 4096

  datatype SourceHost = VLLM | VLLM_ASCEND

  datatype TransferOperation = D2H_PRESERVE | H2D_RESTORE {
    function Direction(): TransferDirection { if D2H_PRESERVE? then D2H else H2D }
  }

  /** The closed union of typed source records; `Unsupported` is any other object. */
  datatype Source =
    | CoreTransferSubmitted(identity: ObservationIdentity, transfer: TransferIdentity,
                            operation: TransferOperation, blockCount: int, observedAtNs: int)
    | CoreTransferCompleted(transfer: TransferIdentity, observedAtNs: int, success: bool,
                            bytesMoved: Option<int>, deviceDurationNs: Option<int>,
                            receipt: Option<ReceiptIdentity>)
    | CoreTransferCancelled(transfer: TransferIdentity, observedAtNs: int, reason: TransferTerminalReason)
    | CoreRecoveryRequeued(identity: ObservationIdentity, requeueReason: RecoveryRequeueReason, observedAtNs: int)
    | CoreRecoveryAdmitted(identity: ObservationIdentity, transfers: seq<TransferIdentity>, observedAtNs: int)
    | FirstComputeObserved(host: SourceHost, identity: ObservationIdentity, computeReceipt: ReceiptIdentity,
                           transfers: seq<TransferIdentity>, computeKind: ComputeKind, observedAtNs: int)
    | Unsupported
  {
    /** What the source record constructors enforce. */
    predicate Valid() {
      match this
      case CoreTransferSubmitted(_, _, _, blocks, at) =>
        0 < blocks <= UINT32_MAX && IsUint64(at)
      case CoreTransferCompleted(_, at, _, bytes, device, _) =>
        && IsUint64(at)
        && (bytes.Some? ==> 0 < bytes.value <= UINT64_MAX)
        && (device.Some? ==> 0 < device.value <= UINT64_MAX)
      case CoreTransferCancelled(_, at, reason) =>
        IsUint64(at) && reason.IsCancellation()
      case CoreRecoveryRequeued(_, _, at) => IsUint64(at)
      case CoreRecoveryAdmitted(_, ts, at) =>
        ts != [] && ValidAssociations(ts) && IsUint64(at)
      case FirstComputeObserved(_, _, _, ts, _, at) =>
        ts != [] && ValidAssociations(ts) && IsUint64(at)
      case Unsupported => true
    }
  }

  datatype Counters = Counters(
    accepted: nat, invalid: nat, capacityDropped: nat, evidenceDisabledDropped: nat, closedDropped: nat)
  {
    function Total(): nat {
      accepted + invalid + capacityDropped + evidenceDisabledDropped + closedDropped
    }
  }

  datatype Pending = Pending(
    identity: ObservationIdentity, operation: TransferOperation, blockCount: int, observedAtNs: int)

  datatype CompletedRestore = CompletedRestore(
    identity: ObservationIdentity, receipt: ReceiptIdentity, observedAtNs: int)

  datatype Admission = Admission(transfers: seq<TransferIdentity>, observedAtNs: int)

  datatype Config = Config(maxTransfers: int, maxAdmissions: int, retain: bool) {
    predicate Valid() {
      0 < maxTransfers <= MAX_TRANSFER_ASSOCIATIONS && 0 < maxAdmissions <= MAX_TRANSFER_ASSOCIATIONS
    }
  }

  datatype State = State(
    config: Config,
    pending: map<TransferIdentity, Pending>,
    completed: map<TransferIdentity, CompletedRestore>,
    admissions: map<ObservationIdentity, Admission>,
    counters: Counters,
    evidenceValid: bool,
    closed: bool)

  function Initial(config: Config): State {
    State(config, map[], map[], map[], Counters(0, 0, 0, 0, 0), true, false)
  }

  // ----- canonical records the normalizer builds -----

  function StartedRecord(t: TransferIdentity, p: Pending): KVTransferObservation {
    Blank(if p.operation.D2H_PRESERVE? then PRESERVE_STARTED else RESTORE_STARTED, p.identity, p.observedAtNs)
      .(transfer := Some(t), direction := Some(p.operation.Direction()), blockCount := Some(p.blockCount))
  }

  function FailedRecord(t: TransferIdentity, p: Pending, at: int): KVTransferObservation {
    Blank(TRANSFER_FAILED, p.identity, at)
      .(transfer := Some(t), direction := Some(p.operation.Direction()), terminalReason := Some(BACKEND_FAILURE))
  }

  function CancelledRecord(t: TransferIdentity, p: Pending, at: int, reason: TransferTerminalReason)
    : KVTransferObservation
  {
    Blank(TRANSFER_CANCELLED, p.identity, at)
      .(transfer := Some(t), direction := Some(p.operation.Direction()), terminalReason := Some(reason))
  }

  function RestoredRecord(t: TransferIdentity, p: Pending, at: int, receipt: ReceiptIdentity,
                          bytes: int, device: Option<int>): KVTransferObservation {
    Blank(RESTORE_COMPLETED, p.identity, at)
      .(transfer := Some(t), direction := Some(H2D), receipt := Some(receipt), bytesMoved := Some(bytes),
        blockCount := Some(p.blockCount), durationNs := Some(at - p.observedAtNs), deviceDurationNs := device)
  }

  function PreservedRecord(t: TransferIdentity, p: Pending, at: int, bytes: int, device: Option<int>)
    : KVTransferObservation
  {
    Blank(PRESERVE_COMPLETED, p.identity, at)
      .(transfer := Some(t), direction := Some(D2H), bytesMoved := Some(bytes),
        blockCount := Some(p.blockCount), durationNs := Some(at - p.observedAtNs), deviceDurationNs := device)
  }

  function RequeuedRecord(id: ObservationIdentity, reason: RecoveryRequeueReason, at: int): KVTransferObservation {
    Blank(RECOVERY_REQUEUED, id, at).(requeueReason := Some(reason))
  }

  function AdmittedRecord(id: ObservationIdentity, a: Admission): KVTransferObservation {
    Blank(RECOVERY_ADMITTED, id, a.observedAtNs).(associatedTransfers := a.transfers)
  }

  function ComputeRecord(id: ObservationIdentity, receipt: ReceiptIdentity, ts: seq<TransferIdentity>,
                         kind: ComputeKind, at: int): KVTransferObservation {
    Blank(FIRST_COMPUTE, id, at)
      .(receipt := Some(receipt), associatedTransfers := ts, computeKind := Some(kind))
  }

  // ----- the meaning of one call -----

  /** How a handler ends: with a record, with `None`, or by raising `ValueError`/`TypeError`. */
  datatype Attempt = Emitted(record: KVTransferObservation) | Dropped | Raised

  /** Record construction raises when the closed schema is violated. */
  function Construct(o: KVTransferObservation): Attempt {
    if o.Valid() then Emitted(o) else Raised
  }

  function DisableForCapacity(s: State): State {
    s.(evidenceValid := false, counters := s.counters.(capacityDropped := s.counters.capacityDropped + 1))
  }

  function HandleSubmitted(s: State, src: Source): (r: (State, Attempt))
    requires src.CoreTransferSubmitted?
    ensures r.1.Emitted? ==> r.1.record.Valid()
    ensures r.0.config == s.config && r.0.closed == s.closed
  {
    if src.transfer in s.pending || src.transfer in s.completed then (s, Raised)
    else if |s.pending| >= s.config.maxTransfers then (DisableForCapacity(s), Dropped)
    else
      var p := Pending(src.identity, src.operation, src.blockCount, src.observedAtNs);
      (s.(pending := s.pending[src.transfer := p]), Construct(StartedRecord(src.transfer, p)))
  }

  function HandleFailure(s: State, src: Source, p: Pending): (r: (State, Attempt))
    requires src.CoreTransferCompleted?
    ensures r.1.Emitted? ==> r.1.record.Valid()
    ensures r.0.config == s.config && r.0.closed == s.closed
  {
    if src.bytesMoved.Some? || src.receipt.Some? then (s, Raised)
    else (s.(pending := s.pending - {src.transfer}), Construct(FailedRecord(src.transfer, p, src.observedAtNs)))
  }

  function HandleRestored(s: State, src: Source, p: Pending, bytes: int): (r: (State, Attempt))
    requires src.CoreTransferCompleted?
    ensures r.1.Emitted? ==> r.1.record.Valid()
    ensures r.0.config == s.config && r.0.closed == s.closed
  {
    var t, at := src.transfer, src.observedAtNs;
    var settled := s.(pending := s.pending - {t});
    if at == p.observedAtNs || src.receipt.None? then (s, Raised)
    else if s.config.retain && |s.completed| >= s.config.maxTransfers then (DisableForCapacity(settled), Dropped)
    else
      var attempt := Construct(RestoredRecord(t, p, at, src.receipt.value, bytes, src.deviceDurationNs));
      if attempt.Raised? then (s, attempt)
      else if s.config.retain then
        (settled.(completed := s.completed[t := CompletedRestore(p.identity, src.receipt.value, at)]), attempt)
      else (settled, attempt)
  }

  function HandlePreserved(s: State, src: Source, p: Pending, bytes: int): (r: (State, Attempt))
    requires src.CoreTransferCompleted?
    ensures r.1.Emitted? ==> r.1.record.Valid()
    ensures r.0.config == s.config && r.0.closed == s.closed
  {
    if src.receipt.Some? then (s, Raised)
    else
      var attempt := Construct(PreservedRecord(src.transfer, p, src.observedAtNs, bytes, src.deviceDurationNs));
      (if attempt.Raised? then s else s.(pending := s.pending - {src.transfer}), attempt)
  }

  function HandleCompleted(s: State, src: Source): (r: (State, Attempt))
    requires src.CoreTransferCompleted?
    ensures r.1.Emitted? ==> r.1.record.Valid()
    ensures r.0.config == s.config && r.0.closed == s.closed
  {
    var t, at := src.transfer, src.observedAtNs;
    if t !in s.pending || at < s.pending[t].observedAtNs then (s, Raised)
    else
      var p := s.pending[t];
      if p.operation.D2H_PRESERVE? && at == p.observedAtNs then (s, Raised)
      else if !src.success then HandleFailure(s, src, p)
      else if src.bytesMoved.None? then (s, Raised)
      else if p.operation.H2D_RESTORE? then HandleRestored(s, src, p, src.bytesMoved.value)
      else HandlePreserved(s, src, p, src.bytesMoved.value)
  }

  function HandleCancelled(s: State, src: Source): (r: (State, Attempt))
    requires src.CoreTransferCancelled?
    ensures r.1.Emitted? ==> r.1.record.Valid()
    ensures r.0.config == s.config && r.0.closed == s.closed
  {
    var t, at := src.transfer, src.observedAtNs;
    if t !in s.pending || at < s.pending[t].observedAtNs then (s, Raised)
    else (s.(pending := s.pending - {t}), Construct(CancelledRecord(t, s.pending[t], at, src.reason)))
  }

  /** Transfer `t` has a retained receipt under `id`, no later than `at`. */
  predicate Restored(completed: map<TransferIdentity, CompletedRestore>, t: TransferIdentity, id: ObservationIdentity,
                     at: int)
  {
    t in completed && completed[t].identity == id && completed[t].observedAtNs <= at
  }

  function HandleAdmitted(s: State, src: Source): (r: (State, Attempt))
    requires src.CoreRecoveryAdmitted?
    ensures r.1.Emitted? ==> r.1.record.Valid()
    ensures r.0.config == s.config && r.0.closed == s.closed
  {
    var id, at := src.identity, src.observedAtNs;
    if id.recoveryEpoch.None? || id in s.admissions then (s, Raised)
    else if |s.admissions| >= s.config.maxAdmissions then (DisableForCapacity(s), Dropped)
    else if exists t :: t in src.transfers && !Restored(s.completed, t, id, at) then (s, Raised)
    else
      var a := Admission(src.transfers, at);
      (s.(admissions := s.admissions[id := a]), Construct(AdmittedRecord(id, a)))
  }

  /** The condition under which a first compute is refused and the evidence latch falls. */
  predicate ComputeMismatch(s: State, src: Source)
    requires src.FirstComputeObserved?
  {
    || src.identity !in s.admissions
    || s.admissions[src.identity].transfers != src.transfers
    || src.observedAtNs < s.admissions[src.identity].observedAtNs
    || exists t :: t in src.transfers && t.ProcessUuid() != src.computeReceipt.ProcessUuid()
  }

  function HandleFirstCompute(s: State, src: Source): (r: (State, Attempt))
    requires src.FirstComputeObserved?
    ensures r.1.Emitted? ==> r.1.record.Valid()
    ensures r.0.config == s.config && r.0.closed == s.closed
  {
    if ComputeMismatch(s, src) then (s.(evidenceValid := false), Raised)
    else
      var attempt := Construct(ComputeRecord(src.identity, src.computeReceipt, src.transfers, src.computeKind,
                                             src.observedAtNs));
      if attempt.Raised? then (s, attempt)
      else (s.(admissions := s.admissions - {src.identity}, completed := s.completed - ToSet(src.transfers)), attempt)
  }

  function Handle(s: State, src: Source): (r: (State, Attempt))
    ensures r.1.Emitted? ==> r.1.record.Valid()
    ensures r.0.config == s.config && r.0.closed == s.closed
  {
    match src
    case CoreTransferSubmitted(_, _, _, _, _) => HandleSubmitted(s, src)
    case CoreTransferCompleted(_, _, _, _, _, _) => HandleCompleted(s, src)
    case CoreTransferCancelled(_, _, _) => HandleCancelled(s, src)
    case CoreRecoveryRequeued(id, reason, at) => (s, Construct(RequeuedRecord(id, reason, at)))
    case CoreRecoveryAdmitted(_, _, _) => HandleAdmitted(s, src)
    case FirstComputeObserved(_, _, _, _, _, _) => HandleFirstCompute(s, src)
    case Unsupported => (s, Raised)
  }

  function Count(s: State, attempt: Attempt): State {
    match attempt
    case Emitted(_) => s.(counters := s.counters.(accepted := s.counters.accepted + 1))
    case Dropped => s
    case Raised => s.(counters := s.counters.(invalid := s.counters.invalid + 1))
  }

  /** One call of `normalize`: the next state and the record returned, if any. */
  function Step(s: State, src: Source): (r: (State, Option<KVTransferObservation>))
    ensures r.1.Some? ==> r.1.value.Valid()
    ensures r.0.config == s.config && r.0.closed == s.closed
  {
    if s.closed then
      (s.(counters := s.counters.(closedDropped := s.counters.closedDropped + 1)), None)
    else if !s.evidenceValid then
      (s.(counters := s.counters.(evidenceDisabledDropped := s.counters.evidenceDisabledDropped + 1)), None)
    else
      var (s', attempt) := Handle(s, src);
      (Count(s', attempt), if attempt.Emitted? then Some(attempt.record) else None)
  }

  function CloseState(s: State): State {
    if s.closed then s else s.(closed := true, pending := map[], completed := map[], admissions := map[])
  }

  // ----- the object that performs these steps -----

  class LifecycleNormalizer {
    const config: Config
    var pending: map<TransferIdentity, Pending>
    var completedRestores: map<TransferIdentity, CompletedRestore>
    var admissions: map<ObservationIdentity, Admission>
    var counters: Counters
    var evidenceValid: bool
    var closed: bool

    ghost function Abstract(): State
      reads this
    {
      State(config, pending, completedRestores, admissions, counters, evidenceValid, closed)
    }

    constructor (config: Config)
      requires config.Valid()
      ensures Abstract() == Initial(config)
    {
      this.config := config;
      pending, completedRestores, admissions := map[], map[], map[];
      counters := Counters(0, 0, 0, 0, 0);
      evidenceValid, closed := true, false;
    }

    method Normalize(source: Source) returns (result: Option<KVTransferObservation>)
      modifies this
      ensures (Abstract(), result) == Step(old(Abstract()), source)
    {
      hide Handle;
      if closed {
        counters := counters.(closedDropped := counters.closedDropped + 1);
        return None;
      }
      if !evidenceValid {
        counters := counters.(evidenceDisabledDropped := counters.evidenceDisabledDropped + 1);
        return None;
      }
      var attempt := NormalizeLocked(source);
      match attempt
      case Emitted(record) =>
        counters := counters.(accepted := counters.accepted + 1);
        result := Some(record);
      case Dropped =>
        result := None;
      case Raised =>
        counters := counters.(invalid := counters.invalid + 1);
        result := None;
    }

    method NormalizeLocked(source: Source) returns (attempt: Attempt)
      modifies this
      ensures (Abstract(), attempt) == Handle(old(Abstract()), source)
    {
      match source
      case CoreTransferSubmitted(_, _, _, _, _) => attempt := TransferSubmitted(source);
      case CoreTransferCompleted(_, _, _, _, _, _) => attempt := TransferCompleted(source);
      case CoreTransferCancelled(_, _, _) => attempt := TransferCancelled(source);
      case CoreRecoveryRequeued(id, reason, at) => attempt := Construct(RequeuedRecord(id, reason, at));
      case CoreRecoveryAdmitted(_, _, _) => attempt := RecoveryAdmitted(source);
      case FirstComputeObserved(_, _, _, _, _, _) => attempt := FirstCompute(source);
      case Unsupported => attempt := Raised;
    }

    method DisableEvidenceForCapacity()
      modifies this
      ensures Abstract() == DisableForCapacity(old(Abstract()))
    {
      evidenceValid := false;
      counters := counters.(capacityDropped := counters.capacityDropped + 1);
    }

    method TransferSubmitted(source: Source) returns (attempt: Attempt)
      requires source.CoreTransferSubmitted?
      modifies this
      ensures (Abstract(), attempt) == HandleSubmitted(old(Abstract()), source)
    {
      if source.transfer in pending || source.transfer in completedRestores {
        return Raised;
      }
      if |pending| >= config.maxTransfers {
        DisableEvidenceForCapacity();
        return Dropped;
      }
      var p := Pending(source.identity, source.operation, source.blockCount, source.observedAtNs);
      pending := pending[source.transfer := p];
      attempt := Construct(StartedRecord(source.transfer, p));
    }

    method TransferCompleted(source: Source) returns (attempt: Attempt)
      requires source.CoreTransferCompleted?
      modifies this
      ensures (Abstract(), attempt) == HandleCompleted(old(Abstract()), source)
    {
      var t, at := source.transfer, source.observedAtNs;
      if t !in pending || at < pending[t].observedAtNs {
        return Raised;
      }
      var p := pending[t];
      if p.operation.D2H_PRESERVE? && at == p.observedAtNs {
        return Raised;
      }
      if !source.success {
        if source.bytesMoved.Some? || source.receipt.Some? {
          return Raised;
        }
        pending := pending - {t};
        return Construct(FailedRecord(t, p, at));
      }
      if source.bytesMoved.None? {
        return Raised;
      }
      var duration := at - p.observedAtNs;
      if p.operation.H2D_RESTORE? {
        if duration == 0 || source.receipt.None? {
          return Raised;
        }
        if config.retain && |completedRestores| >= config.maxTransfers {
          pending := pending - {t};
          DisableEvidenceForCapacity();
          return Dropped;
        }
        attempt := Construct(RestoredRecord(t, p, at, source.receipt.value, source.bytesMoved.value,
                                            source.deviceDurationNs));
        if attempt.Raised? {
          return;
        }
        if config.retain {
          completedRestores := completedRestores[t := CompletedRestore(p.identity, source.receipt.value, at)];
        }
      } else {
        if duration == 0 || source.receipt.Some? {
          return Raised;
        }
        attempt := Construct(PreservedRecord(t, p, at, source.bytesMoved.value, source.deviceDurationNs));
        if attempt.Raised? {
          return;
        }
      }
      pending := pending - {t};
    }

    method TransferCancelled(source: Source) returns (attempt: Attempt)
      requires source.CoreTransferCancelled?
      modifies this
      ensures (Abstract(), attempt) == HandleCancelled(old(Abstract()), source)
    {
      var t, at := source.transfer, source.observedAtNs;
      if t !in pending || at < pending[t].observedAtNs {
        return Raised;
      }
      var p := pending[t];
      pending := pending - {t};
      attempt := Construct(CancelledRecord(t, p, at, source.reason));
    }

    method RecoveryAdmitted(source: Source) returns (attempt: Attempt)
      requires source.CoreRecoveryAdmitted?
      modifies this
      ensures (Abstract(), attempt) == HandleAdmitted(old(Abstract()), source)
    {
      if source.identity.recoveryEpoch.None? || source.identity in admissions {
        return Raised;
      }
      if |admissions| >= config.maxAdmissions {
        DisableEvidenceForCapacity();
        return Dropped;
      }
      var i := 0;
      while i < |source.transfers|
        invariant 0 <= i <= |source.transfers|
        invariant forall j :: 0 <= j < i ==>
            Restored(completedRestores, source.transfers[j], source.identity, source.observedAtNs)
        invariant Abstract() == old(Abstract())
      {
        if !Restored(completedRestores, source.transfers[i], source.identity, source.observedAtNs) {
          return Raised;
        }
        i := i + 1;
      }
      var a := Admission(source.transfers, source.observedAtNs);
      admissions := admissions[source.identity := a];
      attempt := Construct(AdmittedRecord(source.identity, a));
    }

    method FirstCompute(source: Source) returns (attempt: Attempt)
      requires source.FirstComputeObserved?
      modifies this
      ensures (Abstract(), attempt) == HandleFirstCompute(old(Abstract()), source)
    {
      if ComputeMismatch(State(config, pending, completedRestores, admissions, counters, evidenceValid, closed),
                         source) {
        evidenceValid := false;
        return Raised;
      }
      attempt := Construct(ComputeRecord(source.identity, source.computeReceipt, source.transfers, source.computeKind,
                                         source.observedAtNs));
      if attempt.Raised? {
        return;
      }
      admissions := admissions - {source.identity};
      var i := 0;
      while i < |source.transfers|
        invariant 0 <= i <= |source.transfers|
        invariant completedRestores == old(completedRestores) - ToSet(source.transfers[..i])
        invariant Abstract().(completed := old(completedRestores)) == old(Abstract()).(admissions := admissions)
        invariant admissions == old(admissions) - {source.identity}
      {
        assert ToSet(source.transfers[..i + 1]) == ToSet(source.transfers[..i]) + {source.transfers[i]};
        completedRestores := completedRestores - {source.transfers[i]};
        i := i + 1;
      }
      assert source.transfers[..i] == source.transfers;
    }

    method Close()
      modifies this
      ensures Abstract() == CloseState(old(Abstract()))
    {
      if closed {
        return;
      }
      closed := true;
      pending, completedRestores, admissions := map[], map[], map[];
    }
  }
}
