/** Canonical observation records and the closed rules their constructors enforce. */
module Schema {
  import opened Basics

  const MAX_RUNTIME_REQUEST_ID_BYTES := 128
  const MAX_TRANSFER_ASSOCIATIONS := 4096

  datatype ObservationEvent =
    | PRESERVE_STARTED
    | PRESERVE_COMPLETED
    | TRANSFER_STARTED
    | TRANSFER_COMPLETED
    | TRANSFER_FAILED
    | TRANSFER_CANCELLED
    | RESTORE_STARTED
    | RESTORE_COMPLETED
    | RECOVERY_REQUEUED
    | RECOVERY_ADMITTED
    | FIRST_COMPUTE

  datatype TransferDirection = D2H | H2D

  datatype ComputeKind = PREFILL | DECODE

  datatype RecoveryRequeueReason =
    LORA_CAPACITY | PREFILL_THROTTLED | TOKEN_BUDGET | ENCODER_BUDGET | BLOCK_CAPACITY | UNCLASSIFIED

  datatype TransferTerminalReason =
    | SUBMISSION_REJECTED
    | BACKEND_FAILURE
    | INVALID_MEASUREMENT
    | REQUEST_CANCELLED
    | WORKER_GENERATION_CHANGED
    | HOST_SHUTDOWN
  {
    predicate IsFailure() { SUBMISSION_REJECTED? || BACKEND_FAILURE? || INVALID_MEASUREMENT? }
    predicate IsCancellation() { !IsFailure() }
  }

  predicate PrintableAscii(s: string, maxBytes: nat) {
    0 < |s| <= maxBytes && forall i :: 0 <= i < |s| ==> ' ' <= s[i] <= '~'
  }

  // ----- process-scoped identifiers -----

  predicate IsHexDigit(c: char) { '0' <= c <= '9' || 'a' <= c <= 'f' }

  predicate IsProcessUuid(s: string) {
    |s| == 32 && forall i :: 0 <= i < |s| ==> IsHexDigit(s[i])
  }

  predicate IsDigit(c: char) { '0' <= c <= '9' }

  function DigitValue(c: char): (d: nat)
    requires IsDigit(c)
    ensures d < 10
  {
    c as int - '0' as int
  }

  predicate AllDigits(s: string) {
    forall i :: 0 <= i < |s| ==> IsDigit(s[i])
  }

  /** The numeral `0`, or up to twenty digits with no leading zero. */
  predicate IsSequenceNumeral(s: string) {
    0 < |s| <= 20 && AllDigits(s) && (s[0] == '0' ==> |s| == 1)
  }

  function NumeralValue(s: string): (n: nat)
    requires AllDigits(s)
  {
    if s == [] then 0 else NumeralValue(s[..|s| - 1]) * 10 + DigitValue(s[|s| - 1])
  }

  /** The pattern and bound that every transfer (`t`) and receipt (`k`) identifier must match. */
  predicate IsScopedId(value: string, kind: char) {
    && |value| > 35
    && IsProcessUuid(value[..32])
    && value[32..35] == [':', kind, ':']
    && IsSequenceNumeral(value[35..])
    && NumeralValue(value[35..]) <= UINT64_MAX
  }

  /** The text before the first colon; the whole text when there is none. */
  function Partition(value: string): (head: string) {
    if value == [] || value[0] == ':' then [] else [value[0]] + Partition(value[1..])
  }

  /** The first identifier of an all-zero process. */
  function ZeroId(kind: char): (v: string)
    ensures IsScopedId(v, kind)
  {
    var v := seq(32, _ => '0') + [':', kind, ':'] + ['0'];
    assert v[..32] == seq(32, _ => '0');
    assert v[32..35] == [':', kind, ':'];
    assert v[35..] == ['0'] && ['0'][..0] == [];
    v
  }

  // Identities check their text when they are built, so no value of these types is ill-formed.

  type TransferText = v: string | IsScopedId(v, 't') witness ZeroId('t')

  type ReceiptText = v: string | IsScopedId(v, 'k') witness ZeroId('k')

  datatype TransferIdentity = TransferIdentity(value: TransferText) {
    function ProcessUuid(): string { Partition(value) }
  }

  datatype ReceiptIdentity = ReceiptIdentity(value: ReceiptText) {
    function ProcessUuid(): string { Partition(value) }
  }

  type RequestId = s: string | PrintableAscii(s, MAX_RUNTIME_REQUEST_ID_BYTES) witness "r"

  type RecoveryEpoch = n: int | 0 < n <= UINT64_MAX witness 1

  datatype ObservationIdentity = ObservationIdentity(
    requestId: RequestId, workerGeneration: uint64, rank: uint32, recoveryEpoch: Option<RecoveryEpoch>)

  // ----- rosters -----

  /** A roster equals its own sorted, duplicate-free form: it is strictly increasing. */
  predicate SortedUnique(ts: seq<TransferIdentity>) {
    forall i, j :: 0 <= i < j < |ts| ==> StringLess(ts[i].value, ts[j].value)
  }

  predicate ValidAssociations(ts: seq<TransferIdentity>) {
    && |ts| <= MAX_TRANSFER_ASSOCIATIONS
    && SortedUnique(ts)
  }

  lemma SortedUniqueDistinct(ts: seq<TransferIdentity>)
    requires SortedUnique(ts)
    ensures Distinct(ts)
  {
    forall i, j | 0 <= i < j < |ts| ensures ts[i] != ts[j] {
      StringLessIrreflexive(ts[i].value);
    }
  }

  // ----- canonical observations -----

  datatype Field =
    | F_TRANSFER | F_DIRECTION | F_RECEIPT | F_ASSOCIATED | F_COMPUTE_KIND | F_REQUEUE_REASON
    | F_TERMINAL_REASON | F_BYTES | F_BLOCKS | F_DURATION

  /** The fields the closed schema demands, exactly, of each event. */
  predicate InShape(f: Field, e: ObservationEvent) {
    match e
    case PRESERVE_STARTED => f.F_TRANSFER? || f.F_DIRECTION? || f.F_BLOCKS?
    case PRESERVE_COMPLETED => f.F_TRANSFER? || f.F_DIRECTION? || f.F_BYTES? || f.F_BLOCKS? || f.F_DURATION?
    case TRANSFER_STARTED => f.F_TRANSFER? || f.F_DIRECTION? || f.F_BYTES?
    case TRANSFER_COMPLETED => f.F_TRANSFER? || f.F_DIRECTION? || f.F_BYTES? || f.F_DURATION?
    case TRANSFER_FAILED => f.F_TRANSFER? || f.F_DIRECTION? || f.F_TERMINAL_REASON?
    case TRANSFER_CANCELLED => f.F_TRANSFER? || f.F_DIRECTION? || f.F_TERMINAL_REASON?
    case RESTORE_STARTED => f.F_TRANSFER? || f.F_DIRECTION? || f.F_BLOCKS?
    case RESTORE_COMPLETED =>
      f.F_TRANSFER? || f.F_DIRECTION? || f.F_RECEIPT? || f.F_BYTES? || f.F_BLOCKS? || f.F_DURATION?
    case RECOVERY_REQUEUED => f.F_REQUEUE_REASON?
    case RECOVERY_ADMITTED => f.F_ASSOCIATED?
    case FIRST_COMPUTE => f.F_RECEIPT? || f.F_ASSOCIATED? || f.F_COMPUTE_KIND?
  }

  datatype KVTransferObservation = KVTransferObservation(
    event: ObservationEvent,
    identity: ObservationIdentity,
    observedAtNs: int,
    transfer: Option<TransferIdentity>,
    direction: Option<TransferDirection>,
    receipt: Option<ReceiptIdentity>,
    associatedTransfers: seq<TransferIdentity>,
    computeKind: Option<ComputeKind>,
    requeueReason: Option<RecoveryRequeueReason>,
    terminalReason: Option<TransferTerminalReason>,
    bytesMoved: Option<int>,
    blockCount: Option<int>,
    durationNs: Option<int>,
    deviceDurationNs: Option<int>)
  {
    predicate FieldsInRange() {
      && IsUint64(observedAtNs)
      && ValidAssociations(associatedTransfers)
      && (bytesMoved.Some? ==> 0 < bytesMoved.value <= UINT64_MAX)
      && (blockCount.Some? ==> 0 < blockCount.value <= UINT32_MAX)
      && (durationNs.Some? ==> IsUint64(durationNs.value))
      && (deviceDurationNs.Some? ==> 0 < deviceDurationNs.value <= UINT64_MAX)
    }

    /** Exactly the fields of the event's shape are populated. */
    predicate ShapeMatches() {
      && transfer.Some? == InShape(F_TRANSFER, event)
      && direction.Some? == InShape(F_DIRECTION, event)
      && receipt.Some? == InShape(F_RECEIPT, event)
      && (associatedTransfers != []) == InShape(F_ASSOCIATED, event)
      && computeKind.Some? == InShape(F_COMPUTE_KIND, event)
      && requeueReason.Some? == InShape(F_REQUEUE_REASON, event)
      && terminalReason.Some? == InShape(F_TERMINAL_REASON, event)
      && bytesMoved.Some? == InShape(F_BYTES, event)
      && blockCount.Some? == InShape(F_BLOCKS, event)
      && durationNs.Some? == InShape(F_DURATION, event)
    }

    predicate IsRecovery() { event.RECOVERY_REQUEUED? || event.RECOVERY_ADMITTED? || event.FIRST_COMPUTE? }

    predicate Valid() {
      && FieldsInRange()
      && ShapeMatches()
      && (deviceDurationNs.Some? ==>
            event.PRESERVE_COMPLETED? || event.TRANSFER_COMPLETED? || event.RESTORE_COMPLETED?)
      && (event.PRESERVE_STARTED? || event.PRESERVE_COMPLETED? ==> direction == Some(D2H))
      && (event.RESTORE_STARTED? || event.RESTORE_COMPLETED? ==> direction == Some(H2D))
      && (event.RESTORE_COMPLETED? ==> receipt.value.ProcessUuid() == transfer.value.ProcessUuid())
      && (event.TRANSFER_FAILED? ==> terminalReason.value.IsFailure())
      && (event.TRANSFER_CANCELLED? ==> terminalReason.value.IsCancellation())
      && (IsRecovery() ==> identity.recoveryEpoch.Some?)
      && (event.FIRST_COMPUTE? ==>
            forall t :: t in associatedTransfers ==> t.ProcessUuid() == receipt.value.ProcessUuid())
    }
  }

  /** A record with every optional field left at its default. */
  function Blank(event: ObservationEvent, identity: ObservationIdentity, observedAtNs: int): KVTransferObservation {
    KVTransferObservation(event, identity, observedAtNs, None, None, None, [], None, None, None, None, None, None, None)
  }
}
