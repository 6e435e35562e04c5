/** Canonical observations as JSON objects, and back. */
module ObservationPayload {
  import opened Basics
  import opened Schema
  import opened Json

  const EVENT_SCHEMA := "vllm-hust.kv-transfer-event.v2"

  // ----- enumerations by their texts -----

  function EventText(x: ObservationEvent): string {
    match x
    case PRESERVE_STARTED => "preserve_started"
    case PRESERVE_COMPLETED => "preserve_completed"
    case TRANSFER_STARTED => "transfer_started"
    case TRANSFER_COMPLETED => "transfer_completed"
    case TRANSFER_FAILED => "transfer_failed"
    case TRANSFER_CANCELLED => "transfer_cancelled"
    case RESTORE_STARTED => "restore_started"
    case RESTORE_COMPLETED => "restore_completed"
    case RECOVERY_REQUEUED => "recovery_requeued"
    case RECOVERY_ADMITTED => "recovery_admitted"
    case FIRST_COMPUTE => "first_compute"
  }

  function EventOf(s: string): (r: Option<ObservationEvent>)
    ensures r.Some? ==> EventText(r.value) == s
  {
    if s == "preserve_started" then Some(ObservationEvent.PRESERVE_STARTED)
    else if s == "preserve_completed" then Some(ObservationEvent.PRESERVE_COMPLETED)
    else if s == "transfer_started" then Some(ObservationEvent.TRANSFER_STARTED)
    else if s == "transfer_completed" then Some(ObservationEvent.TRANSFER_COMPLETED)
    else if s == "transfer_failed" then Some(ObservationEvent.TRANSFER_FAILED)
    else if s == "transfer_cancelled" then Some(ObservationEvent.TRANSFER_CANCELLED)
    else if s == "restore_started" then Some(ObservationEvent.RESTORE_STARTED)
    else if s == "restore_completed" then Some(ObservationEvent.RESTORE_COMPLETED)
    else if s == "recovery_requeued" then Some(ObservationEvent.RECOVERY_REQUEUED)
    else if s == "recovery_admitted" then Some(ObservationEvent.RECOVERY_ADMITTED)
    else if s == "first_compute" then Some(ObservationEvent.FIRST_COMPUTE)
    else None
  }

  lemma EventOfText(x: ObservationEvent)
    ensures EventOf(EventText(x)) == Some(x)
  {
    match x
    case PRESERVE_STARTED =>
    case PRESERVE_COMPLETED =>
    case TRANSFER_STARTED =>
    case TRANSFER_COMPLETED =>
    case TRANSFER_FAILED =>
    case TRANSFER_CANCELLED =>
    case RESTORE_STARTED =>
    case RESTORE_COMPLETED =>
    case RECOVERY_REQUEUED =>
    case RECOVERY_ADMITTED =>
    case FIRST_COMPUTE =>
  }

  function DirectionText(x: TransferDirection): string {
    match x
    case D2H => "d2h"
    case H2D => "h2d"
  }

  function DirectionOf(s: string): (r: Option<TransferDirection>)
    ensures r.Some? ==> DirectionText(r.value) == s
  {
    if s == "d2h" then Some(TransferDirection.D2H)
    else if s == "h2d" then Some(TransferDirection.H2D)
    else None
  }

  lemma DirectionOfText(x: TransferDirection)
    ensures DirectionOf(DirectionText(x)) == Some(x)
  {
    match x
    case D2H =>
    case H2D =>
  }

  function KindText(x: ComputeKind): string {
    match x
    case PREFILL => "prefill"
    case DECODE => "decode"
  }

  function KindOf(s: string): (r: Option<ComputeKind>)
    ensures r.Some? ==> KindText(r.value) == s
  {
    if s == "prefill" then Some(ComputeKind.PREFILL)
    else if s == "decode" then Some(ComputeKind.DECODE)
    else None
  }

  lemma KindOfText(x: ComputeKind)
    ensures KindOf(KindText(x)) == Some(x)
  {
    match x
    case PREFILL =>
    case DECODE =>
  }

  function RequeueText(x: RecoveryRequeueReason): string {
    match x
    case LORA_CAPACITY => "lora_capacity"
    case PREFILL_THROTTLED => "prefill_throttled"
    case TOKEN_BUDGET => "token_budget"
    case ENCODER_BUDGET => "encoder_budget"
    case BLOCK_CAPACITY => "block_capacity"
    case UNCLASSIFIED => "unclassified"
  }

  function RequeueOf(s: string): (r: Option<RecoveryRequeueReason>)
    ensures r.Some? ==> RequeueText(r.value) == s
  {
    if s == "lora_capacity" then Some(RecoveryRequeueReason.LORA_CAPACITY)
    else if s == "prefill_throttled" then Some(RecoveryRequeueReason.PREFILL_THROTTLED)
    else if s == "token_budget" then Some(RecoveryRequeueReason.TOKEN_BUDGET)
    else if s == "encoder_budget" then Some(RecoveryRequeueReason.ENCODER_BUDGET)
    else if s == "block_capacity" then Some(RecoveryRequeueReason.BLOCK_CAPACITY)
    else if s == "unclassified" then Some(RecoveryRequeueReason.UNCLASSIFIED)
    else None
  }

  lemma RequeueOfText(x: RecoveryRequeueReason)
    ensures RequeueOf(RequeueText(x)) == Some(x)
  {
    match x
    case LORA_CAPACITY =>
    case PREFILL_THROTTLED =>
    case TOKEN_BUDGET =>
    case ENCODER_BUDGET =>
    case BLOCK_CAPACITY =>
    case UNCLASSIFIED =>
  }

  function TerminalText(x: TransferTerminalReason): string {
    match x
    case SUBMISSION_REJECTED => "submission_rejected"
    case BACKEND_FAILURE => "backend_failure"
    case INVALID_MEASUREMENT => "invalid_measurement"
    case REQUEST_CANCELLED => "request_cancelled"
    case WORKER_GENERATION_CHANGED => "worker_generation_changed"
    case HOST_SHUTDOWN => "host_shutdown"
  }

  function TerminalOf(s: string): (r: Option<TransferTerminalReason>)
    ensures r.Some? ==> TerminalText(r.value) == s
  {
    if s == "submission_rejected" then Some(TransferTerminalReason.SUBMISSION_REJECTED)
    else if s == "backend_failure" then Some(TransferTerminalReason.BACKEND_FAILURE)
    else if s == "invalid_measurement" then Some(TransferTerminalReason.INVALID_MEASUREMENT)
    else if s == "request_cancelled" then Some(TransferTerminalReason.REQUEST_CANCELLED)
    else if s == "worker_generation_changed" then Some(TransferTerminalReason.WORKER_GENERATION_CHANGED)
    else if s == "host_shutdown" then Some(TransferTerminalReason.HOST_SHUTDOWN)
    else None
  }

  lemma TerminalOfText(x: TransferTerminalReason)
    ensures TerminalOf(TerminalText(x)) == Some(x)
  {
    match x
    case SUBMISSION_REJECTED =>
    case BACKEND_FAILURE =>
    case INVALID_MEASUREMENT =>
    case REQUEST_CANCELLED =>
    case WORKER_GENERATION_CHANGED =>
    case HOST_SHUTDOWN =>
  }

  // ----- reading single values -----

  function ReadInt(j: Json): Option<int> { if j.JInt? then Some(j.n) else None }

  function ReadText<T>(j: Json, of: string -> Option<T>): Option<T> { if j.JStr? then of(j.s) else None }

  function ReadEvent(j: Json): Option<ObservationEvent> { ReadText(j, EventOf) }

  function ReadTransfer(j: Json): Option<TransferIdentity> {
    if j.JStr? && IsScopedId(j.s, 't') then Some(TransferIdentity(j.s)) else None
  }

  function ReadReceipt(j: Json): Option<ReceiptIdentity> {
    if j.JStr? && IsScopedId(j.s, 'k') then Some(ReceiptIdentity(j.s)) else None
  }

  /** A field that may be absent; a present one must be readable. */
  function Optional<T>(field: Option<Json>, read: Json -> Option<T>): Option<Option<T>> {
    if field.None? then Some(None)
    else
      var value :- read(field.value);
      Some(Some(value))
  }

  function Required<T>(field: Option<Json>, read: Json -> Option<T>): Option<T> {
    var j :- field;
    read(j)
  }

  // ----- identities -----

  function IdentityField(id: ObservationIdentity, n: Name): Option<Json> {
    match n
    case RANK => Some(JInt(id.rank))
    case RECOVERY_EPOCH => Some(if id.recoveryEpoch.Some? then JInt(id.recoveryEpoch.value) else JNull)
    case REQUEST_ID => Some(JStr(id.requestId))
    case WORKER_GENERATION => Some(JInt(id.workerGeneration))
    case _ => None
  }

  function IdentityJson(id: ObservationIdentity): Json { Object(n => IdentityField(id, n)) }

  function ReadRank(j: Json): Option<uint32> { if j.JInt? && IsUint32(j.n) then Some(j.n) else None }

  function ReadUint64(j: Json): Option<uint64> { if j.JInt? && IsUint64(j.n) then Some(j.n) else None }

  function ReadRequestId(j: Json): Option<RequestId> {
    if j.JStr? && PrintableAscii(j.s, MAX_RUNTIME_REQUEST_ID_BYTES) then Some(j.s) else None
  }

  function ReadEpoch(j: Json): Option<Option<RecoveryEpoch>> {
    if j.JNull? then Some(None)
    else if j.JInt? && 0 < j.n <= UINT64_MAX then Some(Some(j.n))
    else None
  }

  const IDENTITY_NAMES := {REQUEST_ID, WORKER_GENERATION, RANK, RECOVERY_EPOCH}

  /** Exactly the four fields, each of its type and in its range. */
  function ReadIdentity(j: Json): Option<ObservationIdentity> {
    if !j.JObj? || j.fields.Keys != Texts(IDENTITY_NAMES) then None
    else
      var requestId :- Required(At(j.fields, REQUEST_ID), ReadRequestId);
      var generation :- Required(At(j.fields, WORKER_GENERATION), ReadUint64);
      var rank :- Required(At(j.fields, RANK), ReadRank);
      var epoch :- Required(At(j.fields, RECOVERY_EPOCH), ReadEpoch);
      Some(ObservationIdentity(requestId, generation, rank, epoch))
  }

  lemma IdentityAccepted(j: Json, id: ObservationIdentity)
    requires ReadIdentity(j) == Some(id)
    ensures j == IdentityJson(id)
  {
    hide Text;
    hide Texts;
    hide At;
    hide PrintableAscii;
    forall n | n in IDENTITY_NAMES ensures At(j.fields, n) == IdentityField(id, n) {
    }
    ObjectIs(n => IdentityField(id, n), IDENTITY_NAMES, j);
  }

  lemma IdentityReadsBack(id: ObservationIdentity)
    ensures ReadIdentity(IdentityJson(id)) == Some(id)
  {
    hide Text;
    hide Texts;
    hide At;
    hide PrintableAscii;
    ObjectKeys(n => IdentityField(id, n), IDENTITY_NAMES);
  }

  /** An identity is read back from its own object, and from no other. */
  lemma IdentityExact(j: Json, id: ObservationIdentity)
    ensures ReadIdentity(j) == Some(id) <==> j == IdentityJson(id)
  {
    hide ReadIdentity;
    hide IdentityJson;
    if ReadIdentity(j) == Some(id) { IdentityAccepted(j, id); }
    IdentityReadsBack(id);
  }

  // ----- rosters -----

  function TransferJson(t: TransferIdentity): Json { JStr(t.value) }

  function TransferJsons(ts: seq<TransferIdentity>): seq<Json> { WriteAll(ts, TransferJson) }

  function ReadTransfers(items: seq<Json>): Option<seq<TransferIdentity>> { ReadAll(items, ReadTransfer) }

  lemma TransfersExact(items: seq<Json>, ts: seq<TransferIdentity>)
    ensures ReadTransfers(items) == Some(ts) <==> items == TransferJsons(ts)
  {
    hide IsScopedId;
    assert Inverse(ReadTransfer, TransferJson, (t: TransferIdentity) => true);
    ArrayExact(items, ts, ReadTransfer, TransferJson, (t: TransferIdentity) => true);
  }

  // ----- observations -----

  function IntField(x: Option<int>): Option<Json> { if x.Some? then Some(JInt(x.value)) else None }

  function TextField<T>(x: Option<T>, text: T -> string): Option<Json> {
    if x.Some? then Some(JStr(text(x.value))) else None
  }

  /** The value of each field; a field without one is left out of the object. */
  function ObservationField(o: KVTransferObservation, n: Name): Option<Json> {
    match n
    case SCHEMA => Some(JStr(EVENT_SCHEMA))
    case EVENT => Some(JStr(EventText(o.event)))
    case IDENTITY => Some(IdentityJson(o.identity))
    case OBSERVED_AT_NS => Some(JInt(o.observedAtNs))
    case TRANSFER_ID => if o.transfer.Some? then Some(JStr(o.transfer.value.value)) else None
    case DIRECTION => TextField(o.direction, DirectionText)
    case RECEIPT_ID => if o.receipt.Some? then Some(JStr(o.receipt.value.value)) else None
    case ASSOCIATED_TRANSFER_IDS =>
      if o.associatedTransfers != [] then Some(JArr(TransferJsons(o.associatedTransfers))) else None
    case COMPUTE_KIND => TextField(o.computeKind, KindText)
    case REQUEUE_REASON => TextField(o.requeueReason, RequeueText)
    case TERMINAL_REASON => TextField(o.terminalReason, TerminalText)
    case BYTES_MOVED => IntField(o.bytesMoved)
    case BLOCK_COUNT => IntField(o.blockCount)
    case DURATION_NS => IntField(o.durationNs)
    case DEVICE_DURATION_NS => IntField(o.deviceDurationNs)
    case _ => None
  }

  function ToPayload(o: KVTransferObservation): Json { Object(n => ObservationField(o, n)) }

  function ReadAssociated(field: Option<Json>): Option<seq<TransferIdentity>> {
    if field.None? then Some([])
    else if field.value.JArr? then ReadTransfers(field.value.items)
    else None
  }

  /** The record that the fields describe, before it is checked. */
  function ReadFields(f: map<string, Json>): Option<KVTransferObservation> {
    var identity :- Required(At(f, IDENTITY), ReadIdentity);
    var event :- Required(At(f, EVENT), ReadEvent);
    var at :- Required(At(f, OBSERVED_AT_NS), ReadInt);
    var direction :- Optional(At(f, DIRECTION), j => ReadText(j, DirectionOf));
    var kind :- Optional(At(f, COMPUTE_KIND), j => ReadText(j, KindOf));
    var requeue :- Optional(At(f, REQUEUE_REASON), j => ReadText(j, RequeueOf));
    var terminal :- Optional(At(f, TERMINAL_REASON), j => ReadText(j, TerminalOf));
    var transfer :- Optional(At(f, TRANSFER_ID), ReadTransfer);
    var receipt :- Optional(At(f, RECEIPT_ID), ReadReceipt);
    var associated :- ReadAssociated(At(f, ASSOCIATED_TRANSFER_IDS));
    var bytes :- Optional(At(f, BYTES_MOVED), ReadInt);
    var blocks :- Optional(At(f, BLOCK_COUNT), ReadInt);
    var duration :- Optional(At(f, DURATION_NS), ReadInt);
    var device :- Optional(At(f, DEVICE_DURATION_NS), ReadInt);
    Some(KVTransferObservation(event, identity, at, transfer, direction, receipt, associated, kind, requeue, terminal,
                               bytes, blocks, duration, device))
  }

  /** Parses by the typed schema, and refuses a payload that the parsed record would not write itself. */
  function FromPayload(payload: Json): Option<KVTransferObservation> {
    if !payload.JObj? || At(payload.fields, SCHEMA) != Some(JStr(EVENT_SCHEMA)) then None
    else
      var o :- ReadFields(payload.fields);
      if o.Valid() && ToPayload(o) == payload then Some(o) else None
  }

  lemma TextFieldReads<T>(x: Option<T>, text: T -> string, of: string -> Option<T>)
    requires x.Some? ==> of(text(x.value)) == Some(x.value)
    ensures Optional(TextField(x, text), j => ReadText(j, of)) == Some(x)
  {
  }

  lemma IntFieldReads(x: Option<int>)
    ensures Optional(IntField(x), ReadInt) == Some(x)
  {
  }

  lemma TextsReadBack(o: KVTransferObservation)
    ensures Required(ObservationField(o, EVENT), ReadEvent) == Some(o.event)
    ensures Optional(ObservationField(o, DIRECTION), j => ReadText(j, DirectionOf)) == Some(o.direction)
    ensures Optional(ObservationField(o, COMPUTE_KIND), j => ReadText(j, KindOf)) == Some(o.computeKind)
    ensures Optional(ObservationField(o, REQUEUE_REASON), j => ReadText(j, RequeueOf)) == Some(o.requeueReason)
    ensures Optional(ObservationField(o, TERMINAL_REASON), j => ReadText(j, TerminalOf)) == Some(o.terminalReason)
  {
    hide EventText;
    hide EventOf;
    hide TextField;
    hide Optional;
    hide ReadText;
    EventReads(o.event);
    if o.direction.Some? { DirectionOfText(o.direction.value); }
    if o.computeKind.Some? { KindOfText(o.computeKind.value); }
    if o.requeueReason.Some? { RequeueOfText(o.requeueReason.value); }
    if o.terminalReason.Some? { TerminalOfText(o.terminalReason.value); }
    TextFieldReads(o.direction, DirectionText, DirectionOf);
    TextFieldReads(o.computeKind, KindText, KindOf);
    TextFieldReads(o.requeueReason, RequeueText, RequeueOf);
    TextFieldReads(o.terminalReason, TerminalText, TerminalOf);
  }

  lemma EventReads(e: ObservationEvent)
    ensures Required(Some(JStr(EventText(e))), ReadEvent) == Some(e)
  {
    EventOfText(e);
    hide EventText;
    hide EventOf;
  }

  lemma IdentitiesReadBack(o: KVTransferObservation)
    ensures Required(ObservationField(o, IDENTITY), ReadIdentity) == Some(o.identity)
    ensures Optional(ObservationField(o, TRANSFER_ID), ReadTransfer) == Some(o.transfer)
    ensures Optional(ObservationField(o, RECEIPT_ID), ReadReceipt) == Some(o.receipt)
    ensures ReadAssociated(ObservationField(o, ASSOCIATED_TRANSFER_IDS)) == Some(o.associatedTransfers)
  {
    hide IdentityJson;
    hide ReadIdentity;
    hide TransferJsons;
    hide IsScopedId;
    IdentityExact(IdentityJson(o.identity), o.identity);
    TransfersExact(TransferJsons(o.associatedTransfers), o.associatedTransfers);
  }

  lemma NumbersReadBack(o: KVTransferObservation)
    ensures Required(ObservationField(o, OBSERVED_AT_NS), ReadInt) == Some(o.observedAtNs)
    ensures Optional(ObservationField(o, BYTES_MOVED), ReadInt) == Some(o.bytesMoved)
    ensures Optional(ObservationField(o, BLOCK_COUNT), ReadInt) == Some(o.blockCount)
    ensures Optional(ObservationField(o, DURATION_NS), ReadInt) == Some(o.durationNs)
    ensures Optional(ObservationField(o, DEVICE_DURATION_NS), ReadInt) == Some(o.deviceDurationNs)
  {
    hide IntField;
    hide Optional;
    IntFieldReads(o.bytesMoved);
    IntFieldReads(o.blockCount);
    IntFieldReads(o.durationNs);
    IntFieldReads(o.deviceDurationNs);
  }

  lemma FieldsReadBack(o: KVTransferObservation)
    ensures ReadFields(ToPayload(o).fields) == Some(o)
  {
    hide ObservationField;
    hide ReadIdentity;
    hide ReadAssociated;
    hide Optional;
    hide Required;
    TextsReadBack(o);
    IdentitiesReadBack(o);
    NumbersReadBack(o);
  }

  /**
   * A payload is accepted exactly when it is the payload of a valid record, for every
   * combination of optional fields, and then that record is what comes back.
   */
  lemma PayloadExact(payload: Json, o: KVTransferObservation)
    ensures FromPayload(payload) == Some(o) <==> o.Valid() && payload == ToPayload(o)
  {
    hide ReadFields;
    hide KVTransferObservation.Valid;
    FieldsReadBack(o);
    assert At(ToPayload(o).fields, SCHEMA) == Some(JStr(EVENT_SCHEMA));
    hide ToPayload;
  }

  /** Different valid records never share a payload. */
  lemma PayloadInjective(o: KVTransferObservation, o': KVTransferObservation)
    requires ToPayload(o) == ToPayload(o')
    ensures o == o'
  {
    FieldsReadBack(o);
    FieldsReadBack(o');
    hide ReadFields;
    hide ToPayload;
  }
}
