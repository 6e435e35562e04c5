/** Descriptor inventories: their closed rules, their JSON objects, and the way back. */
module DescriptorPayload {
  import opened Basics
  import opened Schema
  import opened Json
  import O = ObservationPayload

  const MAX_DESCRIPTOR_REGIONS := 4096
  const DESCRIPTOR_SCHEMA := "vllm-hust.kv-transfer-descriptor-layout.v2"

  datatype EvidenceLabel = EXISTING_SERVER_PROBE | REAL_ONLINE | REPLAY | SIMULATION_MODEL

  function LabelText(x: EvidenceLabel): string {
    match x
    case EXISTING_SERVER_PROBE => "existing-server-probe"
    case REAL_ONLINE => "real-online"
    case REPLAY => "replay"
    case SIMULATION_MODEL => "simulation/model"
  }

  function LabelOf(s: string): (r: Option<EvidenceLabel>)
    ensures r.Some? ==> LabelText(r.value) == s
  {
    if s == "existing-server-probe" then Some(EXISTING_SERVER_PROBE)
    else if s == "real-online" then Some(REAL_ONLINE)
    else if s == "replay" then Some(REPLAY)
    else if s == "simulation/model" then Some(SIMULATION_MODEL)
    else None
  }

  lemma LabelOfText(x: EvidenceLabel)
    ensures LabelOf(LabelText(x)) == Some(x)
  {
    match x
    case EXISTING_SERVER_PROBE =>
    case REAL_ONLINE =>
    case REPLAY =>
    case SIMULATION_MODEL =>
  }

  /** One region-relative copy; it carries no address. */
  datatype DescriptorRegion = DescriptorRegion(
    srcOffset: int, dstOffset: int, size: int, direction: TransferDirection, srcRegionId: int, dstRegionId: int)
  {
    predicate Valid() {
      && IsUint64(srcOffset) && IsUint64(dstOffset) && 0 < size <= UINT64_MAX
      && IsUint32(srcRegionId) && IsUint32(dstRegionId)
    }
  }

  datatype DescriptorInventory = DescriptorInventory(
    identity: ObservationIdentity, transfer: TransferIdentity, jobId: int, direction: TransferDirection,
    regions: seq<DescriptorRegion>, observedAtNs: int)
  {
    predicate Valid() {
      && IsUint64(jobId) && IsUint64(observedAtNs)
      && 0 < |regions| <= MAX_DESCRIPTOR_REGIONS
      && RegionsValid()
      && (forall i :: 0 <= i < |regions| ==> regions[i].direction == direction)
    }

    predicate RegionsValid() { forall i :: 0 <= i < |regions| ==> ValidRegion(regions[i]) }
  }

  predicate ValidRegion(r: DescriptorRegion) { r.Valid() }

  // ----- regions -----

  const REGION_NAMES := {DIRECTION, DST_REGION_ID, DST_OFFSET, SIZE, SRC_REGION_ID, SRC_OFFSET}

  function RegionField(r: DescriptorRegion, n: Name): Option<Json> {
    match n
    case DIRECTION => Some(JStr(O.DirectionText(r.direction)))
    case DST_REGION_ID => Some(JInt(r.dstRegionId))
    case DST_OFFSET => Some(JInt(r.dstOffset))
    case SIZE => Some(JInt(r.size))
    case SRC_REGION_ID => Some(JInt(r.srcRegionId))
    case SRC_OFFSET => Some(JInt(r.srcOffset))
    case _ => None
  }

  function RegionJson(r: DescriptorRegion): Json { Object(n => RegionField(r, n)) }

  function ReadDirection(j: Json): Option<TransferDirection> { O.ReadText(j, O.DirectionOf) }

  /** A region is checked when it is built; a missing or an extra field refuses it. */
  function ReadRegion(j: Json): Option<DescriptorRegion> {
    if !j.JObj? || j.fields.Keys != Texts(REGION_NAMES) then None
    else
      var srcOffset :- O.Required(At(j.fields, SRC_OFFSET), O.ReadInt);
      var dstOffset :- O.Required(At(j.fields, DST_OFFSET), O.ReadInt);
      var size :- O.Required(At(j.fields, SIZE), O.ReadInt);
      var direction :- O.Required(At(j.fields, DIRECTION), ReadDirection);
      var srcRegionId :- O.Required(At(j.fields, SRC_REGION_ID), O.ReadInt);
      var dstRegionId :- O.Required(At(j.fields, DST_REGION_ID), O.ReadInt);
      var r := DescriptorRegion(srcOffset, dstOffset, size, direction, srcRegionId, dstRegionId);
      if r.Valid() then Some(r) else None
  }

  lemma DirectionReads(d: TransferDirection)
    ensures ReadDirection(JStr(O.DirectionText(d))) == Some(d)
  {
    O.DirectionOfText(d);
  }

  lemma RegionAccepted(j: Json, r: DescriptorRegion)
    requires ReadRegion(j) == Some(r)
    ensures r.Valid() && j == RegionJson(r)
  {
    hide Text;
    hide Texts;
    hide At;
    hide DescriptorRegion.Valid;
    hide O.DirectionText;
    ObjectIs(n => RegionField(r, n), REGION_NAMES, j);
  }

  lemma RegionReadsBack(r: DescriptorRegion)
    requires r.Valid()
    ensures ReadRegion(RegionJson(r)) == Some(r)
  {
    hide Text;
    hide Texts;
    hide At;
    hide DescriptorRegion.Valid;
    hide ReadDirection;
    hide O.DirectionText;
    DirectionReads(r.direction);
    ObjectKeys(n => RegionField(r, n), REGION_NAMES);
  }

  function RegionJsons(rs: seq<DescriptorRegion>): seq<Json> { WriteAll(rs, RegionJson) }

  lemma RegionsExact(items: seq<Json>, rs: seq<DescriptorRegion>)
    ensures ReadAll(items, ReadRegion) == Some(rs) <==>
      (forall i :: 0 <= i < |rs| ==> ValidRegion(rs[i])) && items == RegionJsons(rs)
  {
    hide ReadRegion;
    hide RegionJson;
    hide DescriptorRegion.Valid;
    forall j, r ensures ReadRegion(j) == Some(r) <==> ValidRegion(r) && j == RegionJson(r) {
      if ReadRegion(j) == Some(r) { RegionAccepted(j, r); }
      if r.Valid() { RegionReadsBack(r); }
    }
    hide ValidRegion;
    ArrayExact(items, rs, ReadRegion, RegionJson, ValidRegion);
  }

  /** Appends one checked region for every value of the array. */
  method RegionsFromArray(items: seq<Json>) returns (regions: Option<seq<DescriptorRegion>>)
    ensures regions == ReadAll(items, ReadRegion)
  {
    hide ReadRegion;
    var read: seq<DescriptorRegion> := [];
    for i := 0 to |items|
      invariant ReadAll(items[..i], ReadRegion) == Some(read)
    {
      assert items[..i + 1][..i] == items[..i];
      var r := ReadRegion(items[i]);
      if r.None? {
        StuckAt(items, ReadRegion, i + 1);
        return None;
      }
      read := read + [r.value];
    }
    assert items[..|items|] == items;
    regions := Some(read);
  }

  // ----- inventories -----

  const INVENTORY_NAMES :=
    {DESCRIPTORS, DIRECTION, EVIDENCE_LABEL, IDENTITY, JOB_ID, OBSERVED_AT_NS, SCHEMA, TRANSFER_ID}

  function InventoryField(o: DescriptorInventory, evidence: EvidenceLabel, n: Name): Option<Json> {
    match n
    case DESCRIPTORS => Some(JArr(RegionJsons(o.regions)))
    case DIRECTION => Some(JStr(O.DirectionText(o.direction)))
    case EVIDENCE_LABEL => Some(JStr(LabelText(evidence)))
    case IDENTITY => Some(O.IdentityJson(o.identity))
    case JOB_ID => Some(JInt(o.jobId))
    case OBSERVED_AT_NS => Some(JInt(o.observedAtNs))
    case SCHEMA => Some(JStr(DESCRIPTOR_SCHEMA))
    case TRANSFER_ID => Some(JStr(o.transfer.value))
    case _ => None
  }

  function ToPayload(o: DescriptorInventory, evidence: EvidenceLabel): Json {
    Object(n => InventoryField(o, evidence, n))
  }

  function ReadRegions(j: Json): Option<seq<DescriptorRegion>> {
    if j.JArr? then ReadAll(j.items, ReadRegion) else None
  }

  function ReadLabel(j: Json): Option<EvidenceLabel> { O.ReadText(j, LabelOf) }

  function ReadFields(f: map<string, Json>): Option<(DescriptorInventory, EvidenceLabel)> {
    var regions :- O.Required(At(f, DESCRIPTORS), ReadRegions);
    var identity :- O.Required(At(f, IDENTITY), O.ReadIdentity);
    var transfer :- O.Required(At(f, TRANSFER_ID), O.ReadTransfer);
    var jobId :- O.Required(At(f, JOB_ID), O.ReadInt);
    var direction :- O.Required(At(f, DIRECTION), ReadDirection);
    var at :- O.Required(At(f, OBSERVED_AT_NS), O.ReadInt);
    var evidence :- O.Required(At(f, EVIDENCE_LABEL), ReadLabel);
    Some((DescriptorInventory(identity, transfer, jobId, direction, regions, at), evidence))
  }

  /** The inventory alone is returned; its label is checked and then forgotten. */
  function FromPayload(payload: Json): Option<DescriptorInventory> {
    if !payload.JObj? || payload.fields.Keys != Texts(INVENTORY_NAMES) then None
    else if At(payload.fields, SCHEMA) != Some(JStr(DESCRIPTOR_SCHEMA)) then None
    else
      var (o, evidence) :- ReadFields(payload.fields);
      if o.Valid() && ToPayload(o, evidence) == payload then Some(o) else None
  }

  lemma LabelReads(evidence: EvidenceLabel)
    ensures ReadLabel(JStr(LabelText(evidence))) == Some(evidence)
  {
    LabelOfText(evidence);
  }

  lemma RegionsReadBack(rs: seq<DescriptorRegion>)
    requires forall i :: 0 <= i < |rs| ==> ValidRegion(rs[i])
    ensures ReadRegions(JArr(RegionJsons(rs))) == Some(rs)
  {
    hide RegionJsons;
    hide ValidRegion;
    RegionsExact(RegionJsons(rs), rs);
  }

  lemma PartsReadBack(o: DescriptorInventory, evidence: EvidenceLabel)
    requires o.RegionsValid()
    ensures O.Required(InventoryField(o, evidence, DESCRIPTORS), ReadRegions) == Some(o.regions)
    ensures O.Required(InventoryField(o, evidence, IDENTITY), O.ReadIdentity) == Some(o.identity)
    ensures O.Required(InventoryField(o, evidence, TRANSFER_ID), O.ReadTransfer) == Some(o.transfer)
    ensures O.Required(InventoryField(o, evidence, DIRECTION), ReadDirection) == Some(o.direction)
    ensures O.Required(InventoryField(o, evidence, EVIDENCE_LABEL), ReadLabel) == Some(evidence)
  {
    hide ReadRegions;
    hide RegionJsons;
    hide ReadDirection;
    hide ReadLabel;
    hide LabelText;
    hide O.ReadIdentity;
    hide O.IdentityJson;
    hide O.DirectionText;
    hide IsScopedId;
    hide ValidRegion;
    RegionsReadBack(o.regions);
    O.IdentityExact(O.IdentityJson(o.identity), o.identity);
    DirectionReads(o.direction);
    LabelReads(evidence);
  }

  lemma NumbersReadBack(o: DescriptorInventory, evidence: EvidenceLabel)
    ensures O.Required(InventoryField(o, evidence, JOB_ID), O.ReadInt) == Some(o.jobId)
    ensures O.Required(InventoryField(o, evidence, OBSERVED_AT_NS), O.ReadInt) == Some(o.observedAtNs)
  {
  }

  lemma FieldsReadBack(o: DescriptorInventory, evidence: EvidenceLabel)
    requires o.RegionsValid()
    ensures ReadFields(ToPayload(o, evidence).fields) == Some((o, evidence))
  {
    hide At;
    hide InventoryField;
    hide O.Required;
    PartsReadBack(o, evidence);
    NumbersReadBack(o, evidence);
  }

  lemma PayloadShape(o: DescriptorInventory, evidence: EvidenceLabel)
    ensures ToPayload(o, evidence).JObj? && ToPayload(o, evidence).fields.Keys == Texts(INVENTORY_NAMES)
    ensures At(ToPayload(o, evidence).fields, SCHEMA) == Some(JStr(DESCRIPTOR_SCHEMA))
  {
    hide Texts;
    hide At;
    ObjectKeys(n => InventoryField(o, evidence, n), INVENTORY_NAMES);
  }

  /** A payload is accepted exactly when it is the payload of a valid inventory under some evidence label. */
  lemma PayloadExact(payload: Json, o: DescriptorInventory)
    ensures FromPayload(payload) == Some(o) <==> o.Valid() && exists evidence :: payload == ToPayload(o, evidence)
  {
    hide ReadFields;
    hide ToPayload;
    hide Texts;
    if FromPayload(payload) == Some(o) {
      assert payload == ToPayload(o, ReadFields(payload.fields).value.1);
    }
    if o.Valid() {
      if evidence :| payload == ToPayload(o, evidence) {
        Accepted(o, evidence);
      }
    }
  }

  lemma Accepted(o: DescriptorInventory, evidence: EvidenceLabel)
    requires o.Valid()
    ensures FromPayload(ToPayload(o, evidence)) == Some(o)
  {
    FieldsReadBack(o, evidence);
    PayloadShape(o, evidence);
    hide ReadFields;
    hide ToPayload;
    hide Texts;
    hide At;
    hide DescriptorInventory.Valid;
  }

  /** A payload determines the valid inventory and its label. */
  lemma PayloadInjective(o: DescriptorInventory, evidence: EvidenceLabel, o': DescriptorInventory,
                         evidence': EvidenceLabel)
    requires o.Valid() && o'.Valid() && ToPayload(o, evidence) == ToPayload(o', evidence')
    ensures o == o' && evidence == evidence'
  {
    hide ReadFields;
    hide ToPayload;
    FieldsReadBack(o, evidence);
    FieldsReadBack(o', evidence');
  }
}
