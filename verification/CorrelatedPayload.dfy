/** Correlated host records as JSON objects, and back. */
module CorrelatedPayload {
  import opened Basics
  import opened Json
  import S = Schema
  import C = Correlated
  import O = ObservationPayload

  const CORRELATED_SCHEMA := "vllm-hust.kv-transfer-correlated-host.v2"

  function EventText(x: C.CorrelatedEvent): string {
    match x
    case RECOVERY_REQUEUED => "recovery_requeued"
    case RESTORE_SUBMITTED => "restore_submitted"
    case RESTORE_COMPLETED => "restore_completed"
    case TRANSFER_RECEIPT => "transfer_receipt"
    case RECOVERY_ADMITTED => "recovery_admitted"
    case FIRST_COMPUTE => "first_compute"
  }

  function EventOf(s: string): (r: Option<C.CorrelatedEvent>)
    ensures r.Some? ==> EventText(r.value) == s
  {
    if s == "recovery_requeued" then Some(C.CorrelatedEvent.RECOVERY_REQUEUED)
    else if s == "restore_submitted" then Some(C.CorrelatedEvent.RESTORE_SUBMITTED)
    else if s == "restore_completed" then Some(C.CorrelatedEvent.RESTORE_COMPLETED)
    else if s == "transfer_receipt" then Some(C.CorrelatedEvent.TRANSFER_RECEIPT)
    else if s == "recovery_admitted" then Some(C.CorrelatedEvent.RECOVERY_ADMITTED)
    else if s == "first_compute" then Some(C.CorrelatedEvent.FIRST_COMPUTE)
    else None
  }

  lemma EventOfText(x: C.CorrelatedEvent)
    ensures EventOf(EventText(x)) == Some(x)
  {
    match x
    case RECOVERY_REQUEUED =>
    case RESTORE_SUBMITTED =>
    case RESTORE_COMPLETED =>
    case TRANSFER_RECEIPT =>
    case RECOVERY_ADMITTED =>
    case FIRST_COMPUTE =>
  }

  function ReadEvent(j: Json): Option<C.CorrelatedEvent> { O.ReadText(j, EventOf) }

  function ReadUuid(j: Json): Option<C.Uuid> { if j.JStr? && S.IsProcessUuid(j.s) then Some(j.s) else None }

  function ReadEpoch(j: Json): Option<S.RecoveryEpoch> {
    if j.JInt? && 0 < j.n <= UINT64_MAX then Some(j.n) else None
  }

  function ReadStr(j: Json): Option<string> { if j.JStr? then Some(j.s) else None }

  // ----- worker receipts -----

  const WORKER_NAMES := {RANK, WORKER_GENERATION}

  function WorkerField(w: C.WorkerReceipt, n: Name): Option<Json> {
    match n
    case RANK => Some(JInt(w.rank))
    case WORKER_GENERATION => Some(JStr(w.workerGeneration))
    case _ => None
  }

  function WorkerJson(w: C.WorkerReceipt): Json { Object(n => WorkerField(w, n)) }

  function ReadWorker(j: Json): Option<C.WorkerReceipt> {
    if !j.JObj? || j.fields.Keys != Texts(WORKER_NAMES) then None
    else
      var rank :- O.Required(At(j.fields, RANK), O.ReadRank);
      var generation :- O.Required(At(j.fields, WORKER_GENERATION), ReadUuid);
      Some(C.WorkerReceipt(rank, generation))
  }

  lemma WorkerExact(j: Json, w: C.WorkerReceipt)
    ensures ReadWorker(j) == Some(w) <==> j == WorkerJson(w)
  {
    hide Text;
    hide Texts;
    hide At;
    hide S.IsProcessUuid;
    ObjectKeys(n => WorkerField(w, n), WORKER_NAMES);
    if ReadWorker(j) == Some(w) { ObjectIs(n => WorkerField(w, n), WORKER_NAMES, j); }
  }

  predicate Any(w: C.WorkerReceipt) { true }

  function WorkerJsons(ws: seq<C.WorkerReceipt>): seq<Json> { WriteAll(ws, WorkerJson) }

  lemma WorkersExact(items: seq<Json>, ws: seq<C.WorkerReceipt>)
    ensures ReadAll(items, ReadWorker) == Some(ws) <==> items == WorkerJsons(ws)
  {
    hide ReadWorker;
    hide WorkerJson;
    forall j, w ensures ReadWorker(j) == Some(w) <==> Any(w) && j == WorkerJson(w) { WorkerExact(j, w); }
    ArrayExact(items, ws, ReadWorker, WorkerJson, Any);
  }

  // ----- job receipts -----

  const JOB_NAMES := {JOB_ID, WORKERS}

  function JobField(job: C.JobReceipt, n: Name): Option<Json> {
    match n
    case JOB_ID => Some(JInt(job.jobId))
    case WORKERS => Some(JArr(WorkerJsons(job.workers)))
    case _ => None
  }

  function JobJson(job: C.JobReceipt): Json { Object(n => JobField(job, n)) }

  function ReadWorkers(j: Json): Option<seq<C.WorkerReceipt>> { if j.JArr? then ReadAll(j.items, ReadWorker) else None }

  /** A job receipt is checked when it is built. */
  function ReadJob(j: Json): Option<C.JobReceipt> {
    if !j.JObj? || j.fields.Keys != Texts(JOB_NAMES) then None
    else
      var jobId :- O.Required(At(j.fields, JOB_ID), O.ReadUint64);
      var workers :- O.Required(At(j.fields, WORKERS), ReadWorkers);
      var job := C.JobReceipt(jobId, workers);
      if job.Valid() then Some(job) else None
  }

  predicate ValidJob(job: C.JobReceipt) { job.Valid() }

  lemma ReadWorkersExact(j: Json, ws: seq<C.WorkerReceipt>)
    ensures ReadWorkers(j) == Some(ws) <==> j == JArr(WorkerJsons(ws))
  {
    hide WorkerJsons;
    if j.JArr? { WorkersExact(j.items, ws); }
  }

  lemma JobExact(j: Json, job: C.JobReceipt)
    ensures ReadJob(j) == Some(job) <==> job.Valid() && j == JobJson(job)
  {
    hide Text;
    hide Texts;
    hide At;
    hide C.JobReceipt.Valid;
    hide ReadWorkers;
    hide WorkerJsons;
    ObjectKeys(n => JobField(job, n), JOB_NAMES);
    ReadWorkersExact(JArr(WorkerJsons(job.workers)), job.workers);
    if ReadJob(j) == Some(job) {
      ReadWorkersExact(At(j.fields, WORKERS).value, job.workers);
      ObjectIs(n => JobField(job, n), JOB_NAMES, j);
    }
  }

  function JobJsons(jobs: seq<C.JobReceipt>): seq<Json> { WriteAll(jobs, JobJson) }

  lemma JobsExact(items: seq<Json>, jobs: seq<C.JobReceipt>)
    ensures ReadAll(items, ReadJob) == Some(jobs) <==>
      (forall i :: 0 <= i < |jobs| ==> ValidJob(jobs[i])) && items == JobJsons(jobs)
  {
    hide ReadJob;
    hide JobJson;
    hide C.JobReceipt.Valid;
    forall j, job ensures ReadJob(j) == Some(job) <==> ValidJob(job) && j == JobJson(job) { JobExact(j, job); }
    hide ValidJob;
    ArrayExact(items, jobs, ReadJob, JobJson, ValidJob);
  }

  /** Appends one checked job receipt for every value of the array. */
  method RosterFromArray(items: seq<Json>) returns (roster: Option<seq<C.JobReceipt>>)
    ensures roster == ReadAll(items, ReadJob)
  {
    hide ReadJob;
    var jobs: seq<C.JobReceipt> := [];
    for i := 0 to |items|
      invariant ReadAll(items[..i], ReadJob) == Some(jobs)
    {
      assert items[..i + 1][..i] == items[..i];
      var job := ReadJob(items[i]);
      if job.None? {
        StuckAt(items, ReadJob, i + 1);
        return None;
      }
      jobs := jobs + [job.value];
    }
    assert items[..|items|] == items;
    roster := Some(jobs);
  }

  // ----- records -----

  function CorrelatedField(o: C.CorrelatedHostObservation, n: Name): Option<Json> {
    match n
    case SCHEMA => Some(JStr(CORRELATED_SCHEMA))
    case EVENT => Some(JStr(EventText(o.event)))
    case SCHEDULER_GENERATION => Some(JStr(o.schedulerGeneration))
    case REQUEST_ID => Some(JStr(o.requestId))
    case RECOVERY_EPOCH => Some(JInt(o.recoveryEpoch))
    case OBSERVED_AT_NS => Some(JInt(o.observedAtNs))
    case JOB_ID => if o.jobId.Some? then Some(JInt(o.jobId.value)) else None
    case RANK => if o.rank.Some? then Some(JInt(o.rank.value)) else None
    case WORKER_GENERATION => if o.workerGeneration.Some? then Some(JStr(o.workerGeneration.value)) else None
    case BLOCK_COUNT => if o.blockCount.Some? then Some(JInt(o.blockCount.value)) else None
    case COMPUTE_KIND => if o.computeKind.Some? then Some(JStr(o.computeKind.value)) else None
    case WORKERS => if o.workers != [] then Some(JArr(WorkerJsons(o.workers))) else None
    case ROSTER => if o.roster != [] then Some(JArr(JobJsons(o.roster))) else None
    case _ => None
  }

  function ToPayload(o: C.CorrelatedHostObservation): Json { Object(n => CorrelatedField(o, n)) }

  function ReadRoster(j: Json): Option<seq<C.JobReceipt>> { if j.JArr? then ReadAll(j.items, ReadJob) else None }

  function OrEmpty<T>(xs: Option<seq<T>>): seq<T> { if xs.Some? then xs.value else [] }

  function ReadFields(f: map<string, Json>): Option<C.CorrelatedHostObservation> {
    var event :- O.Required(At(f, EVENT), ReadEvent);
    var scheduler :- O.Required(At(f, SCHEDULER_GENERATION), ReadUuid);
    var requestId :- O.Required(At(f, REQUEST_ID), O.ReadRequestId);
    var epoch :- O.Required(At(f, RECOVERY_EPOCH), ReadEpoch);
    var at :- O.Required(At(f, OBSERVED_AT_NS), O.ReadInt);
    var jobId :- O.Optional(At(f, JOB_ID), O.ReadUint64);
    var rank :- O.Optional(At(f, RANK), O.ReadRank);
    var generation :- O.Optional(At(f, WORKER_GENERATION), ReadUuid);
    var blocks :- O.Optional(At(f, BLOCK_COUNT), O.ReadRank);
    var kind :- O.Optional(At(f, COMPUTE_KIND), ReadStr);
    var workers :- O.Optional(At(f, WORKERS), ReadWorkers);
    var roster :- O.Optional(At(f, ROSTER), ReadRoster);
    Some(C.CorrelatedHostObservation(event, scheduler, requestId, epoch, at, jobId, rank, generation, blocks,
                                     OrEmpty(workers), OrEmpty(roster), kind))
  }

  function FromPayload(payload: Json): Option<C.CorrelatedHostObservation> {
    if !payload.JObj? || At(payload.fields, SCHEMA) != Some(JStr(CORRELATED_SCHEMA)) then None
    else
      var o :- ReadFields(payload.fields);
      if o.Valid() && ToPayload(o) == payload then Some(o) else None
  }

  lemma ScalarsReadBack(o: C.CorrelatedHostObservation)
    ensures O.Required(CorrelatedField(o, EVENT), ReadEvent) == Some(o.event)
    ensures O.Required(CorrelatedField(o, SCHEDULER_GENERATION), ReadUuid) == Some(o.schedulerGeneration)
    ensures O.Required(CorrelatedField(o, REQUEST_ID), O.ReadRequestId) == Some(o.requestId)
    ensures O.Required(CorrelatedField(o, RECOVERY_EPOCH), ReadEpoch) == Some(o.recoveryEpoch)
    ensures O.Required(CorrelatedField(o, OBSERVED_AT_NS), O.ReadInt) == Some(o.observedAtNs)
  {
    EventOfText(o.event);
    hide EventText;
    hide EventOf;
    hide S.IsProcessUuid;
    hide S.PrintableAscii;
  }

  lemma OptionsReadBack(o: C.CorrelatedHostObservation)
    ensures O.Optional(CorrelatedField(o, JOB_ID), O.ReadUint64) == Some(o.jobId)
    ensures O.Optional(CorrelatedField(o, RANK), O.ReadRank) == Some(o.rank)
    ensures O.Optional(CorrelatedField(o, WORKER_GENERATION), ReadUuid) == Some(o.workerGeneration)
    ensures O.Optional(CorrelatedField(o, BLOCK_COUNT), O.ReadRank) == Some(o.blockCount)
    ensures O.Optional(CorrelatedField(o, COMPUTE_KIND), ReadStr) == Some(o.computeKind)
  {
    hide S.IsProcessUuid;
  }

  predicate JobsAreValid(o: C.CorrelatedHostObservation) { forall i :: 0 <= i < |o.roster| ==> ValidJob(o.roster[i]) }

  lemma ReadRosterBack(jobs: seq<C.JobReceipt>)
    requires forall i :: 0 <= i < |jobs| ==> ValidJob(jobs[i])
    ensures ReadRoster(JArr(JobJsons(jobs))) == Some(jobs)
  {
    hide JobJsons;
    hide ValidJob;
    JobsExact(JobJsons(jobs), jobs);
  }

  lemma RostersReadBack(o: C.CorrelatedHostObservation)
    requires JobsAreValid(o)
    ensures O.Optional(CorrelatedField(o, WORKERS), ReadWorkers)
        == Some(if o.workers == [] then None else Some(o.workers))
    ensures O.Optional(CorrelatedField(o, ROSTER), ReadRoster) == Some(if o.roster == [] then None else Some(o.roster))
  {
    hide WorkerJsons;
    hide JobJsons;
    hide ReadWorkers;
    hide ReadRoster;
    hide ReadAll;
    hide ValidJob;
    ReadWorkersExact(JArr(WorkerJsons(o.workers)), o.workers);
    ReadRosterBack(o.roster);
  }

  lemma FieldsReadBack(o: C.CorrelatedHostObservation)
    requires JobsAreValid(o)
    ensures ReadFields(ToPayload(o).fields) == Some(o)
  {
    hide CorrelatedField;
    hide O.Optional;
    hide O.Required;
    ScalarsReadBack(o);
    OptionsReadBack(o);
    RostersReadBack(o);
  }

  lemma ValidHasValidJobs(o: C.CorrelatedHostObservation)
    requires o.Valid()
    ensures JobsAreValid(o)
  {
  }

  /** A payload is accepted exactly when it is the payload of a valid record, nested rosters included. */
  lemma PayloadExact(payload: Json, o: C.CorrelatedHostObservation)
    ensures FromPayload(payload) == Some(o) <==> o.Valid() && payload == ToPayload(o)
  {
    hide ReadFields;
    if o.Valid() {
      ValidHasValidJobs(o);
      FieldsReadBack(o);
      assert At(ToPayload(o).fields, SCHEMA) == Some(JStr(CORRELATED_SCHEMA));
    }
    hide ToPayload;
    hide C.CorrelatedHostObservation.Valid;
  }

  /** Different valid records never share a payload. */
  lemma PayloadInjective(o: C.CorrelatedHostObservation, o': C.CorrelatedHostObservation)
    requires o.Valid() && o'.Valid() && ToPayload(o) == ToPayload(o')
    ensures o == o'
  {
    hide FromPayload;
    hide ToPayload;
    hide C.CorrelatedHostObservation.Valid;
    PayloadExact(ToPayload(o), o);
    PayloadExact(ToPayload(o), o');
  }

  // ----- writing -----

  /** The dictionary after the fields in `names` have been written. */
  ghost predicate Written(payload: map<string, Json>, o: C.CorrelatedHostObservation, names: set<Name>) {
    && (forall k :: k in payload ==> exists n :: k == Text(n))
    && forall n :: At(payload, n) == if n in names then CorrelatedField(o, n) else None
  }

  /** Writes a field that has a value, and nothing for one that has none. */
  method Put(payload: map<string, Json>, o: C.CorrelatedHostObservation, n: Name, ghost names: set<Name>)
    returns (r: map<string, Json>)
    requires Written(payload, o, names) && n !in names
    ensures Written(r, o, names + {n})
  {
    hide Text;
    hide CorrelatedField;
    r := if CorrelatedField(o, n).Some? then payload[Text(n) := CorrelatedField(o, n).value] else payload;
    forall m ensures At(r, m) == if m in names + {n} then CorrelatedField(o, m) else None {
      NameOfText(n);
      NameOfText(m);
      assert At(payload, m) == if m in names then CorrelatedField(o, m) else None;
    }
  }

  const REQUIRED := [SCHEMA, EVENT, SCHEDULER_GENERATION, REQUEST_ID, RECOVERY_EPOCH, OBSERVED_AT_NS]
  const OPTIONAL := [JOB_ID, RANK, WORKER_GENERATION, BLOCK_COUNT, COMPUTE_KIND]

  /** Fills the dictionary one field after the other. */
  method WritePayload(o: C.CorrelatedHostObservation) returns (payload: map<string, Json>)
    ensures JObj(payload) == ToPayload(o)
  {
    hide CorrelatedField;
    hide Text;
    payload := map[];
    ghost var names: set<Name> := {};
    var order := REQUIRED + OPTIONAL + [WORKERS, ROSTER];
    assert Distinct(order);
    for i := 0 to |order|
      invariant names == ToSet(order[..i]) && Written(payload, o, names)
    {
      NotYet(order, i);
      payload := Put(payload, o, order[i], names);
      names := names + {order[i]};
      assert order[..i + 1] == order[..i] + [order[i]];
    }
    assert order[..|order|] == order;
    NoOtherField(o);
    forall n ensures At(payload, n) == CorrelatedField(o, n) {
      assert n in names || CorrelatedField(o, n).None?;
    }
    ObjectDetermined(n => CorrelatedField(o, n), JObj(payload));
  }

  lemma NotYet<T>(order: seq<T>, i: nat)
    requires Distinct(order) && i < |order|
    ensures order[i] !in ToSet(order[..i])
  {
  }

  lemma NoOtherField(o: C.CorrelatedHostObservation)
    ensures forall n :: n !in ToSet(REQUIRED + OPTIONAL + [WORKERS, ROSTER]) ==> CorrelatedField(o, n).None?
  {
    forall n | CorrelatedField(o, n).Some? ensures n in REQUIRED + OPTIONAL + [WORKERS, ROSTER] {
      assert n in REQUIRED || n in OPTIONAL || n == WORKERS || n == ROSTER;
    }
  }
}
