/** Closed records of the host's cross-process recovery seam. */
module Correlated {
  import opened Basics
  import opened Schema

  const MAX_CORRELATED_ROSTER := 4096

  function ZeroUuid(): (s: string)
    ensures IsProcessUuid(s)
  {
    seq(32, _ => '0')
  }

  type Uuid = s: string | IsProcessUuid(s) witness ZeroUuid()

  datatype WorkerReceipt = WorkerReceipt(rank: uint32, workerGeneration: Uuid)

  predicate WorkerLess(a: WorkerReceipt, b: WorkerReceipt) {
    a.rank < b.rank || (a.rank == b.rank && StringLess(a.workerGeneration, b.workerGeneration))
  }

  predicate WorkersLess(a: seq<WorkerReceipt>, b: seq<WorkerReceipt>) {
    b != [] && (a == [] || WorkerLess(a[0], b[0]) || (a[0] == b[0] && WorkersLess(a[1..], b[1..])))
  }

  /** Sorted and unique, with no rank twice. */
  predicate ExactWorkers(ws: seq<WorkerReceipt>) {
    && |ws| <= MAX_CORRELATED_ROSTER
    && (forall i, j :: 0 <= i < j < |ws| ==> WorkerLess(ws[i], ws[j]))
    && (forall i, j :: 0 <= i < j < |ws| ==> ws[i].rank != ws[j].rank)
  }

  datatype JobReceipt = JobReceipt(jobId: uint64, workers: seq<WorkerReceipt>) {
    predicate Valid() { workers != [] && ExactWorkers(workers) }
  }

  predicate JobLess(a: JobReceipt, b: JobReceipt) {
    a.jobId < b.jobId || (a.jobId == b.jobId && WorkersLess(a.workers, b.workers))
  }

  function WorkerTotal(jobs: seq<JobReceipt>): nat {
    if jobs == [] then 0 else WorkerTotal(jobs[..|jobs| - 1]) + |jobs[|jobs| - 1].workers|
  }

  /** Sorted and unique, with no job twice, and bounded in all. */
  predicate ExactRoster(jobs: seq<JobReceipt>) {
    && |jobs| <= MAX_CORRELATED_ROSTER
    && (forall i :: 0 <= i < |jobs| ==> jobs[i].Valid())
    && (forall i, j :: 0 <= i < j < |jobs| ==> JobLess(jobs[i], jobs[j]))
    && (forall i, j :: 0 <= i < j < |jobs| ==> jobs[i].jobId != jobs[j].jobId)
    && WorkerTotal(jobs) <= MAX_CORRELATED_ROSTER
  }

  datatype CorrelatedEvent =
    | RECOVERY_REQUEUED
    | RESTORE_SUBMITTED
    | RESTORE_COMPLETED
    | TRANSFER_RECEIPT
    | RECOVERY_ADMITTED
    | FIRST_COMPUTE

  datatype CorrelatedHostObservation = CorrelatedHostObservation(
    event: CorrelatedEvent,
    schedulerGeneration: Uuid,
    requestId: RequestId,
    recoveryEpoch: RecoveryEpoch,
    observedAtNs: int,
    jobId: Option<uint64>,
    rank: Option<uint32>,
    workerGeneration: Option<Uuid>,
    blockCount: Option<uint32>,
    workers: seq<WorkerReceipt>,
    roster: seq<JobReceipt>,
    computeKind: Option<string>)
  {
    /** Exactly the fields of the event are populated. */
    predicate ShapeMatches() {
      && jobId.Some? == (event.RESTORE_SUBMITTED? || event.RESTORE_COMPLETED? || event.TRANSFER_RECEIPT?)
      && rank.Some? == IsWorkerEvent()
      && workerGeneration.Some? == IsWorkerEvent()
      && blockCount.Some? == event.RESTORE_SUBMITTED?
      && (workers != []) == event.TRANSFER_RECEIPT?
      && (roster != []) == (event.RECOVERY_ADMITTED? || event.FIRST_COMPUTE?)
      && computeKind.Some? == event.FIRST_COMPUTE?
    }

    /** Worker processes stamp these events; the scheduler stamps the others. */
    predicate IsWorkerEvent() { event.RESTORE_SUBMITTED? || event.RESTORE_COMPLETED? || event.FIRST_COMPUTE? }

    predicate Valid() {
      && IsUint64(observedAtNs)
      && (blockCount.Some? ==> blockCount.value > 0)
      && ExactWorkers(workers)
      && ExactRoster(roster)
      && ShapeMatches()
      && (computeKind.Some? ==> computeKind.value == "prefill" || computeKind.value == "decode")
    }
  }

  // ----- rosters are canonical -----

  lemma WorkersByRank(ws: seq<WorkerReceipt>)
    requires ExactWorkers(ws)
    ensures forall i, j :: 0 <= i < j < |ws| ==> ws[i].rank < ws[j].rank
  {
    assert forall i, j :: 0 <= i < j < |ws| ==> WorkerLess(ws[i], ws[j]);
  }

  lemma JobsById(jobs: seq<JobReceipt>)
    requires ExactRoster(jobs)
    ensures forall i, j :: 0 <= i < j < |jobs| ==> jobs[i].jobId < jobs[j].jobId
  {
    assert forall i, j :: 0 <= i < j < |jobs| ==> JobLess(jobs[i], jobs[j]);
  }

  predicate Increasing<T>(s: seq<T>, key: T -> int) {
    forall i, j :: 0 <= i < j < |s| ==> key(s[i]) < key(s[j])
  }

  /** Dropping the last element of an increasing sequence drops exactly that element of its set. */
  lemma ButLast<T>(s: seq<T>, key: T -> int)
    requires Increasing(s, key) && s != []
    ensures ToSet(s[..|s| - 1]) == ToSet(s) - {s[|s| - 1]}
    ensures Increasing(s[..|s| - 1], key)
    ensures s[|s| - 1] in ToSet(s)
    ensures forall x :: x in ToSet(s) ==> key(x) <= key(s[|s| - 1])
  {
    var n := |s| - 1;
    assert s == s[..n] + [s[n]];
    forall x | x in s[..n] ensures key(x) < key(s[n]) {
      var i :| 0 <= i < n && s[i] == x;
    }
  }

  /** Increasing sequences with the same elements are the same sequence. */
  lemma {:induction false} IncreasingDetermined<T>(a: seq<T>, b: seq<T>, key: T -> int)
    requires Increasing(a, key) && Increasing(b, key) && ToSet(a) == ToSet(b)
    ensures a == b
    decreases |a|
  {
    if a == [] || b == [] {
      EmptyToSet(a);
      EmptyToSet(b);
    } else {
      hide ToSet;
      hide Increasing;
      ButLast(a, key);
      ButLast(b, key);
      LastAgrees(a, b, key);
      IncreasingDetermined(a[..|a| - 1], b[..|b| - 1], key);
      assert a == a[..|a| - 1] + [a[|a| - 1]] && b == b[..|b| - 1] + [b[|b| - 1]];
    }
  }

  lemma EmptyToSet<T>(s: seq<T>)
    ensures ToSet(s) == {} <==> s == []
  {
    if s != [] { assert s[0] in ToSet(s); }
  }

  lemma LastAgrees<T>(a: seq<T>, b: seq<T>, key: T -> int)
    requires Increasing(a, key) && Increasing(b, key) && ToSet(a) == ToSet(b) && a != [] && b != []
    ensures a[|a| - 1] == b[|b| - 1]
  {
    ButLast(a, key);
    ButLast(b, key);
    var y := b[|b| - 1];
    assert y in a;
    LastUnique(a, key, y);
  }

  lemma LastUnique<T>(s: seq<T>, key: T -> int, y: T)
    requires Increasing(s, key) && s != [] && y in s && key(y) == key(s[|s| - 1])
    ensures y == s[|s| - 1]
  {
    var i :| 0 <= i < |s| && s[i] == y;
  }

  /** Two exact worker tuples with the same workers are the same tuple. */
  lemma SameWorkersSameTuple(a: seq<WorkerReceipt>, b: seq<WorkerReceipt>)
    requires ExactWorkers(a) && ExactWorkers(b) && ToSet(a) == ToSet(b)
    ensures a == b
  {
    WorkersByRank(a);
    WorkersByRank(b);
    IncreasingDetermined(a, b, (w: WorkerReceipt) => w.rank);
  }

  /** Two exact rosters with the same jobs are the same roster. */
  lemma SameJobsSameRoster(a: seq<JobReceipt>, b: seq<JobReceipt>)
    requires ExactRoster(a) && ExactRoster(b) && ToSet(a) == ToSet(b)
    ensures a == b
  {
    JobsById(a);
    JobsById(b);
    IncreasingDetermined(a, b, (j: JobReceipt) => j.jobId);
  }
}
