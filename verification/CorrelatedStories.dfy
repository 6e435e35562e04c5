/**
 * A proven episode told job by job and worker by worker: what must have happened for each,
 * and that no more records are there than that takes.
 */
module CorrelatedStories {
  import opened Basics
  import opened Correlated
  import opened CorrelatedChain
  import opened CorrelatedResults
  import opened CorrelatedValidation

  /** The receipt of job `j`, with the job's workers, came between requeue and admission. */
  ghost predicate Delivered(cs: seq<Corr>, j: JobReceipt, q: Corr, a: Corr) {
    exists c :: c in cs && c.event.TRANSFER_RECEIPT? && c.jobId == Some(j.jobId) && c.workers == j.workers
                && q.observedAtNs < c.observedAtNs < a.observedAtNs
  }

  predicate By(c: Corr, w: WorkerReceipt) { c.rank == Some(w.rank) && c.workerGeneration == Some(w.workerGeneration) }

  /** Worker `w` was given the restore of job `j`, completed it, and then computed on the admitted roster. */
  predicate Serves(c: Corr, d: Corr, f: Corr, j: JobReceipt, w: WorkerReceipt, roster: seq<JobReceipt>) {
    && c.event.RESTORE_SUBMITTED? && d.event.RESTORE_COMPLETED? && f.event.FIRST_COMPUTE?
    && By(c, w) && By(d, w) && By(f, w) && c.jobId == d.jobId == Some(j.jobId) && f.roster == roster
    && c.observedAtNs < d.observedAtNs < f.observedAtNs
  }

  ghost predicate Served(cs: seq<Corr>, j: JobReceipt, w: WorkerReceipt, roster: seq<JobReceipt>) {
    exists c, d, f :: c in cs && d in cs && f in cs && Serves(c, d, f, j, w, roster)
  }

  /** The workers of a roster, each incarnation once. */
  function Workers(roster: seq<JobReceipt>): set<WorkerReceipt> {
    set j, w | j in roster && w in j.workers :: w
  }

  /**
   * A requeue, then an admission; every job of the admitted roster delivered in between and
   * served by each of its workers; and not one record more.
   */
  ghost predicate Story(cs: seq<Corr>, q: Corr, a: Corr) {
    && q in cs && q.event.RECOVERY_REQUEUED? && a in cs && a.event.RECOVERY_ADMITTED?
    && q.observedAtNs < a.observedAtNs
    && (forall j :: j in a.roster ==> Delivered(cs, j, q, a))
    && (forall j, w :: j in a.roster && w in j.workers ==> Served(cs, j, w, a.roster))
    && |cs| == 2 + |a.roster| + 2 * WorkerTotal(a.roster) + |Workers(a.roster)|
  }

  function Image<X, Y>(xs: set<X>, f: X -> Y): set<Y> { set x | x in xs :: f(x) }

  lemma {:induction false} InjectiveSize<X, Y>(xs: set<X>, f: X -> Y)
    requires forall x, y :: x in xs && y in xs && f(x) == f(y) ==> x == y
    ensures |Image(xs, f)| == |xs|
    decreases |xs|
  {
    if xs != {} {
      var x :| x in xs;
      InjectiveSize(xs - {x}, f);
      assert Image(xs, f) == Image(xs - {x}, f) + {f(x)};
    }
  }

  lemma WorkersCounted(roster: seq<JobReceipt>)
    ensures |ExpectedWorkers(roster)| == |Workers(roster)|
  {
    InjectiveSize(Workers(roster), KeyOfWorker);
    assert ExpectedWorkers(roster) == Image(Workers(roster), KeyOfWorker);
  }

  lemma StorySize(roster: seq<JobReceipt>)
    requires ExactRoster(roster)
    ensures EpisodeSize(roster) == 2 + |roster| + 2 * WorkerTotal(roster) + |Workers(roster)|
  {
    ExpectationSizes(roster);
    WorkersCounted(roster);
  }

  lemma TheRecord<K>(cs: seq<Corr>, e: CorrelatedEvent, key: Corr -> K, keys: set<K>, k: K) returns (c: Corr)
    requires Exactly(cs, e, key, keys) && k in keys
    ensures c in cs && c.event == e && key(c) == k
  {
    c :| c in cs && c.event == e && key(c) == k;
  }

  lemma OneRecord<K>(cs: seq<Corr>, e: CorrelatedEvent, key: Corr -> K, keys: set<K>, c: Corr, d: Corr)
    requires Exactly(cs, e, key, keys) && c in cs && d in cs && c.event == d.event == e && key(c) == key(d)
    ensures c == d
  {
    var i :| 0 <= i < |cs| && cs[i] == c;
    var k :| 0 <= k < |cs| && cs[k] == d;
  }

  // ----- a checked episode tells its story -----

  lemma DeliveredWhenChecked(cs: seq<Corr>, q: Corr, a: Corr, j: JobReceipt)
    requires CheckedEpisode(cs, q, a) && ExactRoster(a.roster) && j in a.roster
    ensures Delivered(cs, j, q, a)
  {
    hide Exactly;
    hide ExactRoster;
    var c := TheRecord(cs, TRANSFER_RECEIPT, JobOf, ExpectedJobs(a.roster), Some(j.jobId));
    assert ReceiptFits(c, q, a);
    var k :| k in a.roster && c.jobId == Some(k.jobId) && c.workers == k.workers;
    EntryUnique(a.roster, j, k);
  }

  lemma ServedWhenChecked(cs: seq<Corr>, q: Corr, a: Corr, j: JobReceipt, w: WorkerReceipt)
    requires CheckedEpisode(cs, q, a) && j in a.roster && w in j.workers
    ensures Served(cs, j, w, a.roster)
  {
    hide Exactly;
    var key := StageKey(Some(j.jobId), KeyOfWorker(w));
    assert key in ExpectedStages(a.roster) && KeyOfWorker(w) in ExpectedWorkers(a.roster);
    var c := TheRecord(cs, RESTORE_SUBMITTED, StageOf, ExpectedStages(a.roster), key);
    var d := TheRecord(cs, RESTORE_COMPLETED, StageOf, ExpectedStages(a.roster), key);
    var f := TheRecord(cs, FIRST_COMPUTE, WorkerOf, ExpectedWorkers(a.roster), KeyOfWorker(w));
    assert WorkerOrder(c, d) && WorkerOrder(d, f);
    assert Serves(c, d, f, j, w, a.roster);
  }

  lemma CheckedTells(cs: seq<Corr>, q: Corr, a: Corr)
    requires CheckedEpisode(cs, q, a) && ExactRoster(a.roster)
    ensures Story(cs, q, a)
  {
    hide ExactStages;
    hide WorkerTotal;
    hide EpisodeSize;
    hide ExactRoster;
    hide Delivered;
    hide Served;
    forall j | j in a.roster ensures Delivered(cs, j, q, a) { DeliveredWhenChecked(cs, q, a, j); }
    forall j, w | j in a.roster && w in j.workers ensures Served(cs, j, w, a.roster) {
      ServedWhenChecked(cs, q, a, j, w);
    }
    ProvenSize(cs, q, a);
    StorySize(a.roster);
  }

  // ----- a story leaves room for nothing else -----

  lemma SubsetSize<K>(small: set<K>, large: set<K>)
    requires small <= large
    ensures |small| <= |large| && (|small| == |large| ==> small == large)
  {
    assert large == small + (large - small);
  }

  lemma SeenIsExact<K>(cs: seq<Corr>, e: CorrelatedEvent, key: Corr -> K, keys: set<K>)
    requires keys <= KeysSeen(cs, e, key)
    ensures |keys| <= EventCount(cs, e)
    ensures EventCount(cs, e) == |keys| ==> Exactly(cs, e, key, keys)
  {
    hide Exactly;
    SubsetSize(keys, KeysSeen(cs, e, key));
    SeenAtMost(cs, e, key);
    CountedIsExact(cs, e, key, keys);
  }

  lemma StoryShows(cs: seq<Corr>, q: Corr, a: Corr)
    requires Story(cs, q, a)
    ensures {()} <= KeysSeen(cs, RECOVERY_REQUEUED, NoKey) && {()} <= KeysSeen(cs, RECOVERY_ADMITTED, NoKey)
    ensures ExpectedJobs(a.roster) <= KeysSeen(cs, TRANSFER_RECEIPT, JobOf)
    ensures ExpectedStages(a.roster) <= KeysSeen(cs, RESTORE_SUBMITTED, StageOf)
    ensures ExpectedStages(a.roster) <= KeysSeen(cs, RESTORE_COMPLETED, StageOf)
    ensures ExpectedWorkers(a.roster) <= KeysSeen(cs, FIRST_COMPUTE, WorkerOf)
  {
    assert NoKey(q) in KeysSeen(cs, RECOVERY_REQUEUED, NoKey);
    assert NoKey(a) in KeysSeen(cs, RECOVERY_ADMITTED, NoKey);
    forall k | k in ExpectedJobs(a.roster) ensures k in KeysSeen(cs, TRANSFER_RECEIPT, JobOf) {
      var j :| j in a.roster && k == Some(j.jobId);
      assert Delivered(cs, j, q, a);
    }
    forall k | k in ExpectedStages(a.roster)
      ensures k in KeysSeen(cs, RESTORE_SUBMITTED, StageOf) && k in KeysSeen(cs, RESTORE_COMPLETED, StageOf)
    {
      var j, w :| j in a.roster && w in j.workers && k == StageKey(Some(j.jobId), KeyOfWorker(w));
      assert Served(cs, j, w, a.roster);
    }
    forall k | k in ExpectedWorkers(a.roster) ensures k in KeysSeen(cs, FIRST_COMPUTE, WorkerOf) {
      var j, w :| j in a.roster && w in j.workers && k == KeyOfWorker(w);
      assert Served(cs, j, w, a.roster);
    }
  }

  /** Every stage shows at least what the roster expects, and there is no record to spare. */
  lemma StoryIsExact(cs: seq<Corr>, q: Corr, a: Corr)
    requires Story(cs, q, a) && ExactRoster(a.roster)
    ensures ExactStages(cs, a.roster)
  {
    hide Exactly;
    hide KeysSeen;
    hide ExactRoster;
    hide ExpectedJobs;
    hide ExpectedStages;
    hide ExpectedWorkers;
    hide Delivered;
    hide Served;
    StoryShows(cs, q, a);
    StorySize(a.roster);
    EventsPartition(cs);
    SeenIsExact(cs, RECOVERY_REQUEUED, NoKey, {()});
    SeenIsExact(cs, RECOVERY_ADMITTED, NoKey, {()});
    SeenIsExact(cs, TRANSFER_RECEIPT, JobOf, ExpectedJobs(a.roster));
    SeenIsExact(cs, RESTORE_SUBMITTED, StageOf, ExpectedStages(a.roster));
    SeenIsExact(cs, RESTORE_COMPLETED, StageOf, ExpectedStages(a.roster));
    SeenIsExact(cs, FIRST_COMPUTE, WorkerOf, ExpectedWorkers(a.roster));
  }

  lemma StoryReceipt(cs: seq<Corr>, q: Corr, a: Corr, c: Corr)
    requires forall j :: j in a.roster ==> Delivered(cs, j, q, a)
    requires Exactly(cs, TRANSFER_RECEIPT, JobOf, ExpectedJobs(a.roster)) && c in cs && c.event.TRANSFER_RECEIPT?
    ensures ReceiptFits(c, q, a)
  {
    hide DistinctKeys;
    assert JobOf(c) in ExpectedJobs(a.roster);
    var j :| j in a.roster && c.jobId == Some(j.jobId);
    assert Delivered(cs, j, q, a);
    var d :| d in cs && d.event.TRANSFER_RECEIPT? && d.jobId == Some(j.jobId) && d.workers == j.workers
             && q.observedAtNs < d.observedAtNs < a.observedAtNs;
    OneRecord(cs, TRANSFER_RECEIPT, JobOf, ExpectedJobs(a.roster), c, d);
  }

  lemma StoryCompute(cs: seq<Corr>, q: Corr, a: Corr, c: Corr)
    requires Story(cs, q, a) && ExactStages(cs, a.roster) && c in cs && c.event.FIRST_COMPUTE?
    ensures c.roster == a.roster
  {
    hide Delivered;
    hide DistinctKeys;
    assert WorkerOf(c) in ExpectedWorkers(a.roster);
    var j, w :| j in a.roster && w in j.workers && WorkerOf(c) == KeyOfWorker(w);
    assert Served(cs, j, w, a.roster);
    hide Exactly;
    var s, d, f :| s in cs && d in cs && f in cs && Serves(s, d, f, j, w, a.roster);
    OneRecord(cs, FIRST_COMPUTE, WorkerOf, ExpectedWorkers(a.roster), c, f);
  }

  lemma StoryOrder(cs: seq<Corr>, q: Corr, a: Corr, c: Corr, d: Corr)
    requires Story(cs, q, a) && ExactStages(cs, a.roster) && c in cs && d in cs && d.event.RESTORE_COMPLETED?
    requires (c.event.RESTORE_SUBMITTED? && StageOf(c) == StageOf(d)) ||
        (c.event.FIRST_COMPUTE? && WorkerOf(c) == WorkerOf(d))
    ensures if c.event.FIRST_COMPUTE? then d.observedAtNs < c.observedAtNs else c.observedAtNs < d.observedAtNs
  {
    hide Delivered;
    hide DistinctKeys;
    assert StageOf(d) in ExpectedStages(a.roster);
    var j, w :| j in a.roster && w in j.workers && StageOf(d) == StageKey(Some(j.jobId), KeyOfWorker(w));
    assert Served(cs, j, w, a.roster);
    hide Exactly;
    var s, e, f :| s in cs && e in cs && f in cs && Serves(s, e, f, j, w, a.roster);
    OneRecord(cs, RESTORE_COMPLETED, StageOf, ExpectedStages(a.roster), d, e);
    if c.event.FIRST_COMPUTE? {
      OneRecord(cs, FIRST_COMPUTE, WorkerOf, ExpectedWorkers(a.roster), c, f);
    } else {
      OneRecord(cs, RESTORE_SUBMITTED, StageOf, ExpectedStages(a.roster), c, s);
    }
  }

  lemma StoryOrdered(cs: seq<Corr>, q: Corr, a: Corr, c: Corr, d: Corr)
    requires Story(cs, q, a) && ExactStages(cs, a.roster) && c in cs && d in cs
    ensures WorkerOrder(c, d)
  {
    hide Story;
    hide ExactStages;
    if c.event.RESTORE_SUBMITTED? && d.event.RESTORE_COMPLETED? && StageOf(c) == StageOf(d) {
      StoryOrder(cs, q, a, c, d);
    } else if c.event.RESTORE_COMPLETED? && d.event.FIRST_COMPUTE? && WorkerOf(c) == WorkerOf(d) {
      StoryOrder(cs, q, a, d, c);
    }
  }

  lemma StoryChecks(cs: seq<Corr>, q: Corr, a: Corr)
    requires Story(cs, q, a) && ExactRoster(a.roster)
    ensures CheckedEpisode(cs, q, a)
  {
    hide Exactly;
    hide ExactRoster;
    hide ReceiptFits;
    hide WorkerOrder;
    hide Delivered;
    hide Served;
    hide WorkerTotal;
    hide Workers;
    StoryIsExact(cs, q, a);
    forall c | c in cs && c.event.TRANSFER_RECEIPT? ensures ReceiptFits(c, q, a) { StoryReceipt(cs, q, a, c); }
    forall c | c in cs && c.event.FIRST_COMPUTE? ensures c.roster == a.roster { StoryCompute(cs, q, a, c); }
    forall c, d | c in cs && d in cs ensures WorkerOrder(c, d) { StoryOrdered(cs, q, a, c, d); }
  }

  /**
   * The records of an episode prove it exactly when they tell its story: each job delivered,
   * each worker's restores submitted, completed and computed on in that order, and no record
   * more than that takes.
   */
  lemma ProvenIsStory(cs: seq<Corr>)
    requires forall c :: c in cs ==> c.Valid()
    ensures EpisodeProven(cs) <==> exists q, a :: Story(cs, q, a)
  {
    hide CheckedEpisode;
    hide Story;
    if q, a :| CheckedEpisode(cs, q, a) {
      AdmissionIn(cs, q, a);
      CheckedTells(cs, q, a);
    }
    if q, a :| Story(cs, q, a) {
      AdmissionIn(cs, q, a);
      StoryChecks(cs, q, a);
    }
  }

  lemma AdmissionIn(cs: seq<Corr>, q: Corr, a: Corr)
    requires CheckedEpisode(cs, q, a) || Story(cs, q, a)
    ensures a in cs
  {
  }
}
