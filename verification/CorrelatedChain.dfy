/** When correlated host records prove a complete recovery, without comparing clocks of different processes. */
module CorrelatedChain {
  import opened Basics
  import Schema
  import opened Correlated

  type Corr = CorrelatedHostObservation

  datatype EpisodeKey = EpisodeKey(schedulerGeneration: Uuid, requestId: Schema.RequestId,
                                   recoveryEpoch: Schema.RecoveryEpoch)

  function KeyOf(c: Corr): EpisodeKey { EpisodeKey(c.schedulerGeneration, c.requestId, c.recoveryEpoch) }

  /** The correlated records of one request, in order. */
  function Matching(cs: seq<Corr>, req: string): (m: seq<Corr>) {
    if cs == [] then []
    else
      var rest := Matching(cs[..|cs| - 1], req);
      if cs[|cs| - 1].requestId == req then rest + [cs[|cs| - 1]] else rest
  }

  /** The records of one episode, in order. */
  function Group(cs: seq<Corr>, k: EpisodeKey): (g: seq<Corr>) {
    if cs == [] then []
    else
      var rest := Group(cs[..|cs| - 1], k);
      if KeyOf(cs[|cs| - 1]) == k then rest + [cs[|cs| - 1]] else rest
  }

  function Keys(cs: seq<Corr>): (ks: set<EpisodeKey>) { set c | c in cs :: KeyOf(c) }

  // ----- what a record mentions, and what a roster expects -----

  predicate MentionsJob(c: Corr, job: int) {
    c.jobId == Some(job) || exists j :: j in c.roster && j.jobId == job
  }

  /** Within one scheduler generation a job belongs to one episode. */
  ghost predicate JobsOwned(cs: seq<Corr>) {
    forall c, d, job: int ::
      (c in cs && d in cs && c.schedulerGeneration == d.schedulerGeneration && MentionsJob(c, job) &&
        MentionsJob(d, job))
      ==> KeyOf(c) == KeyOf(d)
  }

  datatype StageKey = StageKey(job: Option<uint64>, worker: WorkerKey)

  datatype WorkerKey = WorkerKey(rank: Option<uint32>, generation: Option<Uuid>)

  function WorkerOf(c: Corr): WorkerKey { WorkerKey(c.rank, c.workerGeneration) }

  function StageOf(c: Corr): StageKey { StageKey(c.jobId, WorkerOf(c)) }

  function JobOf(c: Corr): Option<uint64> { c.jobId }

  function NoKey(c: Corr): () { () }

  function KeyOfWorker(w: WorkerReceipt): WorkerKey { WorkerKey(Some(w.rank), Some(w.workerGeneration)) }

  function ExpectedJobs(roster: seq<JobReceipt>): (r: set<Option<uint64>>) {
    set j | j in roster :: Some(j.jobId)
  }

  function ExpectedStages(roster: seq<JobReceipt>): (r: set<StageKey>) {
    set j, w | j in roster && w in j.workers :: StageKey(Some(j.jobId), KeyOfWorker(w))
  }

  function ExpectedWorkers(roster: seq<JobReceipt>): (r: set<WorkerKey>) {
    set j, w | j in roster && w in j.workers :: KeyOfWorker(w)
  }

  /** The records of event `e` carry each of the keys once, and no other. */
  ghost predicate Exactly<K>(cs: seq<Corr>, e: CorrelatedEvent, key: Corr -> K, keys: set<K>) {
    && DistinctKeys(cs, e, key)
    && (forall c :: c in cs && c.event == e ==> key(c) in keys)
    && (forall k :: k in keys ==> exists c :: c in cs && c.event == e && key(c) == k)
  }

  predicate DistinctKeys<K(==)>(cs: seq<Corr>, e: CorrelatedEvent, key: Corr -> K) {
    forall i, j :: 0 <= i < j < |cs| && cs[i].event == e && cs[j].event == e ==> key(cs[i]) != key(cs[j])
  }

  // ----- one episode -----

  /** Exactly one requeue, one admission, and what its roster expects of every stage. */
  ghost predicate ExactStages(cs: seq<Corr>, roster: seq<JobReceipt>) {
    && Exactly(cs, RECOVERY_REQUEUED, NoKey, {()})
    && Exactly(cs, RECOVERY_ADMITTED, NoKey, {()})
    && Exactly(cs, TRANSFER_RECEIPT, JobOf, ExpectedJobs(roster))
    && Exactly(cs, RESTORE_SUBMITTED, StageOf, ExpectedStages(roster))
    && Exactly(cs, RESTORE_COMPLETED, StageOf, ExpectedStages(roster))
    && Exactly(cs, FIRST_COMPUTE, WorkerOf, ExpectedWorkers(roster))
  }

  /** The receipt repeats the roster's entry and lies strictly between requeue and admission. */
  predicate ReceiptFits(c: Corr, q: Corr, a: Corr) {
    && (exists j :: j in a.roster && c.jobId == Some(j.jobId) && c.workers == j.workers)
    && q.observedAtNs < c.observedAtNs < a.observedAtNs
  }

  /** On each worker, submission precedes completion and every completion precedes the first compute. */
  predicate WorkerOrder(c: Corr, d: Corr) {
    && (c.event.RESTORE_SUBMITTED? && d.event.RESTORE_COMPLETED? && StageOf(c) == StageOf(d) ==>
          c.observedAtNs < d.observedAtNs)
    && (c.event.RESTORE_COMPLETED? && d.event.FIRST_COMPUTE? && WorkerOf(c) == WorkerOf(d) ==>
          c.observedAtNs < d.observedAtNs)
  }

  ghost predicate CheckedEpisode(cs: seq<Corr>, q: Corr, a: Corr) {
    && q in cs && q.event.RECOVERY_REQUEUED?
    && a in cs && a.event.RECOVERY_ADMITTED?
    && q.observedAtNs < a.observedAtNs
    && ExactStages(cs, a.roster)
    && (forall c :: c in cs && c.event.TRANSFER_RECEIPT? ==> ReceiptFits(c, q, a))
    && (forall c :: c in cs && c.event.FIRST_COMPUTE? ==> c.roster == a.roster)
    && (forall c, d :: c in cs && d in cs ==> WorkerOrder(c, d))
  }

  ghost predicate EpisodeProven(cs: seq<Corr>) {
    exists q, a :: CheckedEpisode(cs, q, a)
  }

  /** The correlated records of a request prove complete episodes. */
  ghost predicate ChainProven(m: seq<Corr>) {
    && m != []
    && JobsOwned(m)
    && forall k :: k in Keys(m) ==> EpisodeProven(Group(m, k))
  }

  /** The number of proven episodes, or `None` for a rejection. */
  ghost function CorrelatedVerdict(cs: seq<Corr>, req: string): (r: Option<nat>) {
    var m := Matching(cs, req);
    if ChainProven(m) then Some(|Keys(m)|) else None
  }

  // ----- groups -----

  lemma {:induction false} InMatching(cs: seq<Corr>, req: string)
    ensures forall c :: c in Matching(cs, req) <==> c in cs && c.requestId == req
  {
    if cs != [] {
      var n := |cs| - 1;
      InMatching(cs[..n], req);
      assert cs == cs[..n] + [cs[n]];
    }
  }

  lemma {:induction false} InGroup(cs: seq<Corr>, k: EpisodeKey)
    ensures forall c :: c in Group(cs, k) <==> c in cs && KeyOf(c) == k
  {
    if cs != [] {
      var n := |cs| - 1;
      InGroup(cs[..n], k);
      assert cs == cs[..n] + [cs[n]];
    }
  }

  // ----- the order of the records does not matter -----

  lemma {:induction false} MatchingMultiset(cs: seq<Corr>, req: string)
    ensures forall c :: multiset(Matching(cs, req))[c] == if c.requestId == req then multiset(cs)[c] else 0
  {
    if cs != [] {
      var n := |cs| - 1;
      MatchingMultiset(cs[..n], req);
      assert cs == cs[..n] + [cs[n]];
    }
  }

  lemma {:induction false} GroupMultiset(cs: seq<Corr>, k: EpisodeKey)
    ensures forall c :: multiset(Group(cs, k))[c] == if KeyOf(c) == k then multiset(cs)[c] else 0
  {
    if cs != [] {
      var n := |cs| - 1;
      GroupMultiset(cs[..n], k);
      assert cs == cs[..n] + [cs[n]];
    }
  }

  lemma SameElements<T>(a: seq<T>, b: seq<T>)
    requires multiset(a) == multiset(b)
    ensures forall x :: x in a <==> x in b
  {
    forall x ensures x in a <==> x in b {
      assert x in a <==> x in multiset(a);
      assert x in b <==> x in multiset(b);
    }
  }

  /** Two occurrences in the multiset are two positions. */
  lemma {:induction false} TwoPositions<T>(s: seq<T>, x: T) returns (i: int, j: int)
    requires multiset(s)[x] >= 2
    ensures 0 <= i < j < |s| && s[i] == x && s[j] == x
  {
    var n := |s| - 1;
    assert s == s[..n] + [s[n]];
    if s[n] == x {
      assert x in multiset(s[..n]);
      i :| 0 <= i < n && s[..n][i] == x;
      j := n;
    } else {
      i, j := TwoPositions(s[..n], x);
    }
  }

  /** Two positions are two occurrences. */
  lemma TwoOccurrences<T>(s: seq<T>, i: int, j: int)
    requires 0 <= i < j < |s| && s[i] == s[j]
    ensures multiset(s)[s[i]] >= 2
  {
    assert s == s[..j] + [s[j]] + s[j + 1..];
    assert s[..j][i] == s[i];
    assert s[i] in multiset(s[..j]);
  }

  lemma PermutedDistinct<K>(a: seq<Corr>, b: seq<Corr>, e: CorrelatedEvent, key: Corr -> K)
    requires multiset(a) == multiset(b) && DistinctKeys(a, e, key)
    ensures DistinctKeys(b, e, key)
  {
    SameElements(a, b);
    forall i, j | 0 <= i < j < |b| && b[i].event == e && b[j].event == e ensures key(b[i]) != key(b[j]) {
      assert b[i] in a && b[j] in a;
      if b[i] == b[j] {
        TwoOccurrences(b, i, j);
        var k, l := TwoPositions(a, b[i]);
      } else {
        var k :| 0 <= k < |a| && a[k] == b[i];
        var l :| 0 <= l < |a| && a[l] == b[j];
      }
    }
  }

  lemma PermutedExactly<K>(a: seq<Corr>, b: seq<Corr>, e: CorrelatedEvent, key: Corr -> K, keys: set<K>)
    requires multiset(a) == multiset(b) && Exactly(a, e, key, keys)
    ensures Exactly(b, e, key, keys)
  {
    PermutedDistinct(a, b, e, key);
    SameElements(a, b);
    hide DistinctKeys;
    forall k | k in keys ensures exists c :: c in b && c.event == e && key(c) == k {
      var c :| c in a && c.event == e && key(c) == k;
      assert c in b;
    }
  }

  lemma PermutedEpisode(a: seq<Corr>, b: seq<Corr>)
    requires multiset(a) == multiset(b) && EpisodeProven(a)
    ensures EpisodeProven(b)
  {
    hide Exactly;
    var q, ad :| CheckedEpisode(a, q, ad);
    var roster := ad.roster;
    SameElements(a, b);
    PermutedExactly(a, b, RECOVERY_REQUEUED, NoKey, {()});
    PermutedExactly(a, b, RECOVERY_ADMITTED, NoKey, {()});
    PermutedExactly(a, b, TRANSFER_RECEIPT, JobOf, ExpectedJobs(roster));
    PermutedExactly(a, b, RESTORE_SUBMITTED, StageOf, ExpectedStages(roster));
    PermutedExactly(a, b, RESTORE_COMPLETED, StageOf, ExpectedStages(roster));
    PermutedExactly(a, b, FIRST_COMPUTE, WorkerOf, ExpectedWorkers(roster));
    assert CheckedEpisode(b, q, ad);
  }

  lemma PermutedChain(a: seq<Corr>, b: seq<Corr>)
    requires multiset(a) == multiset(b) && ChainProven(a)
    ensures ChainProven(b) && Keys(a) == Keys(b)
  {
    hide EpisodeProven;
    SameElements(a, b);
    assert a[0] in b;
    assert Keys(a) == Keys(b);
    forall k | k in Keys(b) ensures EpisodeProven(Group(b, k)) {
      GroupMultiset(a, k);
      GroupMultiset(b, k);
      assert multiset(Group(a, k)) == multiset(Group(b, k));
      PermutedEpisode(Group(a, k), Group(b, k));
    }
  }

  /** The verdict is the same for every permutation of the records. */
  lemma OrderIrrelevant(a: seq<Corr>, b: seq<Corr>, req: string)
    requires multiset(a) == multiset(b)
    ensures CorrelatedVerdict(a, req) == CorrelatedVerdict(b, req)
  {
    hide ChainProven;
    hide Keys;
    MatchingMultiset(a, req);
    MatchingMultiset(b, req);
    var ma, mb := Matching(a, req), Matching(b, req);
    assert multiset(ma) == multiset(mb);
    if ChainProven(ma) { PermutedChain(ma, mb); }
    if ChainProven(mb) { PermutedChain(mb, ma); }
  }
}
