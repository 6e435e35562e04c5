/** Clocks of different processes, missing and duplicated records, and the roster of a proven episode. */
module CorrelatedResults {
  import opened Basics
  import opened Correlated
  import opened CorrelatedChain

  // ----- no clock is compared with another process's clock -----

  /** A record together with another timestamp for it. */
  datatype Retiming = Retiming(record: Corr, newTime: int)

  function Retimed(p: Retiming): Corr { p.record.(observedAtNs := p.newTime) }

  function Before(ps: seq<Retiming>): (cs: seq<Corr>)
    ensures |cs| == |ps| && forall i :: 0 <= i < |ps| ==> cs[i] == ps[i].record
  {
    seq(|ps|, i requires 0 <= i < |ps| => ps[i].record)
  }

  function After(ps: seq<Retiming>): (cs: seq<Corr>)
    ensures |cs| == |ps| && forall i :: 0 <= i < |ps| ==> cs[i] == Retimed(ps[i])
  {
    seq(|ps|, i requires 0 <= i < |ps| => Retimed(ps[i]))
  }

  /** Both records were stamped by the same worker incarnation, or by the same scheduler incarnation. */
  predicate SameClock(c: Corr, d: Corr) {
    if c.IsWorkerEvent() then d.IsWorkerEvent() && WorkerOf(c) == WorkerOf(d)
    else !d.IsWorkerEvent() && c.schedulerGeneration == d.schedulerGeneration
  }

  predicate KeepsOrder(p: Retiming, q: Retiming) {
    SameClock(p.record, q.record) ==>
      (p.record.observedAtNs < q.record.observedAtNs <==> p.newTime < q.newTime)
  }

  /** Every clock was changed by some order-preserving map of its own. */
  ghost predicate ClocksKeepOrder(ps: seq<Retiming>) {
    forall p, q :: p in ps && q in ps ==> KeepsOrder(p, q)
  }

  function Undone(ps: seq<Retiming>): (us: seq<Retiming>)
    ensures |us| == |ps| && forall i :: 0 <= i < |ps| ==> us[i] == Retiming(Retimed(ps[i]), ps[i].record.observedAtNs)
  {
    seq(|ps|, i requires 0 <= i < |ps| => Retiming(Retimed(ps[i]), ps[i].record.observedAtNs))
  }

  lemma UndoneIsInverse(ps: seq<Retiming>)
    requires ClocksKeepOrder(ps)
    ensures Before(Undone(ps)) == After(ps) && After(Undone(ps)) == Before(ps) && ClocksKeepOrder(Undone(ps))
  {
    var us := Undone(ps);
    forall i | 0 <= i < |ps| ensures After(us)[i] == Before(ps)[i] { }
    forall u, v | u in us && v in us ensures KeepsOrder(u, v) {
      var i :| 0 <= i < |us| && us[i] == u;
      var j :| 0 <= j < |us| && us[j] == v;
      assert KeepsOrder(ps[i], ps[j]);
    }
  }

  function MatchingPairs(ps: seq<Retiming>, req: string): (r: seq<Retiming>)
    ensures forall p :: p in r ==> p in ps
  {
    if ps == [] then []
    else
      var rest := MatchingPairs(ps[..|ps| - 1], req);
      if ps[|ps| - 1].record.requestId == req then rest + [ps[|ps| - 1]] else rest
  }

  function GroupPairs(ps: seq<Retiming>, k: EpisodeKey): (r: seq<Retiming>)
    ensures forall p :: p in r ==> p in ps && KeyOf(p.record) == k
  {
    if ps == [] then []
    else
      var rest := GroupPairs(ps[..|ps| - 1], k);
      if KeyOf(ps[|ps| - 1].record) == k then rest + [ps[|ps| - 1]] else rest
  }

  lemma PairsPrefix(ps: seq<Retiming>)
    requires ps != []
    ensures var n := |ps| - 1;
      && Before(ps)[..n] == Before(ps[..n]) && Before(ps)[n] == ps[n].record
      && After(ps)[..n] == After(ps[..n]) && After(ps)[n] == Retimed(ps[n])
  {
  }

  lemma PairsAppend(ps: seq<Retiming>, p: Retiming)
    ensures Before(ps + [p]) == Before(ps) + [p.record] && After(ps + [p]) == After(ps) + [Retimed(p)]
  {
  }

  lemma {:induction false} MatchingCommutes(ps: seq<Retiming>, req: string)
    ensures Before(MatchingPairs(ps, req)) == Matching(Before(ps), req)
    ensures After(MatchingPairs(ps, req)) == Matching(After(ps), req)
  {
    hide Before;
    hide After;
    if ps != [] {
      var n := |ps| - 1;
      MatchingCommutes(ps[..n], req);
      PairsPrefix(ps);
      PairsAppend(MatchingPairs(ps[..n], req), ps[n]);
    }
  }

  lemma {:induction false} GroupCommutes(ps: seq<Retiming>, k: EpisodeKey)
    ensures Before(GroupPairs(ps, k)) == Group(Before(ps), k)
    ensures After(GroupPairs(ps, k)) == Group(After(ps), k)
  {
    hide Before;
    hide After;
    if ps != [] {
      var n := |ps| - 1;
      GroupCommutes(ps[..n], k);
      PairsPrefix(ps);
      PairsAppend(GroupPairs(ps[..n], k), ps[n]);
    }
  }

  lemma RetimedExactly<K>(ps: seq<Retiming>, e: CorrelatedEvent, key: Corr -> K, keys: set<K>)
    requires forall p: Retiming :: key(Retimed(p)) == key(p.record)
    requires Exactly(Before(ps), e, key, keys)
    ensures Exactly(After(ps), e, key, keys)
  {
    var b, a := Before(ps), After(ps);
    forall i | 0 <= i < |ps| ensures a[i].event == b[i].event && key(a[i]) == key(b[i]) {
      assert key(Retimed(ps[i])) == key(ps[i].record);
    }
    forall c | c in a && c.event == e ensures key(c) in keys {
      var i :| 0 <= i < |a| && a[i] == c;
      assert b[i] in b;
    }
    forall k | k in keys ensures exists c :: c in a && c.event == e && key(c) == k {
      var c :| c in b && c.event == e && key(c) == k;
      var i :| 0 <= i < |b| && b[i] == c;
      assert a[i] in a;
    }
  }

  lemma RetimedStages(ps: seq<Retiming>, roster: seq<JobReceipt>)
    requires ExactStages(Before(ps), roster)
    ensures ExactStages(After(ps), roster)
  {
    hide Exactly;
    RetimedExactly(ps, RECOVERY_REQUEUED, NoKey, {()});
    RetimedExactly(ps, RECOVERY_ADMITTED, NoKey, {()});
    RetimedExactly(ps, TRANSFER_RECEIPT, JobOf, ExpectedJobs(roster));
    RetimedExactly(ps, RESTORE_SUBMITTED, StageOf, ExpectedStages(roster));
    RetimedExactly(ps, RESTORE_COMPLETED, StageOf, ExpectedStages(roster));
    RetimedExactly(ps, FIRST_COMPUTE, WorkerOf, ExpectedWorkers(roster));
  }

  lemma FindPair(ps: seq<Retiming>, c: Corr) returns (p: Retiming)
    requires c in After(ps)
    ensures p in ps && c == Retimed(p) && p.record in Before(ps)
  {
    var i :| 0 <= i < |ps| && After(ps)[i] == c;
    p := ps[i];
    assert Before(ps)[i] == p.record;
  }

  lemma RetimedReceipts(ps: seq<Retiming>, q: Retiming, a: Retiming)
    requires ClocksKeepOrder(ps) && forall p, r :: p in ps && r in ps ==>
        p.record.schedulerGeneration == r.record.schedulerGeneration
    requires q in ps && a in ps && !q.record.IsWorkerEvent() && !a.record.IsWorkerEvent()
    requires forall c :: c in Before(ps) && c.event.TRANSFER_RECEIPT? ==> ReceiptFits(c, q.record, a.record)
    ensures forall c :: c in After(ps) && c.event.TRANSFER_RECEIPT? ==> ReceiptFits(c, Retimed(q), Retimed(a))
  {
    forall c | c in After(ps) && c.event.TRANSFER_RECEIPT? ensures ReceiptFits(c, Retimed(q), Retimed(a)) {
      var p := FindPair(ps, c);
      assert ReceiptFits(p.record, q.record, a.record);
      assert KeepsOrder(q, p) && KeepsOrder(p, a);
    }
  }

  lemma RetimedWorkers(ps: seq<Retiming>)
    requires ClocksKeepOrder(ps) && forall c, d :: c in Before(ps) && d in Before(ps) ==> WorkerOrder(c, d)
    ensures forall c, d :: c in After(ps) && d in After(ps) ==> WorkerOrder(c, d)
  {
    forall c, d | c in After(ps) && d in After(ps) ensures WorkerOrder(c, d) {
      var p := FindPair(ps, c);
      var r := FindPair(ps, d);
      assert WorkerOrder(p.record, r.record);
      assert KeepsOrder(p, r);
    }
  }

  lemma FindBefore(ps: seq<Retiming>, c: Corr) returns (p: Retiming)
    requires c in Before(ps)
    ensures p in ps && p.record == c && Retimed(p) in After(ps)
  {
    var i :| 0 <= i < |ps| && Before(ps)[i] == c;
    p := ps[i];
    assert After(ps)[i] == Retimed(p);
  }

  lemma RetimedRosters(ps: seq<Retiming>, roster: seq<JobReceipt>)
    requires forall c :: c in Before(ps) && c.event.FIRST_COMPUTE? ==> c.roster == roster
    ensures forall c :: c in After(ps) && c.event.FIRST_COMPUTE? ==> c.roster == roster
  {
    forall c | c in After(ps) && c.event.FIRST_COMPUTE? ensures c.roster == roster {
      var p := FindPair(ps, c);
    }
  }

  lemma RetimedEpisode(ps: seq<Retiming>, k: EpisodeKey)
    requires ClocksKeepOrder(ps) && forall p :: p in ps ==> KeyOf(p.record) == k
    requires EpisodeProven(Before(ps))
    ensures EpisodeProven(After(ps))
  {
    hide Before;
    hide After;
    hide ExactStages;
    hide WorkerOrder;
    hide ReceiptFits;
    var q, a :| CheckedEpisode(Before(ps), q, a);
    var pq := FindBefore(ps, q);
    var pa := FindBefore(ps, a);
    assert KeepsOrder(pq, pa);
    RetimedStages(ps, a.roster);
    RetimedReceipts(ps, pq, pa);
    RetimedRosters(ps, a.roster);
    RetimedWorkers(ps);
    assert CheckedEpisode(After(ps), Retimed(pq), Retimed(pa));
  }

  lemma RetimedKeys(ps: seq<Retiming>)
    ensures Keys(Before(ps)) == Keys(After(ps))
  {
    forall i | 0 <= i < |ps| ensures KeyOf(Before(ps)[i]) == KeyOf(After(ps)[i]) { }
    forall k | k in Keys(Before(ps)) ensures k in Keys(After(ps)) {
      var i :| 0 <= i < |ps| && KeyOf(Before(ps)[i]) == k;
      assert After(ps)[i] in After(ps);
    }
    forall k | k in Keys(After(ps)) ensures k in Keys(Before(ps)) {
      var i :| 0 <= i < |ps| && KeyOf(After(ps)[i]) == k;
      assert Before(ps)[i] in Before(ps);
    }
  }

  lemma RetimedChain(ps: seq<Retiming>)
    requires ClocksKeepOrder(ps) && ChainProven(Before(ps))
    ensures ChainProven(After(ps))
  {
    hide EpisodeProven;
    RetimedKeys(ps);
    forall c, d, job: int |
      c in After(ps) && d in After(ps) && c.schedulerGeneration == d.schedulerGeneration && MentionsJob(c, job) &&
        MentionsJob(d, job)
      ensures KeyOf(c) == KeyOf(d)
    {
      var p := FindPair(ps, c);
      var r := FindPair(ps, d);
      assert MentionsJob(p.record, job) && MentionsJob(r.record, job);
    }
    forall k | k in Keys(After(ps)) ensures EpisodeProven(Group(After(ps), k)) {
      GroupCommutes(ps, k);
      RetimedEpisode(GroupPairs(ps, k), k);
    }
  }

  /**
   * The verdict compares no clock with another: changing the timestamps of every worker
   * incarnation by one order-preserving map, and of every scheduler incarnation by
   * another, changes neither acceptance nor the count.
   */
  lemma ClocksIndependent(ps: seq<Retiming>, req: string)
    requires ClocksKeepOrder(ps)
    ensures CorrelatedVerdict(Before(ps), req) == CorrelatedVerdict(After(ps), req)
  {
    hide ChainProven;
    hide Keys;
    var ms := MatchingPairs(ps, req);
    MatchingCommutes(ps, req);
    RetimedKeys(ms);
    if ChainProven(Before(ms)) { RetimedChain(ms); }
    if ChainProven(After(ms)) {
      UndoneIsInverse(ms);
      RetimedChain(Undone(ms));
    }
  }

  // ----- the size of a proven episode -----

  function EventCount(cs: seq<Corr>, e: CorrelatedEvent): (n: nat) {
    if cs == [] then 0
    else EventCount(cs[..|cs| - 1], e) + (if cs[|cs| - 1].event == e then 1 else 0)
  }

  function KeysSeen<K>(cs: seq<Corr>, e: CorrelatedEvent, key: Corr -> K): (r: set<K>) {
    set c | c in cs && c.event == e :: key(c)
  }

  lemma KeysSeenAppend<K>(cs: seq<Corr>, c: Corr, e: CorrelatedEvent, key: Corr -> K)
    ensures KeysSeen(cs + [c], e, key) == if c.event == e then KeysSeen(cs, e, key) + {key(c)} else KeysSeen(cs, e, key)
  {
  }

  lemma DistinctAppend<K>(cs: seq<Corr>, c: Corr, e: CorrelatedEvent, key: Corr -> K)
    requires DistinctKeys(cs + [c], e, key)
    ensures DistinctKeys(cs, e, key) && (c.event == e ==> key(c) !in KeysSeen(cs, e, key))
  {
    var all := cs + [c];
    forall i | 0 <= i < |cs| && cs[i].event == e && c.event == e ensures key(cs[i]) != key(c) {
      assert all[i] == cs[i] && all[|cs|] == c;
    }
    forall i, j | 0 <= i < j < |cs| && cs[i].event == e && cs[j].event == e ensures key(cs[i]) != key(cs[j]) {
      assert all[i] == cs[i] && all[j] == cs[j];
    }
  }

  lemma {:induction false} DistinctCount<K>(cs: seq<Corr>, e: CorrelatedEvent, key: Corr -> K)
    requires DistinctKeys(cs, e, key)
    ensures EventCount(cs, e) == |KeysSeen(cs, e, key)|
  {
    hide DistinctKeys;
    if cs == [] {
      assert KeysSeen(cs, e, key) == {};
    } else {
      var n := |cs| - 1;
      assert cs == cs[..n] + [cs[n]];
      DistinctAppend(cs[..n], cs[n], e, key);
      KeysSeenAppend(cs[..n], cs[n], e, key);
      DistinctCount(cs[..n], e, key);
    }
  }

  lemma ExactlyCount<K>(cs: seq<Corr>, e: CorrelatedEvent, key: Corr -> K, keys: set<K>)
    requires Exactly(cs, e, key, keys)
    ensures EventCount(cs, e) == |keys|
  {
    DistinctCount(cs, e, key);
    assert KeysSeen(cs, e, key) == keys;
  }

  lemma {:induction false} EventsPartition(cs: seq<Corr>)
    ensures |cs| == EventCount(cs, RECOVERY_REQUEUED) + EventCount(cs, RECOVERY_ADMITTED)
        + EventCount(cs, TRANSFER_RECEIPT)
      + EventCount(cs, RESTORE_SUBMITTED) + EventCount(cs, RESTORE_COMPLETED) + EventCount(cs, FIRST_COMPUTE)
  {
    if cs != [] { EventsPartition(cs[..|cs| - 1]); }
  }

  function EpisodeSize(roster: seq<JobReceipt>): nat {
    2 + |ExpectedJobs(roster)| + 2 * |ExpectedStages(roster)| + |ExpectedWorkers(roster)|
  }

  /** A proven episode has one record per expectation of its roster, and no other. */
  lemma ProvenSize(cs: seq<Corr>, q: Corr, a: Corr)
    requires CheckedEpisode(cs, q, a)
    ensures |cs| == EpisodeSize(a.roster)
  {
    hide Exactly;
    EventsPartition(cs);
    ExactlyCount(cs, RECOVERY_REQUEUED, NoKey, {()});
    ExactlyCount(cs, RECOVERY_ADMITTED, NoKey, {()});
    ExactlyCount(cs, TRANSFER_RECEIPT, JobOf, ExpectedJobs(a.roster));
    ExactlyCount(cs, RESTORE_SUBMITTED, StageOf, ExpectedStages(a.roster));
    ExactlyCount(cs, RESTORE_COMPLETED, StageOf, ExpectedStages(a.roster));
    ExactlyCount(cs, FIRST_COMPUTE, WorkerOf, ExpectedWorkers(a.roster));
  }

  lemma ExpectationsAppend(before: seq<JobReceipt>, j: JobReceipt)
    ensures ExpectedJobs(before + [j]) == ExpectedJobs(before) + {Some(j.jobId)}
    ensures ExpectedStages(before + [j]) == ExpectedStages(before) + ExpectedStages([j])
    ensures (forall k :: k in before ==> k.jobId != j.jobId) ==>
      Some(j.jobId) !in ExpectedJobs(before) && ExpectedStages(before) !! ExpectedStages([j])
  {
  }

  lemma RosterButLast(roster: seq<JobReceipt>)
    requires ExactRoster(roster) && roster != []
    ensures var n := |roster| - 1;
      && ExactRoster(roster[..n]) && ExactWorkers(roster[n].workers)
      && WorkerTotal(roster) == WorkerTotal(roster[..n]) + |roster[n].workers|
      && forall k :: k in roster[..n] ==> k.jobId != roster[n].jobId
  {
    var n := |roster| - 1;
    LastJobDiffers(roster);
    PrefixExact(roster, n);
    assert roster[n].Valid();
    hide ExactRoster;
    hide ExactWorkers;
  }

  lemma LastJobDiffers(roster: seq<JobReceipt>)
    requires ExactRoster(roster) && roster != []
    ensures forall k :: k in roster[..|roster| - 1] ==> k.jobId != roster[|roster| - 1].jobId
  {
    hide ExactWorkers;
    hide JobLess;
    hide WorkerTotal;
  }

  lemma PrefixExact(roster: seq<JobReceipt>, n: nat)
    requires ExactRoster(roster) && n + 1 == |roster|
    ensures ExactRoster(roster[..n])
  {
    hide ExactWorkers;
    hide JobLess;
    assert WorkerTotal(roster) == WorkerTotal(roster[..n]) + |roster[n].workers|;
  }

  lemma NothingExpected()
    ensures ExpectedJobs([]) == {} && ExpectedStages([]) == {} && WorkerTotal([]) == 0
  {
  }

  /** For a valid roster the expectations are its jobs and its (job, worker) pairs. */
  lemma {:induction false} ExpectationSizes(roster: seq<JobReceipt>)
    requires ExactRoster(roster)
    ensures |ExpectedJobs(roster)| == |roster| && |ExpectedStages(roster)| == WorkerTotal(roster)
  {
    hide ExpectedJobs;
    hide ExpectedStages;
    hide ExactRoster;
    hide ExactWorkers;
    hide WorkerTotal;
    if roster == [] {
      NothingExpected();
    } else {
      var n := |roster| - 1;
      assert roster == roster[..n] + [roster[n]];
      RosterButLast(roster);
      ExpectationSizes(roster[..n]);
      ExpectationsAppend(roster[..n], roster[n]);
      StagesOfJob(roster[n]);
    }
  }

  lemma {:induction false} StagesOfJob(j: JobReceipt)
    requires ExactWorkers(j.workers)
    ensures |ExpectedStages([j])| == |j.workers|
    decreases |j.workers|
  {
    if j.workers == [] {
      assert ExpectedStages([j]) == {};
    } else {
      hide ExpectedStages;
      var less := JobReceipt(j.jobId, j.workers[..|j.workers| - 1]);
      StagesOfJob(less);
      LastStage(j);
    }
  }

  lemma LastStage(j: JobReceipt)
    requires ExactWorkers(j.workers) && j.workers != []
    ensures var n := |j.workers| - 1;
      var last, rest := StageKey(Some(j.jobId), KeyOfWorker(j.workers[n])),
        ExpectedStages([JobReceipt(j.jobId, j.workers[..n])]);
      ExpectedStages([j]) == rest + {last} && last !in rest
  {
    var ws := j.workers;
    var n := |ws| - 1;
    assert ws == ws[..n] + [ws[n]];
    forall w | w in ws[..n] ensures w.rank != ws[n].rank {
      var i :| 0 <= i < n && ws[i] == w;
    }
  }

  // ----- nothing can be missing and nothing can be doubled -----

  /** A proven part of a proven episode is the whole episode. */
  lemma ProvenPartIsWhole(part: seq<Corr>, whole: seq<Corr>)
    requires EpisodeProven(part) && EpisodeProven(whole) && multiset(part) <= multiset(whole)
    ensures multiset(part) == multiset(whole)
  {
    var q1, a1 :| CheckedEpisode(part, q1, a1);
    var q2, a2 :| CheckedEpisode(whole, q2, a2);
    assert a1 in multiset(part) && a1 in multiset(whole);
    OnlyAdmission(whole, a1, a2);
    ProvenSize(part, q1, a1);
    ProvenSize(whole, q2, a2);
    assert |multiset(part)| == |part| && |multiset(whole)| == |whole|;
    SubMultisetSameSize(multiset(part), multiset(whole));
  }

  lemma OnlyAdmission(cs: seq<Corr>, a1: Corr, a2: Corr)
    requires Exactly(cs, RECOVERY_ADMITTED, NoKey, {()})
    requires a1 in cs && a2 in cs && a1.event.RECOVERY_ADMITTED? && a2.event.RECOVERY_ADMITTED?
    ensures a1 == a2
  {
    var i :| 0 <= i < |cs| && cs[i] == a1;
    var j :| 0 <= j < |cs| && cs[j] == a2;
    assert NoKey(cs[i]) == NoKey(cs[j]);
  }

  lemma SubMultisetSameSize<T>(a: multiset<T>, b: multiset<T>)
    requires a <= b && |a| == |b|
    ensures a == b
  {
    assert b == a + (b - a);
    assert |b - a| == 0;
  }

  lemma AcceptedGroupProven(cs: seq<Corr>, req: string, c: Corr)
    requires CorrelatedVerdict(cs, req).Some? && c in cs && c.requestId == req
    ensures EpisodeProven(Group(Matching(cs, req), KeyOf(c)))
  {
    InMatching(cs, req);
    assert KeyOf(c) in Keys(Matching(cs, req));
  }

  /**
   * From an accepted list, take some records of one episode away, but not all of them:
   * whatever else is changed, the result is rejected. The same lemma read the other way
   * rejects every list in which an episode has more than an accepted list gives it.
   */
  lemma StrictPartRejected(cs: seq<Corr>, ds: seq<Corr>, req: string, c: Corr)
    requires CorrelatedVerdict(cs, req).Some?
    requires c in cs && c in ds && c.requestId == req
    requires multiset(Group(Matching(ds, req), KeyOf(c))) < multiset(Group(Matching(cs, req), KeyOf(c)))
    ensures CorrelatedVerdict(ds, req) == None
  {
    hide ChainProven;
    AcceptedGroupProven(cs, req, c);
    if CorrelatedVerdict(ds, req).Some? {
      AcceptedGroupProven(ds, req, c);
      ProvenPartIsWhole(Group(Matching(ds, req), KeyOf(c)), Group(Matching(cs, req), KeyOf(c)));
      assert false;
    }
  }

  /** Adding any further record to an episode of an accepted list, a duplicate for instance, is rejected. */
  lemma ExtraRecordRejected(cs: seq<Corr>, ds: seq<Corr>, req: string, c: Corr, extra: Corr)
    requires CorrelatedVerdict(cs, req).Some?
    requires c in cs && c.requestId == req && KeyOf(extra) == KeyOf(c)
    requires multiset(ds) == multiset(cs + [extra])
    ensures CorrelatedVerdict(ds, req) == None
  {
    hide ChainProven;
    OrderIrrelevant(ds, cs + [extra], req);
    var more := cs + [extra];
    assert more[..|cs|] == cs;
    var m := Matching(cs, req);
    assert Matching(more, req) == m + [extra];
    assert (m + [extra])[..|m|] == m;
    var g := Group(m, KeyOf(c));
    assert Group(m + [extra], KeyOf(c)) == g + [extra];
    AcceptedGroupProven(cs, req, c);
    assert c in more;
    assert multiset(g + [extra])[extra] == multiset(g)[extra] + 1;
    if CorrelatedVerdict(more, req).Some? {
      AcceptedGroupProven(more, req, c);
      ProvenPartIsWhole(g, g + [extra]);
      assert false;
    }
  }

  // ----- the admission roster is determined by what the workers submitted -----

  lemma RosterEntry(a: seq<JobReceipt>, b: seq<JobReceipt>, j: JobReceipt)
    requires ExactRoster(a) && ExactRoster(b) && ExpectedStages(a) == ExpectedStages(b) && j in a
    ensures j in b
  {
    var w := j.workers[0];
    assert StageKey(Some(j.jobId), KeyOfWorker(w)) in ExpectedStages(b);
    var k :| k in b && k.jobId == j.jobId;
    forall v ensures v in j.workers <==> v in k.workers {
      StageMembership(a, j, v);
      StageMembership(b, k, v);
    }
    SameWorkersSameTuple(j.workers, k.workers);
  }

  /** In an exact roster a pair is expected exactly when it is in the entry of its job. */
  lemma StageMembership(roster: seq<JobReceipt>, j: JobReceipt, w: WorkerReceipt)
    requires ExactRoster(roster) && j in roster
    ensures StageKey(Some(j.jobId), KeyOfWorker(w)) in ExpectedStages(roster) <==> w in j.workers
  {
    var key := StageKey(Some(j.jobId), KeyOfWorker(w));
    if key in ExpectedStages(roster) {
      var k, v :| k in roster && v in k.workers && key == StageKey(Some(k.jobId), KeyOfWorker(v));
      var i :| 0 <= i < |roster| && roster[i] == j;
      var l :| 0 <= l < |roster| && roster[l] == k;
    }
  }

  lemma RosterDetermined(a: seq<JobReceipt>, b: seq<JobReceipt>)
    requires ExactRoster(a) && ExactRoster(b) && ExpectedStages(a) == ExpectedStages(b)
    ensures a == b
  {
    forall j ensures j in a <==> j in b {
      if j in a { RosterEntry(a, b, j); }
      if j in b { RosterEntry(b, a, j); }
    }
    SameJobsSameRoster(a, b);
  }

  lemma SubmissionsAreExpected(cs: seq<Corr>, q: Corr, a: Corr)
    requires CheckedEpisode(cs, q, a)
    ensures KeysSeen(cs, RESTORE_SUBMITTED, StageOf) == ExpectedStages(a.roster)
  {
    hide ExpectedStages;
    hide ReceiptFits;
    hide WorkerOrder;
    hide DistinctKeys;
  }

  /** Proven episodes in which the workers submitted the same restores admit the same roster. */
  lemma SubmissionsDetermineRoster(cs: seq<Corr>, q1: Corr, a1: Corr, ds: seq<Corr>, q2: Corr, a2: Corr)
    requires CheckedEpisode(cs, q1, a1) && CheckedEpisode(ds, q2, a2) && a1.Valid() && a2.Valid()
    requires KeysSeen(cs, RESTORE_SUBMITTED, StageOf) == KeysSeen(ds, RESTORE_SUBMITTED, StageOf)
    ensures a1.roster == a2.roster
  {
    hide CheckedEpisode;
    hide KeysSeen;
    hide ExpectedStages;
    hide ExactRoster;
    SubmissionsAreExpected(cs, q1, a1);
    SubmissionsAreExpected(ds, q2, a2);
    RosterDetermined(a1.roster, a2.roster);
  }
}
