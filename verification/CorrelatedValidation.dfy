/** The loops of the correlated restore-chain check, proved against its declarative verdict. */
module CorrelatedValidation {
  import opened Basics
  import opened Correlated
  import opened CorrelatedChain
  import opened CorrelatedResults

  // ----- comprehensions of the check -----

  function Filter(cs: seq<Corr>, e: CorrelatedEvent): (m: seq<Corr>)
    ensures forall c :: c in m <==> c in cs && c.event == e
    ensures |m| == EventCount(cs, e)
  {
    if cs == [] then []
    else
      var rest := Filter(cs[..|cs| - 1], e);
      assert cs == cs[..|cs| - 1] + [cs[|cs| - 1]];
      if cs[|cs| - 1].event == e then rest + [cs[|cs| - 1]] else rest
  }

  /** The dictionary of the records by key; a later record replaces an earlier one. */
  function IndexBy<K>(m: seq<Corr>, key: Corr -> K): (index: map<K, Corr>)
    ensures index.Keys == set c | c in m :: key(c)
    ensures forall k :: k in index ==> index[k] in m && key(index[k]) == k
  {
    if m == [] then map[]
    else
      var c := m[|m| - 1];
      assert m == m[..|m| - 1] + [c];
      IndexBy(m[..|m| - 1], key)[key(c) := c]
  }

  lemma {:induction false} SeenAtMost<K>(cs: seq<Corr>, e: CorrelatedEvent, key: Corr -> K)
    ensures |KeysSeen(cs, e, key)| <= EventCount(cs, e)
    ensures |KeysSeen(cs, e, key)| == EventCount(cs, e) ==> DistinctKeys(cs, e, key)
  {
    if cs == [] {
      assert KeysSeen(cs, e, key) == {};
    } else {
      var n := |cs| - 1;
      assert cs == cs[..n] + [cs[n]];
      SeenAtMost(cs[..n], e, key);
      KeysSeenAppend(cs[..n], cs[n], e, key);
      if |KeysSeen(cs, e, key)| == EventCount(cs, e) { DistinctExtend(cs[..n], cs[n], e, key); }
      hide KeysSeen;
      hide DistinctKeys;
    }
  }

  lemma DistinctExtend<K>(cs: seq<Corr>, c: Corr, e: CorrelatedEvent, key: Corr -> K)
    requires DistinctKeys(cs, e, key) && (c.event == e ==> key(c) !in KeysSeen(cs, e, key))
    ensures DistinctKeys(cs + [c], e, key)
  {
    var all := cs + [c];
    forall i, j | 0 <= i < j < |all| && all[i].event == e && all[j].event == e ensures key(all[i]) != key(all[j]) {
      if j < |cs| {
        assert all[i] == cs[i] && all[j] == cs[j];
      } else {
        assert key(cs[i]) in KeysSeen(cs, e, key);
      }
    }
  }

  /** As many records as keys, and exactly the expected keys: every expectation is met once. */
  lemma CountedIsExact<K>(cs: seq<Corr>, e: CorrelatedEvent, key: Corr -> K, keys: set<K>)
    ensures EventCount(cs, e) == |keys| && KeysSeen(cs, e, key) == keys <==> Exactly(cs, e, key, keys)
  {
    SeenAtMost(cs, e, key);
    if Exactly(cs, e, key, keys) {
      ExactlyCount(cs, e, key, keys);
      assert KeysSeen(cs, e, key) == keys;
    }
    hide DistinctKeys;
  }

  lemma IndexIsExact<K>(cs: seq<Corr>, e: CorrelatedEvent, key: Corr -> K, keys: set<K>)
    ensures var m := Filter(cs, e);
      |IndexBy(m, key)| == |m| && IndexBy(m, key).Keys == keys <==> Exactly(cs, e, key, keys)
  {
    var m := Filter(cs, e);
    CountedIsExact(cs, e, key, keys);
    assert IndexBy(m, key).Keys == KeysSeen(cs, e, key);
    assert |IndexBy(m, key)| == |IndexBy(m, key).Keys|;
    hide Exactly;
  }

  /** Under exact stages the dictionary holds every record of its event. */
  lemma IndexHolds<K>(cs: seq<Corr>, e: CorrelatedEvent, key: Corr -> K, c: Corr)
    requires DistinctKeys(cs, e, key) && c in cs && c.event == e
    ensures var index := IndexBy(Filter(cs, e), key); key(c) in index && index[key(c)] == c
  {
    var d := IndexBy(Filter(cs, e), key)[key(c)];
    var i :| 0 <= i < |cs| && cs[i] == c;
    var j :| 0 <= j < |cs| && cs[j] == d;
  }

  /** The single record of an event, or `None` when there is none or more than one. */
  function Only(cs: seq<Corr>, e: CorrelatedEvent): (r: Option<Corr>)
    ensures r.Some? ==> r.value in cs && r.value.event == e
  {
    var m := Filter(cs, e);
    if |m| == 1 then assert m[0] in m; Some(m[0]) else None
  }

  lemma OnlyIsExact(cs: seq<Corr>, e: CorrelatedEvent)
    ensures Only(cs, e).Some? <==> Exactly(cs, e, NoKey, {()})
    ensures Only(cs, e).Some? ==> forall c :: c in cs && c.event == e ==> c == Only(cs, e).value
  {
    var m := Filter(cs, e);
    CountedIsExact(cs, e, NoKey, {()});
    if |m| == 1 {
      assert m[0] in m;
      assert KeysSeen(cs, e, NoKey) == {()};
      forall c | c in cs && c.event == e ensures c == m[0] { assert c in m; }
    }
    if Exactly(cs, e, NoKey, {()}) { ExactlyCount(cs, e, NoKey, {()}); }
    hide Exactly;
  }

  // ----- one episode -----

  /** The entry of a job in the admission roster. */
  function EntryOf(roster: seq<JobReceipt>, job: Option<uint64>): (r: Option<JobReceipt>)
    ensures r.Some? <==> job in ExpectedJobs(roster)
    ensures r.Some? ==> r.value in roster && job == Some(r.value.jobId)
  {
    if roster == [] then None
    else
      var last := roster[|roster| - 1];
      assert roster == roster[..|roster| - 1] + [last];
      if job == Some(last.jobId) then Some(last) else EntryOf(roster[..|roster| - 1], job)
  }

  lemma EntryUnique(roster: seq<JobReceipt>, a: JobReceipt, b: JobReceipt)
    requires ExactRoster(roster) && a in roster && b in roster && a.jobId == b.jobId
    ensures a == b
  {
    var i :| 0 <= i < |roster| && roster[i] == a;
    var j :| 0 <= j < |roster| && roster[j] == b;
  }

  method CheckReceipts(receipts: seq<Corr>, q: Corr, a: Corr) returns (ok: bool)
    requires ExactRoster(a.roster)
    requires forall c :: c in receipts ==> c.jobId in ExpectedJobs(a.roster)
    ensures ok <==> forall c :: c in receipts ==> ReceiptFits(c, q, a)
  {
    var i := 0;
    while i < |receipts|
      invariant 0 <= i <= |receipts|
      invariant forall k :: 0 <= k < i ==> ReceiptFits(receipts[k], q, a)
    {
      var c := receipts[i];
      var entry := EntryOf(a.roster, c.jobId).value;
      if c.workers != entry.workers || !(q.observedAtNs < c.observedAtNs < a.observedAtNs) {
        assert !ReceiptFits(c, q, a) by {
          forall j | j in a.roster && c.jobId == Some(j.jobId)
            ensures c.workers != j.workers || !(q.observedAtNs < c.observedAtNs < a.observedAtNs) {
            EntryUnique(a.roster, j, entry);
          }
        }
        return false;
      }
      i := i + 1;
    }
    return true;
  }

  /** On every worker each completion is later than its submission. */
  method CheckCompletions(submitted: map<StageKey, Corr>, completed: map<StageKey, Corr>, expected: set<StageKey>)
    returns (ok: bool)
    requires submitted.Keys == expected && completed.Keys == expected
    ensures ok <==> forall k :: k in expected ==> submitted[k].observedAtNs < completed[k].observedAtNs
  {
    var rest := expected;
    while rest != {}
      invariant rest <= expected
      invariant forall k :: k in expected - rest ==> submitted[k].observedAtNs < completed[k].observedAtNs
      decreases |rest|
    {
      var k :| k in rest;
      if completed[k].observedAtNs <= submitted[k].observedAtNs {
        return false;
      }
      rest := rest - {k};
    }
    return true;
  }

  /** The first compute of a worker repeats the roster and follows every completion on that worker. */
  predicate ComputeFits(item: Corr, worker: WorkerKey, completed: map<StageKey, Corr>, roster: seq<JobReceipt>) {
    item.roster == roster
    && forall k :: k in completed && k.worker == worker ==> completed[k].observedAtNs < item.observedAtNs
  }

  method CheckComputes(first: map<WorkerKey, Corr>, completed: map<StageKey, Corr>, roster: seq<JobReceipt>)
    returns (ok: bool)
    ensures ok <==> forall w :: w in first ==> ComputeFits(first[w], w, completed, roster)
  {
    var rest := first.Keys;
    while rest != {}
      invariant rest <= first.Keys
      invariant forall w :: w in first.Keys - rest ==> ComputeFits(first[w], w, completed, roster)
      decreases |rest|
    {
      var w :| w in rest;
      if first[w].roster != roster
        || exists k :: k in completed && k.worker == w && first[w].observedAtNs <= completed[k].observedAtNs
      {
        return false;
      }
      rest := rest - {w};
    }
    return true;
  }

  /** The table holds exactly the records of its event, by key. */
  ghost predicate Indexes<K>(cs: seq<Corr>, e: CorrelatedEvent, key: Corr -> K, table: map<K, Corr>) {
    && (forall c :: c in cs && c.event == e ==> key(c) in table && table[key(c)] == c)
    && (forall k :: k in table ==> table[k] in cs && table[k].event == e && key(table[k]) == k)
  }

  lemma IndexIndexes<K>(cs: seq<Corr>, e: CorrelatedEvent, key: Corr -> K)
    requires DistinctKeys(cs, e, key)
    ensures Indexes(cs, e, key, IndexBy(Filter(cs, e), key))
  {
    hide DistinctKeys;
    hide Filter;
    hide IndexBy;
    forall c | c in cs && c.event == e
      ensures key(c) in IndexBy(Filter(cs, e), key) && IndexBy(Filter(cs, e), key)[key(c)] == c
    {
      IndexHolds(cs, e, key, c);
    }
  }

  ghost predicate OrderHolds(cs: seq<Corr>, roster: seq<JobReceipt>) {
    && (forall c, d :: c in cs && d in cs ==> WorkerOrder(c, d))
    && (forall c :: c in cs && c.event.FIRST_COMPUTE? ==> c.roster == roster)
  }

  ghost predicate TablesInOrder(submitted: map<StageKey, Corr>, completed: map<StageKey, Corr>,
                                first: map<WorkerKey, Corr>, roster: seq<JobReceipt>) {
    && (forall k :: k in submitted && k in completed ==> submitted[k].observedAtNs < completed[k].observedAtNs)
    && (forall w :: w in first ==> ComputeFits(first[w], w, completed, roster))
  }

  /** What the loops compare is the order of the events on every worker. */
  lemma TablesShowOrder(cs: seq<Corr>, roster: seq<JobReceipt>, submitted: map<StageKey, Corr>,
                        completed: map<StageKey, Corr>, first: map<WorkerKey, Corr>)
    requires Indexes(cs, RESTORE_SUBMITTED, StageOf, submitted)
    requires Indexes(cs, RESTORE_COMPLETED, StageOf, completed)
    requires Indexes(cs, FIRST_COMPUTE, WorkerOf, first)
    ensures TablesInOrder(submitted, completed, first, roster) <==> OrderHolds(cs, roster)
  {
    if TablesInOrder(submitted, completed, first, roster) {
      forall c, d | c in cs && d in cs ensures WorkerOrder(c, d) {
        if c.event.RESTORE_COMPLETED? && d.event.FIRST_COMPUTE? && WorkerOf(c) == WorkerOf(d) {
          assert ComputeFits(first[WorkerOf(d)], WorkerOf(d), completed, roster);
          assert StageOf(c).worker == WorkerOf(d);
        }
      }
    }
    if OrderHolds(cs, roster) {
      forall k | k in submitted && k in completed ensures submitted[k].observedAtNs < completed[k].observedAtNs {
        assert WorkerOrder(submitted[k], completed[k]);
      }
      forall w | w in first ensures ComputeFits(first[w], w, completed, roster) {
        forall k | k in completed && k.worker == w ensures completed[k].observedAtNs < first[w].observedAtNs {
          assert WorkerOrder(completed[k], first[w]);
        }
      }
    }
  }

  /** With one requeue and one admission, a proof of the episode can only be about them. */
  lemma ProvenMeans(cs: seq<Corr>, q: Corr, a: Corr)
    requires Only(cs, RECOVERY_REQUEUED) == Some(q) && Only(cs, RECOVERY_ADMITTED) == Some(a)
    ensures EpisodeProven(cs) <==> CheckedEpisode(cs, q, a)
  {
    hide ExactStages;
    OnlyIsExact(cs, RECOVERY_REQUEUED);
    OnlyIsExact(cs, RECOVERY_ADMITTED);
    if EpisodeProven(cs) {
      var q', a' :| CheckedEpisode(cs, q', a');
      assert q' == q && a' == a;
    }
  }

  ghost predicate ReceiptStage(cs: seq<Corr>, q: Corr, a: Corr) {
    && Exactly(cs, TRANSFER_RECEIPT, JobOf, ExpectedJobs(a.roster))
    && forall c :: c in cs && c.event.TRANSFER_RECEIPT? ==> ReceiptFits(c, q, a)
  }

  ghost predicate WorkerStages(cs: seq<Corr>, roster: seq<JobReceipt>) {
    && Exactly(cs, RESTORE_SUBMITTED, StageOf, ExpectedStages(roster))
    && Exactly(cs, RESTORE_COMPLETED, StageOf, ExpectedStages(roster))
    && Exactly(cs, FIRST_COMPUTE, WorkerOf, ExpectedWorkers(roster))
    && OrderHolds(cs, roster)
  }

  method CheckReceiptStage(items: seq<Corr>, q: Corr, a: Corr) returns (ok: bool)
    requires ExactRoster(a.roster)
    ensures ok <==> ReceiptStage(items, q, a)
  {
    hide Exactly;
    hide ReceiptFits;
    var receipts := Filter(items, TRANSFER_RECEIPT);
    var jobs := set c | c in receipts :: JobOf(c);
    CountedIsExact(items, TRANSFER_RECEIPT, JobOf, ExpectedJobs(a.roster));
    assert KeysSeen(items, TRANSFER_RECEIPT, JobOf) == jobs;
    if |receipts| != |ExpectedJobs(a.roster)| || jobs != ExpectedJobs(a.roster) {
      return false;
    }
    ok := CheckReceipts(receipts, q, a);
  }

  /** The dictionary of one event's records, if they are one for each expected key. */
  method StageTable<K(==)>(items: seq<Corr>, e: CorrelatedEvent, key: Corr -> K, expected: set<K>)
    returns (ok: bool, table: map<K, Corr>)
    ensures ok <==> Exactly(items, e, key, expected)
    ensures ok ==> table.Keys == expected && Indexes(items, e, key, table)
  {
    hide Exactly;
    hide Indexes;
    var matches := Filter(items, e);
    table := IndexBy(matches, key);
    ok := |table| == |matches| && table.Keys == expected;
    IndexIsExact(items, e, key, expected);
    if ok { ExactIsDistinct(items, e, key, expected); }
  }

  method CheckWorkerStages(items: seq<Corr>, roster: seq<JobReceipt>) returns (ok: bool)
    ensures ok <==> WorkerStages(items, roster)
  {
    hide Exactly;
    hide OrderHolds;
    hide Indexes;
    hide ComputeFits;
    hide ExpectedStages;
    hide ExpectedWorkers;
    var expected := ExpectedStages(roster);
    var submitsOk, submitted := StageTable(items, RESTORE_SUBMITTED, StageOf, expected);
    if !submitsOk {
      return false;
    }
    var completesOk, completed := StageTable(items, RESTORE_COMPLETED, StageOf, expected);
    if !completesOk {
      return false;
    }
    var later := CheckCompletions(submitted, completed, expected);
    var computesOk, first := StageTable(items, FIRST_COMPUTE, WorkerOf, ExpectedWorkers(roster));
    if !computesOk {
      return false;
    }
    TablesShowOrder(items, roster, submitted, completed, first);
    if !later {
      return false;
    }
    ok := CheckComputes(first, completed, roster);
  }

  /** The check of one episode's records, proved against the declarative meaning of a proven episode. */
  method CheckEpisode(items: seq<Corr>) returns (ok: bool)
    requires forall c :: c in items ==> c.Valid()
    ensures ok <==> EpisodeProven(items)
  {
    hide Exactly;
    hide ReceiptFits;
    hide WorkerOrder;
    OnlyIsExact(items, RECOVERY_REQUEUED);
    OnlyIsExact(items, RECOVERY_ADMITTED);
    var requeued, admitted := Only(items, RECOVERY_REQUEUED), Only(items, RECOVERY_ADMITTED);
    hide Only;
    if requeued.None? || admitted.None? {
      return false;
    }
    var q, a := requeued.value, admitted.value;
    ProvenMeans(items, q, a);
    if a.observedAtNs <= q.observedAtNs {
      return false;
    }
    var receiptsOk := CheckReceiptStage(items, q, a);
    if !receiptsOk {
      return false;
    }
    ok := CheckWorkerStages(items, a.roster);
  }

  lemma ExactIsDistinct<K>(cs: seq<Corr>, e: CorrelatedEvent, key: Corr -> K, keys: set<K>)
    requires Exactly(cs, e, key, keys)
    ensures Indexes(cs, e, key, IndexBy(Filter(cs, e), key))
  {
    IndexIndexes(cs, e, key);
    hide Indexes;
  }
}
