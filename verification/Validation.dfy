/** The two offline validators over the records of an artifact set. */
module Validation {
  import opened Basics
  import opened Schema
  import opened Normalization
  import opened NormalizerAcceptance
  import opened NormalizerReplay
  import opened RestoreChain
  import Correlated
  import opened CorrelatedChain
  import opened CorrelatedValidation

  /** A validated record. Unjoined host facts prove no stage of a chain, so their content is not modelled. */
  datatype Record =
    | Canonical(observation: KVTransferObservation)
    | UnjoinedFact
    | CorrelatedRecord(link: Corr)
  {
    predicate Valid() {
      (Canonical? ==> observation.Valid()) && (CorrelatedRecord? ==> link.Valid())
    }
  }

  predicate ValidRecords(records: seq<Record>) {
    forall i :: 0 <= i < |records| ==> records[i].Valid()
  }

  function CorrelatedOf(records: seq<Record>): (cs: seq<Corr>)
    ensures ValidRecords(records) ==> forall c :: c in cs ==> c.Valid()
  {
    if records == [] then []
    else
      var rest, last := CorrelatedOf(records[..|records| - 1]), records[|records| - 1];
      if last.CorrelatedRecord? then rest + [last.link] else rest
  }

  function CanonicalOf(records: seq<Record>): (os: seq<KVTransferObservation>)
    ensures ValidRecords(records) ==> AllValid(os)
  {
    if records == [] then []
    else
      var rest, last := CanonicalOf(records[..|records| - 1]), records[|records| - 1];
      if last.Canonical? then rest + [last.observation] else rest
  }

  predicate HasCorrelated(records: seq<Record>, req: string) {
    exists i :: 0 <= i < |records| && records[i].CorrelatedRecord? && records[i].link.requestId == req
  }

  /** The verdict on a request: correlated records, if it has any, decide alone. */
  ghost function RestoreVerdict(records: seq<Record>, req: string): Option<nat>
    requires ValidRecords(records)
  {
    if HasCorrelated(records, req) then CorrelatedVerdict(CorrelatedOf(records), req)
    else ChainVerdict(CanonicalOf(records), req)
  }

  // ----- the correlated validator -----

  datatype OwnerKey = OwnerKey(schedulerGeneration: Correlated.Uuid, job: int)

  function JobIds(c: Corr): (ids: seq<int>)
    ensures forall job :: job in ids <==> MentionsJob(c, job)
  {
    var own: seq<int> := if c.jobId.Some? then [c.jobId.value] else [];
    var listed: seq<int> := seq(|c.roster|, i requires 0 <= i < |c.roster| => c.roster[i].jobId);
    assert forall i :: 0 <= i < |listed| ==> c.roster[i] in c.roster && listed[i] == c.roster[i].jobId;
    assert forall j :: j in c.roster ==> j.jobId in listed by {
      forall j | j in c.roster ensures j.jobId in listed {
        var i :| 0 <= i < |c.roster| && c.roster[i] == j;
        assert listed[i] == j.jobId;
      }
    }
    own + listed
  }

  /** Record `c` of the episode claims job `job`, and that is the episode recorded for it. */
  predicate Claims(c: Corr, k: OwnerKey, episode: EpisodeKey) {
    c.schedulerGeneration == k.schedulerGeneration && MentionsJob(c, k.job) && KeyOf(c) == episode
  }

  /** Every claim names an episode that mentions the job, and every mention is a claim. */
  ghost predicate OwnersOf(owner: map<OwnerKey, EpisodeKey>, m: seq<Corr>) {
    && (forall c, job :: c in m && MentionsJob(c, job) ==>
          OwnerKey(c.schedulerGeneration, job) in owner && owner[OwnerKey(c.schedulerGeneration, job)] == KeyOf(c))
    && (forall k :: k in owner ==> exists c :: c in m && Claims(c, k, owner[k]))
  }

  ghost predicate NoConflict(owner: map<OwnerKey, EpisodeKey>, c: Corr, jobs: set<int>) {
    forall job :: job in jobs && OwnerKey(c.schedulerGeneration, job) in owner ==>
      owner[OwnerKey(c.schedulerGeneration, job)] == KeyOf(c)
  }

  /** `claimed` is `owner` with the jobs `jobs` claimed for the episode of `c`. */
  ghost predicate ClaimedFor(owner: map<OwnerKey, EpisodeKey>, claimed: map<OwnerKey, EpisodeKey>, c: Corr,
                             jobs: set<int>)
  {
    && (forall k :: k in claimed <==> k in owner || (k.schedulerGeneration == c.schedulerGeneration && k.job in jobs))
    && (forall k :: k in claimed ==> claimed[k] == if k in owner then owner[k] else KeyOf(c))
  }

  function MentionedJobs(c: Corr): (jobs: set<int>)
    ensures forall job :: job in jobs <==> MentionsJob(c, job)
  {
    ToSet(JobIds(c))
  }

  lemma ClaimOne(owner: map<OwnerKey, EpisodeKey>, claimed: map<OwnerKey, EpisodeKey>, c: Corr, jobs: set<int>,
                 job: int)
    requires ClaimedFor(owner, claimed, c, jobs) && NoConflict(owner, c, jobs)
    ensures var k := OwnerKey(c.schedulerGeneration, job);
      if k in claimed && claimed[k] != KeyOf(c) then k in owner && owner[k] != KeyOf(c)
      else ClaimedFor(owner, claimed[k := KeyOf(c)], c, jobs + {job}) && NoConflict(owner, c, jobs + {job})
  {
    hide MentionsJob;
  }

  lemma PrefixSet(ids: seq<int>, i: int)
    requires 0 <= i < |ids|
    ensures ToSet(ids[..i + 1]) == ToSet(ids[..i]) + {ids[i]} && ids[i] in ToSet(ids)
  {
  }

  /** Claims the jobs of one record; fails when another episode owns one of them. */
  method ClaimJobs(owner: map<OwnerKey, EpisodeKey>, c: Corr) returns (ok: bool, claimed: map<OwnerKey, EpisodeKey>)
    ensures ok <==> NoConflict(owner, c, MentionedJobs(c))
    ensures ok ==> ClaimedFor(owner, claimed, c, MentionedJobs(c))
  {
    hide ClaimedFor;
    hide NoConflict;
    hide MentionsJob;
    hide ToSet;
    var ids := JobIds(c);
    claimed := owner;
    var i := 0;
    NothingClaimed(owner, c);
    while i < |ids|
      invariant 0 <= i <= |ids|
      invariant ClaimedFor(owner, claimed, c, ToSet(ids[..i]))
      invariant NoConflict(owner, c, ToSet(ids[..i]))
    {
      var k := OwnerKey(c.schedulerGeneration, ids[i]);
      ClaimOne(owner, claimed, c, ToSet(ids[..i]), ids[i]);
      if k in claimed && claimed[k] != KeyOf(c) {
        ConflictAt(owner, c, ids[i]);
        return false, owner;
      }
      claimed := claimed[k := KeyOf(c)];
      PrefixSet(ids, i);
      i := i + 1;
    }
    assert ids[..i] == ids;
    ok := true;
  }

  lemma ConflictAt(owner: map<OwnerKey, EpisodeKey>, c: Corr, job: int)
    requires MentionsJob(c, job)
    requires var k := OwnerKey(c.schedulerGeneration, job); k in owner && owner[k] != KeyOf(c)
    ensures !NoConflict(owner, c, MentionedJobs(c))
  {
    assert job in MentionedJobs(c);
  }

  lemma NothingClaimed(owner: map<OwnerKey, EpisodeKey>, c: Corr)
    ensures ClaimedFor(owner, owner, c, ToSet([])) && NoConflict(owner, c, ToSet([]))
  {
  }

  lemma OwnersFollow(owner: map<OwnerKey, EpisodeKey>, claimed: map<OwnerKey, EpisodeKey>, m: seq<Corr>, c: Corr)
    requires OwnersOf(owner, m) && NoConflict(owner, c, MentionedJobs(c)) &&
        ClaimedFor(owner, claimed, c, MentionedJobs(c))
    ensures OwnersOf(claimed, m + [c])
  {
    hide MentionsJob;
    forall k | k in claimed ensures exists d :: d in m + [c] && Claims(d, k, claimed[k]) {
      if k in owner {
        var d :| d in m && Claims(d, k, owner[k]);
        assert d in m + [c];
      } else {
        assert c in m + [c] && Claims(c, k, claimed[k]);
      }
    }
  }

  lemma OwnersMeanOwned(owner: map<OwnerKey, EpisodeKey>, m: seq<Corr>)
    requires OwnersOf(owner, m)
    ensures JobsOwned(m)
  {
    hide MentionsJob;
  }

  /** A job that another episode owns breaks the ownership rule in every longer list. */
  lemma ConflictBreaksOwnership(owner: map<OwnerKey, EpisodeKey>, m: seq<Corr>, c: Corr, longer: seq<Corr>)
    requires OwnersOf(owner, m) && !NoConflict(owner, c, MentionedJobs(c))
    requires c in longer && forall d :: d in m ==> d in longer
    ensures !JobsOwned(longer)
  {
    hide MentionsJob;
    var job :| job in MentionedJobs(c) && OwnerKey(c.schedulerGeneration, job) in owner
      && owner[OwnerKey(c.schedulerGeneration, job)] != KeyOf(c);
    var k := OwnerKey(c.schedulerGeneration, job);
    var d :| d in m && Claims(d, k, owner[k]);
    assert MentionsJob(c, job) && MentionsJob(d, job);
  }

  lemma CorrelatedPrefix(records: seq<Record>, i: int)
    requires 0 <= i < |records|
    ensures CorrelatedOf(records[..i + 1]) ==
      if records[i].CorrelatedRecord? then CorrelatedOf(records[..i]) + [records[i].link]
        else CorrelatedOf(records[..i])
    ensures CanonicalOf(records[..i + 1]) ==
      if records[i].Canonical? then CanonicalOf(records[..i]) + [records[i].observation] else CanonicalOf(records[..i])
  {
    assert records[..i + 1][..i] == records[..i];
  }

  lemma MatchingAppend(cs: seq<Corr>, c: Corr, req: string)
    ensures Matching(cs + [c], req) == if c.requestId == req then Matching(cs, req) + [c] else Matching(cs, req)
  {
    assert (cs + [c])[..|cs|] == cs;
  }

  lemma GroupAppend(cs: seq<Corr>, c: Corr, k: EpisodeKey)
    ensures Group(cs + [c], k) == if KeyOf(c) == k then Group(cs, k) + [c] else Group(cs, k)
    ensures Keys(cs + [c]) == Keys(cs) + {KeyOf(c)}
  {
    assert (cs + [c])[..|cs|] == cs;
  }

  lemma {:induction false} PrefixContained(records: seq<Record>, i: int, req: string)
    requires 0 <= i <= |records|
    ensures forall c :: c in Matching(CorrelatedOf(records[..i]), req) ==> c in Matching(CorrelatedOf(records), req)
    decreases |records| - i
  {
    if i < |records| {
      CorrelatedPrefix(records, i);
      if records[i].CorrelatedRecord? { MatchingAppend(CorrelatedOf(records[..i]), records[i].link, req); }
      PrefixContained(records, i + 1, req);
    } else {
      assert records[..i] == records;
    }
  }

  /** The dictionary holds, for every episode with a record, its records in order. */
  ghost predicate GroupsOf(groups: map<EpisodeKey, seq<Corr>>, m: seq<Corr>) {
    && groups.Keys == Keys(m)
    && (forall k :: k in groups ==> groups[k] == Group(m, k))
    && (forall k :: k !in groups ==> Group(m, k) == [])
  }

  lemma GroupsFollow(groups: map<EpisodeKey, seq<Corr>>, m: seq<Corr>, c: Corr)
    requires GroupsOf(groups, m)
    ensures GroupsOf(groups[KeyOf(c) := (if KeyOf(c) in groups then groups[KeyOf(c)] else []) + [c]], m + [c])
  {
    hide Group;
    hide Keys;
    forall k
      ensures Group(m + [c], k) == (if KeyOf(c) == k then Group(m, k) + [c] else Group(m, k))
      ensures Keys(m + [c]) == Keys(m) + {KeyOf(c)}
    {
      GroupAppend(m, c, k);
    }
  }

  method GroupRecords(records: seq<Record>, req: string) returns (ok: bool, groups: map<EpisodeKey, seq<Corr>>)
    requires ValidRecords(records)
    ensures ok <==> JobsOwned(Matching(CorrelatedOf(records), req))
    ensures ok ==> GroupsOf(groups, Matching(CorrelatedOf(records), req))
  {
    hide JobsOwned;
    hide OwnersOf;
    hide NoConflict;
    hide ClaimedFor;
    hide MentionsJob;
    hide GroupsOf;
    hide Matching;
    hide CorrelatedOf;
    hide Record.Valid;
    groups := map[];
    var owner: map<OwnerKey, EpisodeKey> := map[];
    var i := 0;
    EmptyGroups(records, req);
    while i < |records|
      invariant 0 <= i <= |records|
      invariant GroupsOf(groups, Matching(CorrelatedOf(records[..i]), req))
      invariant OwnersOf(owner, Matching(CorrelatedOf(records[..i]), req))
    {
      ghost var m := Matching(CorrelatedOf(records[..i]), req);
      CorrelatedPrefix(records, i);
      if records[i].CorrelatedRecord? { MatchingAppend(CorrelatedOf(records[..i]), records[i].link, req); }
      if records[i].CorrelatedRecord? && records[i].link.requestId == req {
        var c := records[i].link;
        GroupsFollow(groups, m, c);
        groups := groups[KeyOf(c) := (if KeyOf(c) in groups then groups[KeyOf(c)] else []) + [c]];
        var claimedOk, claimed := ClaimJobs(owner, c);
        if !claimedOk {
          PrefixContained(records, i, req);
          PrefixContained(records, i + 1, req);
          assert c in m + [c];
          ConflictBreaksOwnership(owner, m, c, Matching(CorrelatedOf(records), req));
          return false, groups;
        }
        OwnersFollow(owner, claimed, m, c);
        owner := claimed;
      }
      i := i + 1;
    }
    assert records[..i] == records;
    OwnersMeanOwned(owner, Matching(CorrelatedOf(records), req));
    ok := true;
  }

  lemma EmptyGroups(records: seq<Record>, req: string)
    ensures var m := Matching(CorrelatedOf(records[..0]), req); m == [] && GroupsOf(map[], m) && OwnersOf(map[], m)
  {
  }

  /** The correlated validator: group, check job ownership, then check every episode. */
  method ValidateCorrelatedRestoreChain(records: seq<Record>, req: string) returns (r: Option<nat>)
    requires ValidRecords(records)
    ensures r == CorrelatedVerdict(CorrelatedOf(records), req)
  {
    ghost var m := Matching(CorrelatedOf(records), req);
    InMatching(CorrelatedOf(records), req);
    hide JobsOwned;
    hide EpisodeProven;
    hide Matching;
    hide CorrelatedOf;
    var ok, groups := GroupRecords(records, req);
    if !ok {
      return None;
    }
    KeysEmpty(m);
    if groups == map[] {
      return None;
    }
    var rest := groups.Keys;
    while rest != {}
      invariant rest <= groups.Keys
      invariant forall k :: k in groups.Keys - rest ==> EpisodeProven(groups[k])
      decreases |rest|
    {
      var k :| k in rest;
      InGroup(m, k);
      var proven := CheckEpisode(groups[k]);
      if !proven {
        assert k in Keys(m) && !EpisodeProven(Group(m, k));
        return None;
      }
      rest := rest - {k};
    }
    assert |groups| == |groups.Keys|;
    r := Some(|groups|);
  }

  lemma KeysEmpty(m: seq<Corr>)
    ensures Keys(m) == {} <==> m == []
  {
    if m != [] { assert KeyOf(m[0]) in Keys(m); }
  }

  // ----- the canonical validator -----

  /** The chain state held in the validator's local variables and in its normalizer. */
  ghost function StateOf(episodes: map<ObservationIdentity, Episode>, seenTransfers: set<TransferIdentity>,
                         seenReceipts: set<ReceiptIdentity>, normalizer: LifecycleNormalizer): Chain
    reads normalizer
  {
    Chain(episodes, seenTransfers, seenReceipts, normalizer.Abstract())
  }

  /** The body of the loop for one relevant record: `ok` is false where the source raises. */
  method CheckRelevant(o: KVTransferObservation, episodes: map<ObservationIdentity, Episode>,
                       seenTransfers: set<TransferIdentity>, seenReceipts: set<ReceiptIdentity>,
                       normalizer: LifecycleNormalizer)
    returns (ok: bool, episodes': map<ObservationIdentity, Episode>, seenTransfers': set<TransferIdentity>,
             seenReceipts': set<ReceiptIdentity>)
    requires o.Valid() && IsSuccessEvent(o.event)
    modifies normalizer
    ensures var next := RelevantStep(old(StateOf(episodes, seenTransfers, seenReceipts, normalizer)), o);
      && (ok <==> next.Some?)
      && (ok ==> next.value == StateOf(episodes', seenTransfers', seenReceipts', normalizer))
  {
    hide Step;
    hide KVTransferObservation.FieldsInRange;
    episodes', seenTransfers', seenReceipts' := episodes, seenTransfers, seenReceipts;
    ok := false;
    if o.event.RECOVERY_REQUEUED? {
      if o.identity in episodes' {
        return;
      }
      episodes' := episodes'[o.identity := Episode({}, {}, false, false, o.observedAtNs)];
    }
    if o.identity !in episodes' || episodes'[o.identity].computed {
      return;
    }
    var episode := episodes'[o.identity];
    if o.observedAtNs < episode.lastNs {
      return;
    }
    episode := episode.(lastNs := o.observedAtNs);
    if o.receipt.Some? {
      if o.receipt.value in seenReceipts' {
        return;
      }
      seenReceipts' := seenReceipts' + {o.receipt.value};
    }
    match o.event {
      case RECOVERY_REQUEUED =>
      case RESTORE_STARTED =>
        if episode.admitted || o.transfer.value in seenTransfers' {
          return;
        }
        seenTransfers' := seenTransfers' + {o.transfer.value};
        episode := episode.(started := episode.started + {o.transfer.value});
      case RESTORE_COMPLETED =>
        if episode.admitted {
          return;
        }
        episode := episode.(completed := episode.completed + {o.transfer.value});
      case RECOVERY_ADMITTED =>
        var roster := ToSet(o.associatedTransfers);
        if episode.admitted || roster == {} || roster != episode.started || roster != episode.completed {
          return;
        }
        episode := episode.(admitted := true);
      case FIRST_COMPUTE =>
        episode := episode.(computed := true);
    }
    episodes' := episodes'[o.identity := episode];
    var result := normalizer.Normalize(SourceOf(o));
    ok := result == Some(o);
  }

  lemma {:induction false} RejectedStaysRejected(records: seq<Record>, i: int, req: string)
    requires ValidRecords(records) && 0 <= i <= |records|
    requires ChainRun(CanonicalOf(records[..i]), req).None?
    ensures ChainRun(CanonicalOf(records), req).None?
    decreases |records| - i
  {
    hide ChainStep;
    if i == |records| {
      assert records[..i] == records;
    } else {
      CorrelatedPrefix(records, i);
      var os := CanonicalOf(records[..i]);
      if records[i].Canonical? { assert (os + [records[i].observation])[..|os|] == os; }
      RejectedStaysRejected(records, i + 1, req);
    }
  }

  lemma ChainRunAppend(os: seq<KVTransferObservation>, o: KVTransferObservation, req: string)
    requires AllValid(os) && o.Valid()
    ensures AllValid(os + [o])
    ensures ChainRun(os + [o], req) ==
      if ChainRun(os, req).None? then None else ChainStep(ChainRun(os, req).value, req, o)
  {
    hide ChainStep;
    hide KVTransferObservation.Valid;
    assert (os + [o])[..|os|] == os;
  }

  /** The check over the canonical records, with a fresh bounded normalizer that it closes again. */
  method ValidateCanonicalChain(records: seq<Record>, req: string) returns (r: Option<nat>)
    requires ValidRecords(records)
    ensures r == ChainVerdict(CanonicalOf(records), req)
  {
    hide RelevantStep;
    hide CanonicalOf;
    hide KVTransferObservation.Valid;
    var episodes: map<ObservationIdentity, Episode> := map[];
    var seenTransfers: set<TransferIdentity> := {};
    var seenReceipts: set<ReceiptIdentity> := {};
    var normalizer := new LifecycleNormalizer(DefaultConfig());
    var i := 0;
    NoRecordsYet(records, req);
    while i < |records|
      invariant 0 <= i <= |records|
      invariant ChainRun(CanonicalOf(records[..i]), req)
          == Some(StateOf(episodes, seenTransfers, seenReceipts, normalizer))
    {
      CorrelatedPrefix(records, i);
      if records[i].Canonical? {
        var o := records[i].observation;
        assert records[i].Valid();
        ChainRunAppend(CanonicalOf(records[..i]), o, req);
        if o.identity.requestId == req {
          var ok := true;
          if IsSuccessEvent(o.event) {
            ok, episodes, seenTransfers, seenReceipts :=
              CheckRelevant(o, episodes, seenTransfers, seenReceipts, normalizer);
          } else {
            ok := o.direction != Some(H2D);
          }
          if !ok {
            RejectedStaysRejected(records, i + 1, req);
            normalizer.Close();
            return None;
          }
        }
      }
      i := i + 1;
    }
    assert records[..i] == records;
    normalizer.Close();
    if episodes == map[] || exists id :: id in episodes && !episodes[id].computed {
      return None;
    }
    r := Some(|episodes|);
  }

  lemma NoRecordsYet(records: seq<Record>, req: string)
    ensures CanonicalOf(records[..0]) == [] && ChainRun([], req) == Some(EmptyChain())
  {
  }

  /** The restore-chain validator. */
  method ValidateRestoreChain(records: seq<Record>, req: string) returns (r: Option<nat>)
    requires ValidRecords(records)
    ensures r == RestoreVerdict(records, req)
  {
    if HasCorrelated(records, req) {
      r := ValidateCorrelatedRestoreChain(records, req);
    } else {
      r := ValidateCanonicalChain(records, req);
    }
  }

  // ----- artifact order -----

  lemma {:induction false} CorrelatedMultiset(records: seq<Record>)
    ensures forall c :: multiset(CorrelatedOf(records))[c] == multiset(records)[CorrelatedRecord(c)]
  {
    if records != [] {
      var n := |records| - 1;
      CorrelatedMultiset(records[..n]);
      assert records == records[..n] + [records[n]];
    }
  }

  /** Artifacts of correlated requests may be concatenated in any order. */
  lemma ArtifactOrderIrrelevant(a: seq<Record>, b: seq<Record>, req: string)
    requires ValidRecords(a) && ValidRecords(b) && multiset(a) == multiset(b) && HasCorrelated(a, req)
    ensures RestoreVerdict(a, req) == RestoreVerdict(b, req)
  {
    hide CorrelatedVerdict;
    CorrelatedMultiset(a);
    CorrelatedMultiset(b);
    assert multiset(CorrelatedOf(a)) == multiset(CorrelatedOf(b));
    OrderIrrelevant(CorrelatedOf(a), CorrelatedOf(b), req);
    SameElements(a, b);
    var i :| 0 <= i < |a| && a[i].CorrelatedRecord? && a[i].link.requestId == req;
    assert a[i] in b;
  }
}
