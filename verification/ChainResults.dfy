/** What the restore-chain verdict means, for every list of records. */
module ChainResults {
  import opened Basics
  import opened Schema
  import opened NormalizerReplay
  import opened NormalizerInvariant
  import opened RestoreChain
  import opened EpisodeShape
  import opened ChainState
  import opened ChainTables
  import opened ChainTheorem

  lemma OfSuccess(r: seq<KVTransferObservation>, id: ObservationIdentity)
    requires AllSuccess(r)
    ensures AllSuccess(Of(r, id))
  {
    InOf(r, id);
    forall i | 0 <= i < |Of(r, id)| ensures Of(r, id)[i].Valid() && IsSuccessEvent(Of(r, id)[i].event) {
      assert Of(r, id)[i] in Of(r, id);
    }
  }

  lemma RelevantSuccess(os: seq<KVTransferObservation>, req: string)
    requires AllValid(os)
    ensures AllSuccess(Relevant(os, req))
  {
    assert forall i :: 0 <= i < |Relevant(os, req)| ==> IsRelevant(Relevant(os, req)[i], req);
  }

  /** A shaped episode is complete exactly when it has computed. */
  lemma ComputedIsComplete(sub: seq<KVTransferObservation>)
    requires AllSuccess(sub) && sub != []
    ensures CompleteEpisode(sub) <==> Shaped(sub) && IsComputed(sub)
  {
    if CompleteEpisode(sub) { CompleteIsShaped(sub); }
    if Shaped(sub) && IsComputed(sub) {
      ComputedEndsEpisode(sub);
      ShapedIsComplete(sub);
    }
    hide Shaped;
    hide CompleteEpisode;
    hide AllSuccess;
  }

  lemma ComputedEndsEpisode(sub: seq<KVTransferObservation>)
    requires ComputesLast(sub) && IsComputed(sub)
    ensures sub[|sub| - 1].event.FIRST_COMPUTE?
  {
  }

  lemma PartialAndComputed(r: seq<KVTransferObservation>)
    requires AllSuccess(r)
    ensures Partial(r) && (forall id :: id in Identities(r) ==> IsComputed(Of(r, id))) <==>
      EpisodesDisjoint(r) && forall id :: id in Identities(r) ==> CompleteEpisode(Of(r, id))
  {
    forall id: ObservationIdentity
      ensures id in Identities(r) ==> (CompleteEpisode(Of(r, id)) <==> Shaped(Of(r, id)) && IsComputed(Of(r, id)))
      ensures id !in Identities(r) ==> Shaped(Of(r, id))
    {
      OfSets(r, id);
      OfSuccess(r, id);
      if id in Identities(r) { ComputedIsComplete(Of(r, id)); }
    }
    hide Shaped;
    hide CompleteEpisode;
    hide IsComputed;
    hide Identities;
    hide EpisodesDisjoint;
    hide Of;
  }

  /**
   * The verdict is `n` exactly when the request's records split by identity into `n >= 1`
   * complete, disjoint episodes, no unsuccessful H2D record belongs to the request, and
   * the records are interleaved so that no table of the validator's normalizer overflows.
   */
  lemma VerdictExact(os: seq<KVTransferObservation>, req: string, n: nat)
    requires AllValid(os)
    ensures ChainVerdict(os, req) == Some(n) <==> CompleteChain(os, req, n) && WithinCapacity(Relevant(os, req))
  {
    hide Partial;
    hide WithinCapacity;
    hide NoUnsuccessfulRestore;
    hide EpisodesDisjoint;
    hide CompleteEpisode;
    hide Identities;
    hide IsComputed;
    hide Of;
    hide Relevant;
    hide ChainRun;
    hide Rel;
    var r := Relevant(os, req);
    RunIff(os, req);
    RelevantSuccess(os, req);
    PartialAndComputed(r);
    if ChainRun(os, req).Some? {
      var c := ChainRun(os, req).value;
      RelEpisodes(r, c);
      assert |c.episodes| == |c.episodes.Keys|;
    }
  }

  lemma RelEpisodes(r: seq<KVTransferObservation>, c: Chain)
    requires Rel(r, c)
    ensures c.episodes.Keys == Identities(r)
    ensures forall id :: id in c.episodes ==> (c.episodes[id].computed <==> IsComputed(Of(r, id)))
  {
    hide Partial;
    hide TablesRel;
    hide Of;
    hide IsComputed;
    hide StartedIn;
    hide DoneIn;
    hide ReceiptsIn;
  }

  // ----- when capacity does not matter -----

  lemma {:induction false} PrefixPartial(r: seq<KVTransferObservation>, i: int)
    requires AllSuccess(r) && Partial(r) && 0 <= i < |r|
    ensures Partial(r[..i]) && Follows(r[..i], r[i])
    decreases |r|
  {
    hide Partial;
    hide Follows;
    hide KVTransferObservation.Valid;
    var n := |r| - 1;
    assert r == r[..n] + [r[n]];
    PartialAppend(r[..n], r[n]);
    FollowsUnfold(r[..n], r[n]);
    if i < n {
      PrefixPartial(r[..n], i);
      assert r[..n][..i] == r[..i] && r[..n][i] == r[i];
    }
  }

  lemma FollowsUnfold(r: seq<KVTransferObservation>, o: KVTransferObservation)
    requires o.Valid()
    ensures Follows(r, o) <==> CanFollow(Of(r, o.identity), o) && Fresh(r, o)
  {
  }

  lemma StartedPrefix(r: seq<KVTransferObservation>, i: int)
    requires 0 <= i < |r|
    ensures StartedIn(r[..i]) <= StartedIn(r)
    ensures IsStarted(r[i]) ==> r[i].transfer.value in StartedIn(r)
  {
    forall t | t in StartedIn(r[..i]) ensures t in StartedIn(r) {
      var j :| 0 <= j < i && IsStarted(r[..i][j]) && r[..i][j].transfer.value == t;
      assert r[j] == r[..i][j];
    }
  }

  lemma ProperSubset<T>(small: set<T>, large: set<T>, x: T)
    requires small <= large && x in large && x !in small
    ensures |small| < |large|
  {
    SubsetCardinality(small + {x}, large);
  }

  /** Identities that own pairwise different transfers are at most as many as the transfers. */
  lemma {:induction false} OwnersAtMost(p: seq<KVTransferObservation>, ids: set<ObservationIdentity>,
                                        ts: set<TransferIdentity>)
    requires EpisodesDisjoint(p)
    requires forall id :: id in ids ==> exists t :: t in ts && t in StartedIn(Of(p, id))
    ensures |ids| <= |ts|
    decreases |ids|
  {
    hide StartedIn;
    hide Of;
    if ids != {} {
      var id :| id in ids;
      var t :| t in ts && t in StartedIn(Of(p, id));
      forall other | other in ids - {id} ensures exists u :: u in ts - {t} && u in StartedIn(Of(p, other)) {
        var u :| u in ts && u in StartedIn(Of(p, other));
        assert DisjointPair(p, id, other);
      }
      OwnersAtMost(p, ids - {id}, ts - {t});
    }
  }

  lemma HeldOwnsTransfer(p: seq<KVTransferObservation>, id: ObservationIdentity)
    requires AllSuccess(p) && Partial(p) && id in Held(p)
    ensures exists t :: t in StartedIn(p) && t in StartedIn(Of(p, id))
  {
    var i :| 0 <= i < |p| && p[i].event.RECOVERY_ADMITTED? && p[i].identity == id;
    var j := FindInEpisode(p, i);
    var sub := Of(p, id);
    assert Shaped(sub) && sub[j].Valid();
    assert sub[j].associatedTransfers[0] in ToSet(sub[j].associatedTransfers);
    var t := sub[j].associatedTransfers[0];
    assert t in StartedIn(sub[..j]);
    StartedPrefix(sub, j);
    OfSets(p, id);
  }

  lemma RoomAlways(r: seq<KVTransferObservation>, i: int)
    requires AllSuccess(r) && Partial(r) && 0 <= i < |r| && |StartedIn(r)| <= LIMIT
    ensures Room(r[..i], r[i])
  {
    hide Partial;
    hide Retained;
    hide Held;
    hide KVTransferObservation.FieldsInRange;
    var p, o := r[..i], r[i];
    PrefixPartial(r, i);
    StartedPrefix(r, i);
    AllDoneStarted(p);
    SubsetCardinality(StartedIn(p), StartedIn(r));
    match o.event
    case RESTORE_STARTED =>
      assert o.Valid();
      ProperSubset(StartedIn(p) - DoneIn(p), StartedIn(r), o.transfer.value);
    case RESTORE_COMPLETED =>
      assert o.Valid();
      DoneIsNew(p, o);
      RetainedIsDone(p);
      ProperSubset(Retained(p), StartedIn(p), o.transfer.value);
    case RECOVERY_ADMITTED => RoomForAdmission(p, o);
    case _ =>
  }

  lemma RetainedIsDone(p: seq<KVTransferObservation>)
    ensures Retained(p) <= DoneIn(p)
  {
  }

  lemma RoomForAdmission(p: seq<KVTransferObservation>, o: KVTransferObservation)
    requires AllSuccess(p) && Partial(p) && o.Valid() && o.event.RECOVERY_ADMITTED? && Follows(p, o)
    ensures |Held(p)| < |StartedIn(p)|
  {
    hide KVTransferObservation.FieldsInRange;
    var own := o.identity;
    assert o.associatedTransfers[0] in ToSet(o.associatedTransfers);
    assert o.associatedTransfers[0] in StartedIn(Of(p, own));
    OfSets(p, own);
    forall j | 0 <= j < |p| && p[j].event.RECOVERY_ADMITTED? ensures p[j].identity != own { RecordInOf(p, j); }
    assert own !in Held(p);
    forall id | id in Held(p) + {own} ensures exists t :: t in StartedIn(p) && t in StartedIn(Of(p, id)) {
      if id in Held(p) { HeldOwnsTransfer(p, id); }
    }
    hide Held;
    hide StartedIn;
    hide Of;
    OwnersAtMost(p, Held(p) + {own}, StartedIn(p));
  }

  lemma BoundedIsWithinCapacity(r: seq<KVTransferObservation>)
    requires AllSuccess(r) && Partial(r) && |StartedIn(r)| <= LIMIT
    ensures WithinCapacity(r)
  {
    hide Room;
    hide Partial;
    forall i | 0 <= i < |r| ensures Room(r[..i], r[i]) { RoomAlways(r, i); }
  }

  /** With at most 4096 restores in all, the verdict is `n` exactly when the chain is complete with `n` episodes. */
  lemma VerdictOfBoundedChain(os: seq<KVTransferObservation>, req: string, n: nat)
    requires AllValid(os) && |StartedIn(Relevant(os, req))| <= LIMIT
    ensures ChainVerdict(os, req) == Some(n) <==> CompleteChain(os, req, n)
  {
    var r := Relevant(os, req);
    VerdictExact(os, req, n);
    RelevantSuccess(os, req);
    PartialAndComputed(r);
    if CompleteChain(os, req, n) { BoundedIsWithinCapacity(r); }
    hide CompleteEpisode;
    hide WithinCapacity;
    hide Partial;
    hide ChainVerdict;
  }

  // ----- interleaving -----

  /** Both lists give every identity of the request the same records in the same order. */
  ghost predicate SameStreams(os1: seq<KVTransferObservation>, os2: seq<KVTransferObservation>, req: string) {
    forall id: ObservationIdentity :: id.requestId == req ==> Of(os1, id) == Of(os2, id)
  }

  function Successes(os: seq<KVTransferObservation>): (r: seq<KVTransferObservation>) {
    if os == [] then []
    else
      var rest := Successes(os[..|os| - 1]);
      if IsSuccessEvent(os[|os| - 1].event) then rest + [os[|os| - 1]] else rest
  }

  lemma {:induction false} OfRelevant(os: seq<KVTransferObservation>, req: string, id: ObservationIdentity)
    ensures Of(Relevant(os, req), id) == if id.requestId == req then Successes(Of(os, id)) else []
  {
    if os != [] {
      var n := |os| - 1;
      var o, before := os[n], os[..n];
      assert os == before + [o];
      OfRelevant(before, req, id);
      OfAppend(before, o, id);
      if IsRelevant(o, req) { OfAppend(Relevant(before, req), o, id); }
      var sub := Of(before, id);
      assert (sub + [o])[..|sub|] == sub;
    }
  }

  lemma StreamsKeepFailures(os1: seq<KVTransferObservation>, os2: seq<KVTransferObservation>, req: string)
    requires SameStreams(os1, os2, req) && NoUnsuccessfulRestore(os1, req)
    ensures NoUnsuccessfulRestore(os2, req)
  {
    forall i | 0 <= i < |os2| && os2[i].identity.requestId == req && !IsSuccessEvent(os2[i].event)
      ensures os2[i].direction != Some(H2D)
    {
      RecordInOf(os2, i);
      InOf(os1, os2[i].identity);
      var j :| 0 <= j < |os1| && os1[j] == os2[i];
    }
  }

  lemma SubsetOfStarted(r1: seq<KVTransferObservation>, r2: seq<KVTransferObservation>)
    requires forall id: ObservationIdentity :: Of(r1, id) == Of(r2, id)
    ensures StartedIn(r1) <= StartedIn(r2) && Identities(r1) <= Identities(r2)
  {
    forall t | t in StartedIn(r1) ensures t in StartedIn(r2) {
      var i :| 0 <= i < |r1| && IsStarted(r1[i]) && r1[i].transfer.value == t;
      RecordInOf(r1, i);
      OfSets(r2, r1[i].identity);
    }
    forall id | id in Identities(r1) ensures id in Identities(r2) {
      OfSets(r1, id);
      OfSets(r2, id);
    }
  }

  lemma StreamsKeepCompleteness(os1: seq<KVTransferObservation>, os2: seq<KVTransferObservation>, req: string, n: nat)
    requires SameStreams(os1, os2, req) && CompleteChain(os1, req, n)
    ensures CompleteChain(os2, req, n)
  {
    hide StartedIn;
    hide ReceiptsIn;
    hide Identities;
    hide CompleteEpisode;
    hide NoUnsuccessfulRestore;
    hide Of;
    hide Relevant;
    hide Successes;
    var r1, r2 := Relevant(os1, req), Relevant(os2, req);
    StreamsKeepFailures(os1, os2, req);
    forall id: ObservationIdentity ensures Of(r1, id) == Of(r2, id) {
      OfRelevant(os1, req, id);
      OfRelevant(os2, req, id);
    }
    SubsetOfStarted(r1, r2);
    SubsetOfStarted(r2, r1);
    assert Identities(r1) == Identities(r2);
    forall id1: ObservationIdentity, id2: ObservationIdentity ensures DisjointPair(r2, id1, id2) {
      assert DisjointPair(r1, id1, id2);
    }
    forall id | id in Identities(r2) ensures CompleteEpisode(Of(r2, id)) {
      assert id in Identities(r1) && Of(r2, id) == Of(r1, id);
    }
  }

  lemma SameStarted(os1: seq<KVTransferObservation>, os2: seq<KVTransferObservation>, req: string)
    requires SameStreams(os1, os2, req)
    ensures StartedIn(Relevant(os1, req)) == StartedIn(Relevant(os2, req))
  {
    var r1, r2 := Relevant(os1, req), Relevant(os2, req);
    forall id: ObservationIdentity ensures Of(r1, id) == Of(r2, id) {
      OfRelevant(os1, req, id);
      OfRelevant(os2, req, id);
    }
    SubsetOfStarted(r1, r2);
    SubsetOfStarted(r2, r1);
  }

  /**
   * The verdict does not depend on how the episodes, and the records of other requests,
   * are interleaved: two lists that give every identity of the request the same stream
   * get the same verdict, as long as the request has at most 4096 restores.
   */
  lemma InterleavingIrrelevant(os1: seq<KVTransferObservation>, os2: seq<KVTransferObservation>, req: string)
    requires AllValid(os1) && AllValid(os2) && SameStreams(os1, os2, req)
    requires |StartedIn(Relevant(os1, req))| <= LIMIT
    ensures ChainVerdict(os1, req) == ChainVerdict(os2, req)
  {
    SameStarted(os1, os2, req);
    forall n: nat ensures ChainVerdict(os1, req) == Some(n) <==> ChainVerdict(os2, req) == Some(n) {
      VerdictOfBoundedChain(os1, req, n);
      VerdictOfBoundedChain(os2, req, n);
      if CompleteChain(os1, req, n) { StreamsKeepCompleteness(os1, os2, req, n); }
      if CompleteChain(os2, req, n) { StreamsKeepCompleteness(os2, os1, req, n); }
    }
    hide ChainVerdict;
    if ChainVerdict(os1, req).Some? { assert ChainVerdict(os2, req) == Some(ChainVerdict(os1, req).value); }
    if ChainVerdict(os2, req).Some? { assert ChainVerdict(os1, req) == Some(ChainVerdict(os2, req).value); }
  }
}
