/** How the state of the restore-chain check follows from the records accepted so far. */
module ChainState {
  import opened Schema
  import opened NormalizerReplay
  import opened RestoreChain
  import opened EpisodeShape

  const LIMIT := 4096

  /** Transfers whose receipt is retained: completed under an identity that has not computed. */
  function Retained(r: seq<KVTransferObservation>): (ts: set<TransferIdentity>) {
    set i | 0 <= i < |r| && IsDone(r[i]) && !IsComputed(Of(r, r[i].identity)) :: r[i].transfer.value
  }

  /** Identities admitted and not computed. */
  function Held(r: seq<KVTransferObservation>): (ids: set<ObservationIdentity>) {
    set i | 0 <= i < |r| && r[i].event.RECOVERY_ADMITTED? && !IsComputed(Of(r, r[i].identity)) :: r[i].identity
  }

  /** The validator's bounded normalizer still has room for record `o` after the records `r`. */
  predicate Room(r: seq<KVTransferObservation>, o: KVTransferObservation) {
    match o.event
    case RESTORE_STARTED => |StartedIn(r) - DoneIn(r)| < LIMIT
    case RESTORE_COMPLETED => |Retained(r)| < LIMIT
    case RECOVERY_ADMITTED => |Held(r)| < LIMIT
    case _ => true
  }

  /** In this interleaving no table of the validator's normalizer overflows. */
  predicate WithinCapacity(r: seq<KVTransferObservation>) {
    forall i :: 0 <= i < |r| ==> Room(r[..i], r[i])
  }

  /** The transfer and the receipt of `o` are new to the request. */
  predicate Fresh(r: seq<KVTransferObservation>, o: KVTransferObservation) {
    && (IsStarted(o) ==> o.transfer.value !in StartedIn(r))
    && (o.receipt.Some? ==> o.receipt.value !in ReceiptsIn(r))
  }

  /** The records so far can still become a complete chain. */
  ghost predicate Partial(r: seq<KVTransferObservation>) {
    (forall id: ObservationIdentity :: Shaped(Of(r, id))) && EpisodesDisjoint(r)
  }

  // ----- the records of one identity -----

  lemma OfAppend(os: seq<KVTransferObservation>, o: KVTransferObservation, id: ObservationIdentity)
    ensures Of(os + [o], id) == if o.identity == id then Of(os, id) + [o] else Of(os, id)
  {
    assert (os + [o])[..|os|] == os;
  }

  lemma {:induction false} InOf(os: seq<KVTransferObservation>, id: ObservationIdentity)
    ensures forall o :: o in Of(os, id) <==> o in os && o.identity == id
  {
    if os != [] {
      var n := |os| - 1;
      InOf(os[..n], id);
      assert os == os[..n] + [os[n]];
    }
  }

  lemma OfSets(os: seq<KVTransferObservation>, id: ObservationIdentity)
    ensures StartedIn(Of(os, id)) <= StartedIn(os)
    ensures DoneIn(Of(os, id)) <= DoneIn(os)
    ensures ReceiptsIn(Of(os, id)) <= ReceiptsIn(os)
    ensures Of(os, id) != [] <==> id in Identities(os)
  {
    InOf(os, id);
    var sub := Of(os, id);
    forall i | 0 <= i < |sub| ensures sub[i] in os { assert sub[i] in sub; }
    forall t | t in StartedIn(sub) ensures t in StartedIn(os) {
      var i :| 0 <= i < |sub| && IsStarted(sub[i]) && sub[i].transfer.value == t;
      var j :| 0 <= j < |os| && os[j] == sub[i];
    }
    forall t | t in DoneIn(sub) ensures t in DoneIn(os) {
      var i :| 0 <= i < |sub| && IsDone(sub[i]) && sub[i].transfer.value == t;
      var j :| 0 <= j < |os| && os[j] == sub[i];
    }
    forall x | x in ReceiptsIn(sub) ensures x in ReceiptsIn(os) {
      var i :| 0 <= i < |sub| && sub[i].receipt.Some? && sub[i].receipt.value == x;
      var j :| 0 <= j < |os| && os[j] == sub[i];
    }
    if sub != [] {
      assert sub[0] in sub;
      var j :| 0 <= j < |os| && os[j] == sub[0];
      assert os[j].identity == id;
    }
    if id in Identities(os) {
      var j :| 0 <= j < |os| && os[j].identity == id;
      assert os[j] in sub;
    }
  }

  /** A record of the request belongs to the records of its identity, and so do its transfer and receipt. */
  lemma RecordInOf(os: seq<KVTransferObservation>, i: int)
    requires 0 <= i < |os|
    ensures var sub := Of(os, os[i].identity);
      && os[i] in sub
      && (IsStarted(os[i]) ==> os[i].transfer.value in StartedIn(sub))
      && (IsDone(os[i]) ==> os[i].transfer.value in DoneIn(sub))
      && (os[i].receipt.Some? ==> os[i].receipt.value in ReceiptsIn(sub))
      && (os[i].event.RECOVERY_ADMITTED? ==> IsAdmitted(sub))
      && (os[i].event.FIRST_COMPUTE? ==> IsComputed(sub))
  {
    InOf(os, os[i].identity);
    assert os[i] in os;
    var sub := Of(os, os[i].identity);
    var j :| 0 <= j < |sub| && sub[j] == os[i];
  }

  lemma DoneWasStarted(os: seq<KVTransferObservation>)
    requires CompletionsMatch(os)
    ensures DoneIn(os) <= StartedIn(os)
  {
    forall t | t in DoneIn(os) ensures t in StartedIn(os) {
      var i :| 0 <= i < |os| && IsDone(os[i]) && os[i].transfer.value == t;
      var j :| 0 <= j < i && Completes(os[i], os[j]);
      assert IsStarted(os[j]);
    }
  }

  lemma AllDoneStarted(r: seq<KVTransferObservation>)
    requires Partial(r)
    ensures DoneIn(r) <= StartedIn(r)
  {
    forall t | t in DoneIn(r) ensures t in StartedIn(r) {
      var i :| 0 <= i < |r| && IsDone(r[i]) && r[i].transfer.value == t;
      RecordInOf(r, i);
      var id := r[i].identity;
      assert Shaped(Of(r, id));
      DoneWasStarted(Of(r, id));
      OfSets(r, id);
    }
  }

  // ----- one more record keeps the records partial exactly when it follows and is fresh -----

  lemma PartialAppend(r: seq<KVTransferObservation>, o: KVTransferObservation)
    requires o.Valid() && IsSuccessEvent(o.event)
    ensures Partial(r + [o]) <==> Partial(r) && CanFollow(Of(r, o.identity), o) && Fresh(r, o)
  {
    hide Shaped;
    hide CanFollow;
    hide KVTransferObservation.Valid;
    var r', own := r + [o], o.identity;
    forall id: ObservationIdentity ensures Of(r', id) == if id == own then Of(r, own) + [o] else Of(r, id) {
      OfAppend(r, o, id);
    }
    ShapedAppend(Of(r, own), o);
    if Partial(r') {
      forall id: ObservationIdentity ensures Shaped(Of(r, id)) { assert Shaped(Of(r', id)); }
      DisjointBefore(r, o);
      FreshBefore(r, o);
    }
    if Partial(r) && CanFollow(Of(r, own), o) && Fresh(r, o) {
      forall id: ObservationIdentity ensures Shaped(Of(r', id)) { assert Shaped(Of(r, id)); }
      DisjointAfter(r, o);
    }
  }

  lemma DisjointAfter(r: seq<KVTransferObservation>, o: KVTransferObservation)
    requires EpisodesDisjoint(r) && Fresh(r, o)
    ensures EpisodesDisjoint(r + [o])
  {
    var r', own := r + [o], o.identity;
    forall id1: ObservationIdentity, id2: ObservationIdentity ensures DisjointPair(r', id1, id2)
    {
      OfAppend(r, o, id1);
      OfAppend(r, o, id2);
      SetsAppend(Of(r, own), o);
      OfSets(r, id1);
      OfSets(r, id2);
      assert DisjointPair(r, id1, id2);
      hide StartedIn;
      hide ReceiptsIn;
      hide Of;
    }
  }

  lemma DisjointBefore(r: seq<KVTransferObservation>, o: KVTransferObservation)
    requires EpisodesDisjoint(r + [o])
    ensures EpisodesDisjoint(r)
  {
    hide StartedIn;
    hide ReceiptsIn;
    var r' := r + [o];
    forall id1: ObservationIdentity, id2: ObservationIdentity ensures DisjointPair(r, id1, id2)
    {
      OfAppend(r, o, id1);
      OfAppend(r, o, id2);
      SetsAppend(Of(r, o.identity), o);
      assert DisjointPair(r', id1, id2);
    }
  }

  lemma FreshBefore(r: seq<KVTransferObservation>, o: KVTransferObservation)
    requires Partial(r + [o])
    ensures Fresh(r, o)
  {
    var r', own := r + [o], o.identity;
    OfAppend(r, o, own);
    assert Shaped(Of(r', own));
    RepeatsAppend(Of(r, own), o);
    SetsAppend(Of(r, own), o);
    forall i | 0 <= i < |r| && IsStarted(r[i]) && IsStarted(o) ensures r[i].transfer.value != o.transfer.value {
      RecordInOf(r, i);
      OfAppend(r, o, r[i].identity);
      assert DisjointPair(r', r[i].identity, own);
    }
    forall i | 0 <= i < |r| && r[i].receipt.Some? && o.receipt.Some? ensures r[i].receipt.value != o.receipt.value {
      RecordInOf(r, i);
      OfAppend(r, o, r[i].identity);
      assert DisjointPair(r', r[i].identity, own);
    }
  }
}
