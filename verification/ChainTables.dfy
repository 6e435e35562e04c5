/** The tables of the validator's normalizer, as sets of the records accepted so far. */
module ChainTables {
  import opened Basics
  import opened Schema
  import opened Normalization
  import opened NormalizerAcceptance
  import opened NormalizerReplay
  import opened RestoreChain
  import opened EpisodeShape
  import opened ChainState

  ghost predicate PendingRel(r: seq<KVTransferObservation>, s: State) {
    && s.pending.Keys == StartedIn(r) - DoneIn(r)
    && forall i :: 0 <= i < |r| && IsStarted(r[i]) && r[i].transfer.value in s.pending && r[i].blockCount.Some? ==>
         s.pending[r[i].transfer.value] == PendingOf(r[i])
  }

  ghost predicate CompletedRel(r: seq<KVTransferObservation>, s: State) {
    && s.completed.Keys == Retained(r)
    && forall i :: 0 <= i < |r| && IsDone(r[i]) && r[i].transfer.value in s.completed ==>
         s.completed[r[i].transfer.value].identity == r[i].identity
         && s.completed[r[i].transfer.value].observedAtNs == r[i].observedAtNs
  }

  ghost predicate AdmissionsRel(r: seq<KVTransferObservation>, s: State) {
    && s.admissions.Keys == Held(r)
    && forall i :: 0 <= i < |r| && r[i].event.RECOVERY_ADMITTED? && r[i].identity in s.admissions ==>
         s.admissions[r[i].identity] == Admission(r[i].associatedTransfers, r[i].observedAtNs)
  }

  ghost predicate TablesRel(r: seq<KVTransferObservation>, s: State) {
    && Live(s) && s.config == DefaultConfig()
    && PendingRel(r, s) && CompletedRel(r, s) && AdmissionsRel(r, s)
  }

  /** Record `o` follows the partial chain `r`. */
  ghost predicate Follows(r: seq<KVTransferObservation>, o: KVTransferObservation)
    requires o.Valid()
  {
    CanFollow(Of(r, o.identity), o) && Fresh(r, o)
  }

  lemma DoneIsNew(r: seq<KVTransferObservation>, o: KVTransferObservation)
    requires Partial(r) && o.Valid() && o.event.RESTORE_COMPLETED? && Follows(r, o)
    ensures o.transfer.value in StartedIn(r) && o.transfer.value !in DoneIn(r)
  {
    var sub, t := Of(r, o.identity), o.transfer.value;
    var j :| 0 <= j < |sub| && Completes(o, sub[j]);
    assert IsStarted(sub[j]) && sub[j].transfer.value == t;
    assert t in StartedIn(sub);
    OfSets(r, o.identity);
    hide Partial;
    hide StartedIn;
    hide CanFollow;
    hide KVTransferObservation.FieldsInRange;
    forall i | 0 <= i < |r| && IsDone(r[i]) ensures r[i].transfer.value != t {
      RecordInOf(r, i);
      DoneElsewhere(r, r[i].transfer.value, r[i].identity, o.identity, t);
    }
  }

  lemma DoneElsewhere(r: seq<KVTransferObservation>, u: TransferIdentity, idU: ObservationIdentity,
                      id: ObservationIdentity, t: TransferIdentity)
    requires Partial(r) && u in DoneIn(Of(r, idU)) && t in StartedIn(Of(r, id)) && t !in DoneIn(Of(r, id))
    ensures u != t
  {
    assert Shaped(Of(r, idU));
    DoneWasStarted(Of(r, idU));
    assert DisjointPair(r, idU, id);
    hide Shaped;
    hide StartedIn;
    hide DoneIn;
  }

  // ----- what one more record does to the sets -----

  lemma ComputedAppend(r: seq<KVTransferObservation>, o: KVTransferObservation, id: ObservationIdentity)
    ensures IsComputed(Of(r + [o], id)) <==> IsComputed(Of(r, id)) || (id == o.identity && o.event.FIRST_COMPUTE?)
  {
    OfAppend(r, o, id);
    var sub := Of(r, id);
    var sub' := Of(r + [o], id);
    if IsComputed(sub) {
      var i :| 0 <= i < |sub| && sub[i].event.FIRST_COMPUTE?;
      assert sub'[i].event.FIRST_COMPUTE?;
    }
    if id == o.identity { assert sub'[|sub|] == o; }
  }

  lemma RetainedAppend(r: seq<KVTransferObservation>, o: KVTransferObservation)
    requires !IsComputed(Of(r, o.identity)) && !o.event.FIRST_COMPUTE?
    ensures Retained(r + [o]) == if IsDone(o) then Retained(r) + {o.transfer.value} else Retained(r)
  {
    var r' := r + [o];
    assert forall i :: 0 <= i < |r| ==> r'[i] == r[i];
    assert r'[|r|] == o;
    forall i | 0 <= i < |r'| ensures IsComputed(Of(r', r'[i].identity)) <==> IsComputed(Of(r, r'[i].identity)) {
      ComputedAppend(r, o, r'[i].identity);
    }
    hide Of;
    hide IsComputed;
    forall t | t in Retained(r) ensures t in Retained(r') {
      var i :| 0 <= i < |r| && IsDone(r[i]) && !IsComputed(Of(r, r[i].identity)) && r[i].transfer.value == t;
      assert IsDone(r'[i]) && !IsComputed(Of(r', r'[i].identity));
    }
  }

  /** A first compute releases exactly what its own identity completed. */
  lemma RetainedRelease(r: seq<KVTransferObservation>, o: KVTransferObservation)
    requires Partial(r) && o.event.FIRST_COMPUTE? && o.Valid()
    requires !IsComputed(Of(r, o.identity))
    ensures Retained(r + [o]) == Retained(r) - DoneIn(Of(r, o.identity))
  {
    var r', own := r + [o], DoneIn(Of(r, o.identity));
    assert forall i :: 0 <= i < |r| ==> r'[i] == r[i];
    assert r'[|r|] == o;
    forall i | 0 <= i < |r| && IsDone(r[i])
      ensures IsComputed(Of(r', r[i].identity)) <==> IsComputed(Of(r, r[i].identity)) || r[i].identity == o.identity
      ensures r[i].identity == o.identity ==> r[i].transfer.value in own
      ensures r[i].identity != o.identity ==> r[i].transfer.value !in own
    {
      ComputedAppend(r, o, r[i].identity);
      RecordInOf(r, i);
      DoneDisjoint(r, r[i].identity, o.identity);
    }
    hide Of;
    hide IsComputed;
    hide Partial;
    hide DoneIn;
    forall t | t in Retained(r) && t !in own ensures t in Retained(r') {
      var i :| 0 <= i < |r| && IsDone(r[i]) && !IsComputed(Of(r, r[i].identity)) && r[i].transfer.value == t;
      assert IsDone(r'[i]) && !IsComputed(Of(r', r'[i].identity));
    }
  }

  lemma DoneDisjoint(r: seq<KVTransferObservation>, id1: ObservationIdentity, id2: ObservationIdentity)
    requires Partial(r)
    ensures id1 != id2 ==> DoneIn(Of(r, id1)) !! DoneIn(Of(r, id2))
  {
    assert Shaped(Of(r, id1)) && Shaped(Of(r, id2));
    DoneWasStarted(Of(r, id1));
    DoneWasStarted(Of(r, id2));
    assert DisjointPair(r, id1, id2);
    hide Shaped;
    hide StartedIn;
    hide DoneIn;
  }

  lemma HeldAppend(r: seq<KVTransferObservation>, o: KVTransferObservation)
    requires !IsComputed(Of(r, o.identity))
    ensures Held(r + [o]) ==
      if o.event.RECOVERY_ADMITTED? then Held(r) + {o.identity}
      else if o.event.FIRST_COMPUTE? then Held(r) - {o.identity}
      else Held(r)
  {
    var r' := r + [o];
    assert forall i :: 0 <= i < |r| ==> r'[i] == r[i];
    assert r'[|r|] == o;
    forall i | 0 <= i < |r'|
      ensures IsComputed(Of(r', r'[i].identity)) <==>
        IsComputed(Of(r, r'[i].identity)) || (r'[i].identity == o.identity && o.event.FIRST_COMPUTE?)
    {
      ComputedAppend(r, o, r'[i].identity);
    }
    hide Of;
    hide IsComputed;
    forall id | id in Held(r) && (id == o.identity ==> !o.event.FIRST_COMPUTE?) ensures id in Held(r') {
      var i :| 0 <= i < |r| && r[i].event.RECOVERY_ADMITTED? && !IsComputed(Of(r, r[i].identity)) &&
        r[i].identity == id;
      assert r'[i].event.RECOVERY_ADMITTED? && !IsComputed(Of(r', r'[i].identity));
    }
  }

  /** The roster of a first compute is what its identity started and completed. */
  lemma ComputeRoster(sub: seq<KVTransferObservation>, o: KVTransferObservation)
    requires Shaped(sub) && o.Valid() && o.event.FIRST_COMPUTE? && CanFollow(sub, o)
    ensures ToSet(o.associatedTransfers) == StartedIn(sub) == DoneIn(sub) && IsAdmitted(sub)
  {
    hide KVTransferObservation.FieldsInRange;
    var n := |sub| - 1;
    assert sub == sub[..n] + [sub[n]];
    SetsAppend(sub[..n], sub[n]);
    hide StartedIn;
    hide DoneIn;
  }

  // ----- the relation follows the records -----

  lemma PendingFollowStart(r: seq<KVTransferObservation>, o: KVTransferObservation, s: State)
    requires PendingRel(r, s) && o.Valid() && o.event.RESTORE_STARTED?
    requires o.transfer.value !in StartedIn(r) && o.transfer.value !in DoneIn(r)
    ensures PendingRel(r + [o], After(s, o))
  {
    hide DoneIn;
    hide AfterCompleted;
    hide AfterAdmissions;
    hide KVTransferObservation.FieldsInRange;
    SetsAppend(r, o);
    var r' := r + [o];
    assert forall i :: 0 <= i < |r| ==> r'[i] == r[i];
    assert r'[|r|] == o;
    forall i | 0 <= i < |r| && IsStarted(r[i]) ensures r[i].transfer.value != o.transfer.value {
      assert r[i].transfer.value in StartedIn(r);
    }
  }

  lemma PendingFollowOther(r: seq<KVTransferObservation>, o: KVTransferObservation, s: State)
    requires PendingRel(r, s) && o.Valid() && IsSuccessEvent(o.event) && !o.event.RESTORE_STARTED?
    ensures PendingRel(r + [o], After(s, o))
  {
    hide DoneIn;
    hide StartedIn;
    hide AfterCompleted;
    hide AfterAdmissions;
    hide KVTransferObservation.FieldsInRange;
    SetsAppend(r, o);
    var r' := r + [o];
    assert forall i :: 0 <= i < |r| ==> r'[i] == r[i];
    assert r'[|r|] == o;
  }

  lemma PendingFollow(r: seq<KVTransferObservation>, o: KVTransferObservation, s: State)
    requires Partial(r) && PendingRel(r, s) && o.Valid() && IsSuccessEvent(o.event) && Follows(r, o)
    ensures PendingRel(r + [o], After(s, o))
  {
    hide PendingRel;
    hide KVTransferObservation.FieldsInRange;
    if o.event.RESTORE_STARTED? {
      AllDoneStarted(r);
      PendingFollowStart(r, o, s);
    } else {
      PendingFollowOther(r, o, s);
    }
  }

  lemma CompletedFollowDone(r: seq<KVTransferObservation>, o: KVTransferObservation, s: State)
    requires CompletedRel(r, s) && o.Valid() && o.event.RESTORE_COMPLETED?
    requires s.config.retain && o.transfer.value !in DoneIn(r)
    requires Retained(r + [o]) == Retained(r) + {o.transfer.value}
    ensures CompletedRel(r + [o], After(s, o))
  {
    hide Retained;
    hide AfterPending;
    hide AfterAdmissions;
    hide KVTransferObservation.FieldsInRange;
    var r' := r + [o];
    assert forall i :: 0 <= i < |r| ==> r'[i] == r[i];
    assert r'[|r|] == o;
    forall i | 0 <= i < |r| && IsDone(r[i]) ensures r[i].transfer.value != o.transfer.value {
      assert r[i].transfer.value in DoneIn(r);
    }
  }

  lemma CompletedFollowOther(r: seq<KVTransferObservation>, o: KVTransferObservation, s: State)
    requires CompletedRel(r, s) && o.Valid() && !IsDone(o)
    requires AfterCompleted(s, o).Keys == Retained(r + [o])
    requires forall t :: t in AfterCompleted(s, o) ==> t in s.completed && AfterCompleted(s, o)[t] == s.completed[t]
    ensures CompletedRel(r + [o], After(s, o))
  {
    hide Retained;
    hide AfterPending;
    hide AfterCompleted;
    hide AfterAdmissions;
    hide KVTransferObservation.Valid;
    var r' := r + [o];
    assert forall i :: 0 <= i < |r| ==> r'[i] == r[i];
    assert r'[|r|] == o;
  }

  lemma CompletedFollow(r: seq<KVTransferObservation>, o: KVTransferObservation, s: State)
    requires Partial(r) && CompletedRel(r, s) && o.Valid() && IsSuccessEvent(o.event) && Follows(r, o)
    requires s.config.retain && !IsComputed(Of(r, o.identity))
    ensures CompletedRel(r + [o], After(s, o))
  {
    if o.event.FIRST_COMPUTE? {
      RetainedRelease(r, o);
      assert Shaped(Of(r, o.identity));
      ComputeRoster(Of(r, o.identity), o);
      CompletedFollowOther(r, o, s) by { hide Partial; hide CanFollow; hide Retained; hide DoneIn; hide StartedIn; }
    } else {
      RetainedAppend(r, o);
      if o.event.RESTORE_COMPLETED? {
        DoneIsNew(r, o);
        CompletedFollowDone(r, o, s) by { hide Partial; hide CanFollow; hide Retained; hide DoneIn; hide StartedIn; }
      } else {
        CompletedFollowOther(r, o, s) by { hide Partial; hide CanFollow; hide Retained; hide DoneIn; hide StartedIn; }
      }
    }
    hide CompletedRel;
  }

  lemma AdmittedOnce(r: seq<KVTransferObservation>, o: KVTransferObservation)
    requires o.Valid() && o.event.RECOVERY_ADMITTED? && Follows(r, o)
    ensures forall i :: 0 <= i < |r| && r[i].event.RECOVERY_ADMITTED? ==> r[i].identity != o.identity
  {
    forall i | 0 <= i < |r| && r[i].event.RECOVERY_ADMITTED? ensures r[i].identity != o.identity {
      RecordInOf(r, i);
    }
  }

  lemma AdmissionsFollow(r: seq<KVTransferObservation>, o: KVTransferObservation, s: State)
    requires AdmissionsRel(r, s) && o.Valid() && IsSuccessEvent(o.event) && Follows(r, o)
    requires !IsComputed(Of(r, o.identity))
    ensures AdmissionsRel(r + [o], After(s, o))
  {
    hide Follows;
    hide Held;
    hide Of;
    hide IsComputed;
    hide AfterPending;
    hide AfterCompleted;
    hide KVTransferObservation.FieldsInRange;
    var r' := r + [o];
    assert forall i :: 0 <= i < |r| ==> r'[i] == r[i];
    assert r'[|r|] == o;
    HeldAppend(r, o);
    if o.event.RECOVERY_ADMITTED? { AdmittedOnce(r, o); }
  }
}
