/** The shape of an unfinished episode, and which record may follow it. */
module EpisodeShape {
  import opened Basics
  import opened Schema
  import opened NormalizerReplay
  import opened RestoreChain

  predicate AllSuccess(os: seq<KVTransferObservation>) {
    forall i :: 0 <= i < |os| ==> os[i].Valid() && IsSuccessEvent(os[i].event)
  }

  predicate IsAdmitted(os: seq<KVTransferObservation>) {
    exists i :: 0 <= i < |os| && os[i].event.RECOVERY_ADMITTED?
  }

  predicate IsComputed(os: seq<KVTransferObservation>) {
    exists i :: 0 <= i < |os| && os[i].event.FIRST_COMPUTE?
  }

  predicate RequeueFirst(os: seq<KVTransferObservation>) {
    forall i :: 0 <= i < |os| ==> (os[i].event.RECOVERY_REQUEUED? <==> i == 0)
  }

  /** An admission covers exactly what was started and completed, and only a first compute follows it. */
  predicate AdmissionsExact(os: seq<KVTransferObservation>) {
    forall i :: 0 <= i < |os| && os[i].event.RECOVERY_ADMITTED? ==>
      && ToSet(os[i].associatedTransfers) == StartedIn(os[..i]) == DoneIn(os[..i])
      && forall j :: i < j < |os| ==> os[j].event.FIRST_COMPUTE?
  }

  /** A first compute comes last, right after an admission of its roster. */
  predicate ComputesLast(os: seq<KVTransferObservation>) {
    forall i :: 0 <= i < |os| && os[i].event.FIRST_COMPUTE? ==>
      && i == |os| - 1 && i > 0
      && os[i - 1].event.RECOVERY_ADMITTED?
      && os[i].associatedTransfers == os[i - 1].associatedTransfers
  }

  /** The records of one identity, as far as they have come, can still be part of a complete episode. */
  predicate Shaped(os: seq<KVTransferObservation>) {
    RequeueFirst(os) && TimesNondecreasing(os) && NothingRepeats(os) && CompletionsMatch(os)
    && AdmissionsExact(os) && ComputesLast(os)
  }

  /** Record `o` may follow the shaped records `os`. */
  predicate CanFollow(os: seq<KVTransferObservation>, o: KVTransferObservation)
    requires o.Valid()
  {
    if os == [] then o.event.RECOVERY_REQUEUED?
    else
      var last := os[|os| - 1];
      && !o.event.RECOVERY_REQUEUED?
      && !IsComputed(os)
      && last.observedAtNs <= o.observedAtNs
      && (o.receipt.Some? ==> o.receipt.value !in ReceiptsIn(os))
      && (o.event.RESTORE_STARTED? ==> !IsAdmitted(os) && o.transfer.value !in StartedIn(os))
      && (o.event.RESTORE_COMPLETED? ==>
            !IsAdmitted(os) && o.transfer.value !in DoneIn(os) && exists j :: 0 <= j < |os| && Completes(o, os[j]))
      && (o.event.RECOVERY_ADMITTED? ==>
            !IsAdmitted(os) && ToSet(o.associatedTransfers) == StartedIn(os) == DoneIn(os))
      && (o.event.FIRST_COMPUTE? ==>
            last.event.RECOVERY_ADMITTED? && last.associatedTransfers == o.associatedTransfers)
  }

  // ----- how the sets grow -----

  lemma SetsAppend(os: seq<KVTransferObservation>, o: KVTransferObservation)
    ensures StartedIn(os + [o]) == if IsStarted(o) then StartedIn(os) + {o.transfer.value} else StartedIn(os)
    ensures DoneIn(os + [o]) == if IsDone(o) then DoneIn(os) + {o.transfer.value} else DoneIn(os)
    ensures ReceiptsIn(os + [o]) == if o.receipt.Some? then ReceiptsIn(os) + {o.receipt.value} else ReceiptsIn(os)
  {
    StartedAppend(os, o);
    DoneAppend(os, o);
    ReceiptsAppend(os, o);
  }

  lemma StartedAppend(os: seq<KVTransferObservation>, o: KVTransferObservation)
    ensures StartedIn(os + [o]) == if IsStarted(o) then StartedIn(os) + {o.transfer.value} else StartedIn(os)
  {
    var os' := os + [o];
    assert forall i :: 0 <= i < |os| ==> os'[i] == os[i];
    assert os'[|os|] == o;
    forall t | t in StartedIn(os) ensures t in StartedIn(os') {
      var i :| 0 <= i < |os| && IsStarted(os[i]) && os[i].transfer.value == t;
      assert IsStarted(os'[i]);
    }
  }

  lemma DoneAppend(os: seq<KVTransferObservation>, o: KVTransferObservation)
    ensures DoneIn(os + [o]) == if IsDone(o) then DoneIn(os) + {o.transfer.value} else DoneIn(os)
  {
    var os' := os + [o];
    assert forall i :: 0 <= i < |os| ==> os'[i] == os[i];
    assert os'[|os|] == o;
    forall t | t in DoneIn(os) ensures t in DoneIn(os') {
      var i :| 0 <= i < |os| && IsDone(os[i]) && os[i].transfer.value == t;
      assert IsDone(os'[i]);
    }
  }

  lemma ReceiptsAppend(os: seq<KVTransferObservation>, o: KVTransferObservation)
    ensures ReceiptsIn(os + [o]) == if o.receipt.Some? then ReceiptsIn(os) + {o.receipt.value} else ReceiptsIn(os)
  {
    var os' := os + [o];
    assert forall i :: 0 <= i < |os| ==> os'[i] == os[i];
    assert os'[|os|] == o;
    forall r | r in ReceiptsIn(os) ensures r in ReceiptsIn(os') {
      var i :| 0 <= i < |os| && os[i].receipt.Some? && os[i].receipt.value == r;
      assert os'[i].receipt.Some?;
    }
  }

  // ----- one more record keeps the shape exactly when it may follow -----

  lemma RepeatsAppend(os: seq<KVTransferObservation>, o: KVTransferObservation)
    ensures NothingRepeats(os + [o]) <==>
      && NothingRepeats(os)
      && (IsStarted(o) ==> o.transfer.value !in StartedIn(os))
      && (IsDone(o) ==> o.transfer.value !in DoneIn(os))
      && (o.receipt.Some? ==> o.receipt.value !in ReceiptsIn(os))
  {
    var os' := os + [o];
    assert os'[|os|] == o;
    assert forall i :: 0 <= i < |os| ==> os'[i] == os[i];
    if NothingRepeats(os') {
      forall i, j | 0 <= i < j < |os|
        ensures (IsStarted(os[i]) && IsStarted(os[j]) ==> os[i].transfer != os[j].transfer)
        ensures (IsDone(os[i]) && IsDone(os[j]) ==> os[i].transfer != os[j].transfer)
        ensures (os[i].receipt.Some? && os[j].receipt.Some? ==> os[i].receipt != os[j].receipt)
      {
        assert os'[i] == os[i] && os'[j] == os[j];
      }
    }
  }

  lemma TimesAppend(os: seq<KVTransferObservation>, o: KVTransferObservation)
    ensures TimesNondecreasing(os + [o]) <==>
      TimesNondecreasing(os) && (os != [] ==> os[|os| - 1].observedAtNs <= o.observedAtNs)
  {
    var os' := os + [o];
    assert os'[|os|] == o;
    assert forall i :: 0 <= i < |os| ==> os'[i] == os[i];
    if TimesNondecreasing(os') {
      forall i, j | 0 <= i < j < |os| ensures os[i].observedAtNs <= os[j].observedAtNs {
        assert os'[i].observedAtNs <= os'[j].observedAtNs;
      }
      if os != [] { assert os'[|os| - 1].observedAtNs <= os'[|os|].observedAtNs; }
    }
  }

  lemma CompletionsAppend(os: seq<KVTransferObservation>, o: KVTransferObservation)
    ensures CompletionsMatch(os + [o]) <==>
      CompletionsMatch(os) && (IsDone(o) ==> exists j :: 0 <= j < |os| && Completes(o, os[j]))
  {
    var os' := os + [o];
    assert os'[|os|] == o;
    assert forall i :: 0 <= i < |os| ==> os'[i] == os[i];
    if CompletionsMatch(os) && (IsDone(o) ==> exists j :: 0 <= j < |os| && Completes(o, os[j])) {
      forall i | 0 <= i < |os'| && IsDone(os'[i]) ensures exists j :: 0 <= j < i && Completes(os'[i], os'[j]) {
        if i < |os| {
          assert IsDone(os[i]);
          var j :| 0 <= j < i && Completes(os[i], os[j]);
          assert Completes(os'[i], os'[j]);
        } else {
          var j :| 0 <= j < |os| && Completes(o, os[j]);
          assert Completes(os'[i], os'[j]);
        }
      }
    }
    if CompletionsMatch(os') {
      forall i | 0 <= i < |os| && IsDone(os[i]) ensures exists j :: 0 <= j < i && Completes(os[i], os[j]) {
        assert IsDone(os'[i]);
        var j :| 0 <= j < i && Completes(os'[i], os'[j]);
        assert Completes(os[i], os[j]);
      }
      if IsDone(o) {
        assert IsDone(os'[|os|]);
        var j :| 0 <= j < |os| && Completes(os'[|os|], os'[j]);
        assert Completes(o, os[j]);
      }
    }
  }

  lemma AdmissionsAppend(os: seq<KVTransferObservation>, o: KVTransferObservation)
    ensures AdmissionsExact(os + [o]) <==>
      && AdmissionsExact(os)
      && (o.event.RECOVERY_ADMITTED? ==> ToSet(o.associatedTransfers) == StartedIn(os) == DoneIn(os))
      && (IsAdmitted(os) ==> o.event.FIRST_COMPUTE?)
  {
    var os' := os + [o];
    assert os'[|os|] == o && os'[..|os|] == os;
    assert forall i :: 0 <= i < |os| ==> os'[i] == os[i] && os'[..i] == os[..i];
    if AdmissionsExact(os') {
      forall i | 0 <= i < |os| && os[i].event.RECOVERY_ADMITTED?
        ensures ToSet(os[i].associatedTransfers) == StartedIn(os[..i]) == DoneIn(os[..i])
        ensures forall j :: i < j < |os| ==> os[j].event.FIRST_COMPUTE?
        ensures o.event.FIRST_COMPUTE?
      {
        assert os'[i].event.RECOVERY_ADMITTED?;
        assert forall j :: i < j < |os| ==> os[j] == os'[j];
      }
    }
  }

  lemma ComputesAppend(os: seq<KVTransferObservation>, o: KVTransferObservation)
    ensures ComputesLast(os + [o]) <==>
      && !IsComputed(os)
      && (o.event.FIRST_COMPUTE? ==>
            && os != [] && os[|os| - 1].event.RECOVERY_ADMITTED?
            && os[|os| - 1].associatedTransfers == o.associatedTransfers)
  {
    var os' := os + [o];
    assert os'[|os|] == o;
    assert forall i :: 0 <= i < |os| ==> os'[i] == os[i];
  }

  lemma RequeueAppend(os: seq<KVTransferObservation>, o: KVTransferObservation)
    ensures RequeueFirst(os + [o]) <==> RequeueFirst(os) && (o.event.RECOVERY_REQUEUED? <==> os == [])
  {
    var os' := os + [o];
    assert os'[|os|] == o;
    assert forall i :: 0 <= i < |os| ==> os'[i] == os[i];
    if RequeueFirst(os') {
      forall i | 0 <= i < |os| ensures os[i].event.RECOVERY_REQUEUED? <==> i == 0 {
        assert os'[i].event.RECOVERY_REQUEUED? <==> i == 0;
      }
    }
  }

  lemma ShapedAppend(os: seq<KVTransferObservation>, o: KVTransferObservation)
    requires o.Valid() && IsSuccessEvent(o.event)
    ensures Shaped(os + [o]) <==> Shaped(os) && CanFollow(os, o)
  {
    RequeueAppend(os, o);
    TimesAppend(os, o);
    RepeatsAppend(os, o);
    CompletionsAppend(os, o);
    AdmissionsAppend(os, o);
    ComputesAppend(os, o);
    UnfinishedHasNoCompute(os);
    EmptySets(os);
    hide RequeueFirst;
    hide TimesNondecreasing;
    hide NothingRepeats;
    hide CompletionsMatch;
    hide AdmissionsExact;
    hide ComputesLast;
    hide KVTransferObservation.FieldsInRange;
    hide StartedIn;
    hide DoneIn;
    hide ReceiptsIn;
  }

  lemma UnfinishedHasNoCompute(os: seq<KVTransferObservation>)
    ensures !IsComputed(os) ==> ComputesLast(os)
    ensures os != [] && os[|os| - 1].event.RECOVERY_ADMITTED? ==> IsAdmitted(os)
  {
  }

  lemma EmptySets(os: seq<KVTransferObservation>)
    ensures os == [] ==> StartedIn(os) == {} && DoneIn(os) == {} && ReceiptsIn(os) == {}
    ensures os == [] ==> !IsAdmitted(os) && !IsComputed(os)
  {
  }

  // ----- a complete episode is a shaped one that ends in a first compute -----

  lemma TailAddsNoTransfer(os: seq<KVTransferObservation>)
    requires |os| >= 2
    requires os[|os| - 2].event.RECOVERY_ADMITTED? && os[|os| - 1].event.FIRST_COMPUTE?
    ensures StartedIn(os) == StartedIn(os[..|os| - 2]) && DoneIn(os) == DoneIn(os[..|os| - 2])
  {
    var n := |os|;
    assert os[..n - 1] == os[..n - 2] + [os[n - 2]];
    assert os == os[..n - 1] + [os[n - 1]];
    SetsAppend(os[..n - 2], os[n - 2]);
    SetsAppend(os[..n - 1], os[n - 1]);
  }

  lemma CompleteAdmits(os: seq<KVTransferObservation>)
    requires CompleteEpisode(os)
    ensures AdmissionsExact(os)
  {
    hide StartedIn;
    hide DoneIn;
    hide CompletionsMatch;
    hide NothingRepeats;
    hide TimesNondecreasing;
    TailAddsNoTransfer(os);
    assert forall i :: 0 < i < |os| - 2 ==> os[i].event.RESTORE_STARTED? || os[i].event.RESTORE_COMPLETED?;
    assert forall i :: 0 <= i < |os| && os[i].event.RECOVERY_ADMITTED? ==> i == |os| - 2;
  }

  lemma CompleteIsShaped(os: seq<KVTransferObservation>)
    requires CompleteEpisode(os)
    ensures Shaped(os) && os[|os| - 1].event.FIRST_COMPUTE?
  {
    hide StartedIn;
    hide DoneIn;
    hide CompletionsMatch;
    hide NothingRepeats;
    hide TimesNondecreasing;
    hide AdmissionsExact;
    CompleteAdmits(os);
    assert forall i :: 0 < i < |os| - 2 ==> os[i].event.RESTORE_STARTED? || os[i].event.RESTORE_COMPLETED?;
  }

  lemma AdmissionPosition(os: seq<KVTransferObservation>, i: int)
    requires AdmissionsExact(os) && ComputesLast(os) && os != [] && os[|os| - 1].event.FIRST_COMPUTE?
    requires 0 <= i < |os| && os[i].event.RECOVERY_ADMITTED?
    ensures i == |os| - 2
  {
    assert os[i + 1].event.FIRST_COMPUTE?;
  }

  lemma MiddleIsTransfers(os: seq<KVTransferObservation>, i: int)
    requires AllSuccess(os) && os != [] && Shaped(os) && os[|os| - 1].event.FIRST_COMPUTE? && 0 < i < |os| - 2
    ensures IsStarted(os[i]) || IsDone(os[i])
  {
    hide KVTransferObservation.FieldsInRange;
    hide CompletionsMatch;
    hide NothingRepeats;
    hide TimesNondecreasing;
    if os[i].event.RECOVERY_ADMITTED? { AdmissionPosition(os, i); assert false; }
    assert os[i].Valid() && IsSuccessEvent(os[i].event);
  }

  lemma ShapedIsComplete(os: seq<KVTransferObservation>)
    requires AllSuccess(os) && os != [] && Shaped(os) && os[|os| - 1].event.FIRST_COMPUTE?
    ensures CompleteEpisode(os)
  {
    var n := |os|;
    assert os[n - 2].event.RECOVERY_ADMITTED? && n >= 3;
    TailAddsNoTransfer(os);
    forall i | 0 < i < n - 2 ensures IsStarted(os[i]) || IsDone(os[i]) { MiddleIsTransfers(os, i); }
    assert ToSet(os[n - 2].associatedTransfers) == StartedIn(os[..n - 2]) == DoneIn(os[..n - 2]);
    hide KVTransferObservation.Valid;
  }
}
