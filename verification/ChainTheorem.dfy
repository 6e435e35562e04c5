/** The restore-chain check accepts exactly the complete chains. */
module ChainTheorem {
  import opened Basics
  import opened Schema
  import opened Normalization
  import opened NormalizerAcceptance
  import opened NormalizerReplay
  import opened RestoreChain
  import opened EpisodeShape
  import opened ChainState
  import opened ChainTables

  // ----- when the normalizer agrees with the record -----

  lemma FindInRecords(r: seq<KVTransferObservation>, id: ObservationIdentity, j: int) returns (i: int)
    requires 0 <= j < |Of(r, id)|
    ensures 0 <= i < |r| && r[i] == Of(r, id)[j] && r[i].identity == id
  {
    InOf(r, id);
    assert Of(r, id)[j] in Of(r, id);
    i :| 0 <= i < |r| && r[i] == Of(r, id)[j];
  }

  lemma FindInEpisode(r: seq<KVTransferObservation>, i: int) returns (j: int)
    requires 0 <= i < |r|
    ensures 0 <= j < |Of(r, r[i].identity)| && Of(r, r[i].identity)[j] == r[i]
  {
    RecordInOf(r, i);
    j :| 0 <= j < |Of(r, r[i].identity)| && Of(r, r[i].identity)[j] == r[i];
  }

  lemma StartAgrees(r: seq<KVTransferObservation>, o: KVTransferObservation, s: State)
    requires Partial(r) && TablesRel(r, s) && o.Valid() && o.event.RESTORE_STARTED?
    requires o.transfer.value !in StartedIn(r)
    ensures Enabled(s, o) <==> Room(r, o)
  {
    AllDoneStarted(r);
    forall t | t in s.completed ensures t in DoneIn(r) { }
    assert |s.pending| == |s.pending.Keys|;
    hide Partial;
    hide StartedIn;
    hide DoneIn;
    hide Retained;
    hide KVTransferObservation.FieldsInRange;
  }

  /** A pending transfer stands for the start that is in the records. */
  lemma PendingHasStart(r: seq<KVTransferObservation>, s: State, t: TransferIdentity) returns (i: int)
    requires AllSuccess(r) && PendingRel(r, s) && t in s.pending
    ensures 0 <= i < |r| && IsStarted(r[i]) && r[i].transfer.value == t && r[i].Valid() &&
        s.pending[t] == PendingOf(r[i])
    ensures t !in DoneIn(r)
  {
    hide DoneIn;
    hide KVTransferObservation.FieldsInRange;
    i :| 0 <= i < |r| && IsStarted(r[i]) && r[i].transfer.value == t;
    assert r[i].Valid();
  }

  lemma DoneAgrees(r: seq<KVTransferObservation>, o: KVTransferObservation, s: State)
    requires AllSuccess(r) && Partial(r) && TablesRel(r, s) && o.Valid() && o.event.RESTORE_COMPLETED?
    ensures var sub := Of(r, o.identity);
      Enabled(s, o) ==>
        o.transfer.value !in DoneIn(sub) && (exists j :: 0 <= j < |sub| && Completes(o, sub[j])) && Room(r, o)
  {
    hide AllSuccess;
    hide Partial;
    hide PendingRel;
    hide AdmissionsRel;
    hide Retained;
    hide StartedIn;
    hide DoneIn;
    hide ReceiptsIn;
    hide Of;
    hide KVTransferObservation.FieldsInRange;
    var sub, t := Of(r, o.identity), o.transfer.value;
    if Enabled(s, o) {
      OfSets(r, o.identity);
      var i := PendingHasStart(r, s, t);
      var j := FindInEpisode(r, i);
      assert Completes(o, sub[j]);
      assert |s.completed| == |s.completed.Keys|;
    }
  }

  /** The start that a completion follows. */
  lemma FindStart(r: seq<KVTransferObservation>, o: KVTransferObservation) returns (i: int)
    requires o.Valid() && o.event.RESTORE_COMPLETED? && Follows(r, o)
    ensures 0 <= i < |r| && Completes(o, r[i]) && r[i].identity == o.identity
  {
    var sub := Of(r, o.identity);
    var j :| 0 <= j < |sub| && Completes(o, sub[j]);
    i := FindInRecords(r, o.identity, j);
  }

  lemma DoneEnabled(r: seq<KVTransferObservation>, o: KVTransferObservation, s: State)
    requires AllSuccess(r) && Partial(r) && TablesRel(r, s) && o.Valid() && o.event.RESTORE_COMPLETED?
    requires Follows(r, o) && Room(r, o)
    ensures Enabled(s, o)
  {
    hide KVTransferObservation.FieldsInRange;
    hide Partial;
    hide Follows;
    hide DoneIn;
    hide StartedIn;
    hide Retained;
    hide AdmissionsRel;
    DoneIsNew(r, o);
    var i := FindStart(r, o);
    assert r[i].Valid();
    assert |s.completed| == |s.completed.Keys|;
    assert s.pending[o.transfer.value] == PendingOf(r[i]);
  }

  /** A transfer completed in an episode was completed no later than the episode's last record. */
  lemma FindCompletion(r: seq<KVTransferObservation>, id: ObservationIdentity, t: TransferIdentity) returns (i: int)
    requires TimesNondecreasing(Of(r, id)) && t in DoneIn(Of(r, id))
    ensures 0 <= i < |r| && IsDone(r[i]) && r[i].transfer.value == t && r[i].identity == id
    ensures Of(r, id) != [] && r[i].observedAtNs <= Of(r, id)[|Of(r, id)| - 1].observedAtNs
  {
    var sub := Of(r, id);
    var j :| 0 <= j < |sub| && IsDone(sub[j]) && sub[j].transfer.value == t;
    i := FindInRecords(r, id, j);
    assert j < |sub| - 1 ==> sub[j].observedAtNs <= sub[|sub| - 1].observedAtNs;
  }

  lemma RosterRestored(r: seq<KVTransferObservation>, o: KVTransferObservation, s: State)
    requires TimesNondecreasing(Of(r, o.identity)) && CompletedRel(r, s)
    requires Of(r, o.identity) != [] ==> Of(r, o.identity)[|Of(r, o.identity)| - 1].observedAtNs <= o.observedAtNs
    requires !IsComputed(Of(r, o.identity)) && ToSet(o.associatedTransfers) == DoneIn(Of(r, o.identity))
    ensures forall t :: t in o.associatedTransfers ==> Restored(s.completed, t, o.identity, o.observedAtNs)
  {
    hide TimesNondecreasing;
    hide DoneIn;
    forall t | t in o.associatedTransfers ensures Restored(s.completed, t, o.identity, o.observedAtNs) {
      assert t in ToSet(o.associatedTransfers);
      var i := FindCompletion(r, o.identity, t);
      assert t in Retained(r);
    }
  }

  lemma AdmissionAgrees(r: seq<KVTransferObservation>, o: KVTransferObservation, s: State)
    requires Partial(r) && TablesRel(r, s) && o.Valid() && o.event.RECOVERY_ADMITTED?
    requires CanFollow(Of(r, o.identity), o)
    ensures Enabled(s, o) <==> Room(r, o)
  {
    hide RequeueFirst;
    hide TimesNondecreasing;
    hide NothingRepeats;
    hide CompletionsMatch;
    hide AdmissionsExact;
    hide ComputesLast;
    hide DoneIn;
    hide StartedIn;
    hide Retained;
    hide KVTransferObservation.FieldsInRange;
    var sub, id := Of(r, o.identity), o.identity;
    assert Shaped(sub);
    RosterRestored(r, o, s);
    forall i | 0 <= i < |r| && r[i].event.RECOVERY_ADMITTED? ensures r[i].identity != id { RecordInOf(r, i); }
    assert id !in Held(r);
    assert |s.admissions| == |s.admissions.Keys|;
    hide CanFollow;
    hide Held;
  }

  /** What follows an admission is a first compute. */
  lemma AdmissionIsLast(sub: seq<KVTransferObservation>, j: int)
    requires AdmissionsExact(sub) && 0 <= j < |sub| && sub[j].event.RECOVERY_ADMITTED?
    ensures j == |sub| - 1 || IsComputed(sub)
  {
    if j < |sub| - 1 { assert sub[j + 1].event.FIRST_COMPUTE?; }
  }

  lemma ComputeNeedsAdmission(r: seq<KVTransferObservation>, o: KVTransferObservation, s: State)
    requires AdmissionsRel(r, s) && AdmissionsExact(Of(r, o.identity)) && !IsComputed(Of(r, o.identity))
    requires o.Valid() && o.event.FIRST_COMPUTE? && Enabled(s, o)
    ensures var sub := Of(r, o.identity);
      && sub != [] && sub[|sub| - 1].event.RECOVERY_ADMITTED?
      && sub[|sub| - 1].associatedTransfers == o.associatedTransfers
  {
    hide KVTransferObservation.FieldsInRange;
    hide AdmissionsExact;
    assert o.identity in Held(r);
    var i :| 0 <= i < |r| && r[i].event.RECOVERY_ADMITTED? && r[i].identity == o.identity;
    var j := FindInEpisode(r, i);
    AdmissionIsLast(Of(r, o.identity), j);
  }

  lemma AdmissionEnablesCompute(r: seq<KVTransferObservation>, o: KVTransferObservation, s: State)
    requires AdmissionsRel(r, s) && !IsComputed(Of(r, o.identity)) && o.Valid() && o.event.FIRST_COMPUTE?
    requires var sub := Of(r, o.identity);
      && sub != [] && sub[|sub| - 1].event.RECOVERY_ADMITTED?
      && sub[|sub| - 1].associatedTransfers == o.associatedTransfers
      && sub[|sub| - 1].observedAtNs <= o.observedAtNs
    ensures Enabled(s, o)
  {
    hide KVTransferObservation.FieldsInRange;
    var i := FindInRecords(r, o.identity, |Of(r, o.identity)| - 1);
    assert o.identity in Held(r);
  }

  // ----- one record -----

  function EpisodeOf(sub: seq<KVTransferObservation>): Episode
    requires sub != []
  {
    Episode(StartedIn(sub), DoneIn(sub), IsAdmitted(sub), IsComputed(sub), sub[|sub| - 1].observedAtNs)
  }

  ghost predicate EpisodesRel(r: seq<KVTransferObservation>, c: Chain) {
    && c.episodes.Keys == Identities(r)
    && forall id :: id in c.episodes ==> Of(r, id) != [] && c.episodes[id] == EpisodeOf(Of(r, id))
  }

  /** The state `c` is what the accepted relevant records `r` lead to. */
  ghost predicate Rel(r: seq<KVTransferObservation>, c: Chain) {
    && AllSuccess(r) && Partial(r)
    && EpisodesRel(r, c)
    && c.seenTransfers == StartedIn(r) && c.seenReceipts == ReceiptsIn(r)
    && TablesRel(r, c.normalizer)
  }

  /** The episode the record falls into is open and not later than the record. */
  predicate Opens(sub: seq<KVTransferObservation>, o: KVTransferObservation) {
    if sub == [] then o.event.RECOVERY_REQUEUED?
    else !o.event.RECOVERY_REQUEUED? && !IsComputed(sub) && sub[|sub| - 1].observedAtNs <= o.observedAtNs
  }

  function OpenedEpisode(sub: seq<KVTransferObservation>, o: KVTransferObservation): Episode {
    if sub == [] then Episode({}, {}, false, false, o.observedAtNs) else EpisodeOf(sub)
  }

  lemma OpensIff(r: seq<KVTransferObservation>, c: Chain, o: KVTransferObservation)
    requires EpisodesRel(r, c) && o.Valid()
    ensures var sub, open := Of(r, o.identity), OpenEpisode(c, o);
      && (open.Some? && open.value.lastNs <= o.observedAtNs <==> Opens(sub, o))
      && (Opens(sub, o) ==> open.value == OpenedEpisode(sub, o))
  {
    hide KVTransferObservation.Valid;
    OfSets(r, o.identity);
    hide Identities;
    hide StartedIn;
    hide DoneIn;
    hide ReceiptsIn;
    hide Of;
  }

  /** The bookkeeping of the check accepts the record. */
  predicate Books(r: seq<KVTransferObservation>, o: KVTransferObservation)
    requires o.Valid()
  {
    var sub := Of(r, o.identity);
    && Opens(sub, o)
    && (o.receipt.Some? ==> o.receipt.value !in ReceiptsIn(r))
    && EpisodeStep(OpenedEpisode(sub, o).(lastNs := o.observedAtNs), StartedIn(r), o).Some?
  }

  function Booked(c: Chain, o: KVTransferObservation, e: Episode): Chain
    requires o.Valid()
  {
    Chain(c.episodes[o.identity := e],
          if o.event.RESTORE_STARTED? then c.seenTransfers + {o.transfer.value} else c.seenTransfers,
          if o.receipt.Some? then c.seenReceipts + {o.receipt.value} else c.seenReceipts,
          After(c.normalizer, o))
  }

  lemma StepIsBooking(r: seq<KVTransferObservation>, c: Chain, o: KVTransferObservation)
    requires Rel(r, c) && o.Valid()
    ensures RelevantStep(c, o).Some? <==> Books(r, o) && Enabled(c.normalizer, o)
    ensures RelevantStep(c, o).Some? ==> var sub := Of(r, o.identity);
      RelevantStep(c, o).value
        == Booked(c, o, EpisodeStep(OpenedEpisode(sub, o).(lastNs := o.observedAtNs), StartedIn(r), o).value)
  {
    hide Step;
    hide Enabled;
    hide After;
    hide SourceOf;
    hide KVTransferObservation.Valid;
    hide OpenEpisode;
    hide EpisodeStep;
    hide Opens;
    hide OpenedEpisode;
    hide EpisodesRel;
    hide Partial;
    hide PendingRel;
    hide CompletedRel;
    hide AdmissionsRel;
    hide Of;
    hide StartedIn;
    hide DoneIn;
    hide ReceiptsIn;
    OpensIff(r, c, o);
    ReplayAccepts(c.normalizer, o);
  }

  ghost predicate Agrees(r: seq<KVTransferObservation>, o: KVTransferObservation, s: State)
    requires o.Valid()
  {
    Books(r, o) && Enabled(s, o) <==> Follows(r, o) && Room(r, o)
  }

  lemma StartStep(r: seq<KVTransferObservation>, o: KVTransferObservation, s: State)
    requires Partial(r) && TablesRel(r, s) && o.Valid() && o.event.RESTORE_STARTED?
    ensures Agrees(r, o, s)
  {
    hide Partial;
    hide TablesRel;
    hide Enabled;
    hide Room;
    hide StartedIn;
    hide DoneIn;
    hide ReceiptsIn;
    hide Of;
    hide KVTransferObservation.FieldsInRange;
    OfSets(r, o.identity);
    if o.transfer.value !in StartedIn(r) { StartAgrees(r, o, s); }
  }

  lemma DoneStep(r: seq<KVTransferObservation>, o: KVTransferObservation, s: State)
    requires AllSuccess(r) && Partial(r) && TablesRel(r, s) && o.Valid() && o.event.RESTORE_COMPLETED?
    ensures Agrees(r, o, s)
  {
    hide Partial;
    hide TablesRel;
    hide Enabled;
    hide Room;
    hide StartedIn;
    hide DoneIn;
    hide ReceiptsIn;
    hide Of;
    hide KVTransferObservation.FieldsInRange;
    OfSets(r, o.identity);
    DoneAgrees(r, o, s);
    if Follows(r, o) && Room(r, o) { DoneEnabled(r, o, s); }
  }

  lemma AdmitStep(r: seq<KVTransferObservation>, o: KVTransferObservation, s: State)
    requires Partial(r) && TablesRel(r, s) && o.Valid() && o.event.RECOVERY_ADMITTED?
    ensures Agrees(r, o, s)
  {
    hide Partial;
    hide TablesRel;
    hide Enabled;
    hide Room;
    hide StartedIn;
    hide DoneIn;
    hide ReceiptsIn;
    hide Of;
    hide KVTransferObservation.FieldsInRange;
    assert o.associatedTransfers[0] in ToSet(o.associatedTransfers);
    if CanFollow(Of(r, o.identity), o) { AdmissionAgrees(r, o, s); }
  }

  lemma ComputeStep(r: seq<KVTransferObservation>, o: KVTransferObservation, s: State)
    requires Partial(r) && TablesRel(r, s) && o.Valid() && o.event.FIRST_COMPUTE?
    ensures Agrees(r, o, s)
  {
    hide Enabled;
    hide RequeueFirst;
    hide TimesNondecreasing;
    hide NothingRepeats;
    hide CompletionsMatch;
    hide AdmissionsExact;
    hide ComputesLast;
    hide PendingRel;
    hide CompletedRel;
    hide AdmissionsRel;
    hide EpisodesDisjoint;
    OfSets(r, o.identity);
    assert Shaped(Of(r, o.identity));
    hide Partial;
    hide StartedIn;
    hide DoneIn;
    hide ReceiptsIn;
    hide Of;
    hide KVTransferObservation.FieldsInRange;
    if Books(r, o) && Enabled(s, o) { ComputeNeedsAdmission(r, o, s); }
    if Follows(r, o) { AdmissionEnablesCompute(r, o, s); }
  }

  lemma RequeueStep(r: seq<KVTransferObservation>, o: KVTransferObservation, s: State)
    requires o.Valid() && o.event.RECOVERY_REQUEUED?
    ensures Agrees(r, o, s)
  {
    hide StartedIn;
    hide DoneIn;
    hide ReceiptsIn;
    hide Of;
    hide KVTransferObservation.FieldsInRange;
  }

  lemma AnyStep(r: seq<KVTransferObservation>, o: KVTransferObservation, s: State)
    requires AllSuccess(r) && Partial(r) && TablesRel(r, s) && o.Valid() && IsSuccessEvent(o.event)
    ensures Agrees(r, o, s)
  {
    hide Agrees;
    hide Partial;
    hide TablesRel;
    hide KVTransferObservation.Valid;
    match o.event
    case RECOVERY_REQUEUED => RequeueStep(r, o, s);
    case RESTORE_STARTED => StartStep(r, o, s);
    case RESTORE_COMPLETED => DoneStep(r, o, s);
    case RECOVERY_ADMITTED => AdmitStep(r, o, s);
    case FIRST_COMPUTE => ComputeStep(r, o, s);
  }

  // ----- the episode table follows the records -----

  lemma FlagsAppend(sub: seq<KVTransferObservation>, o: KVTransferObservation)
    ensures IsAdmitted(sub + [o]) <==> IsAdmitted(sub) || o.event.RECOVERY_ADMITTED?
    ensures IsComputed(sub + [o]) <==> IsComputed(sub) || o.event.FIRST_COMPUTE?
  {
    var sub' := sub + [o];
    assert forall i :: 0 <= i < |sub| ==> sub'[i] == sub[i];
    assert sub'[|sub|] == o;
  }

  lemma EpisodeFollows(r: seq<KVTransferObservation>, o: KVTransferObservation)
    requires o.Valid() && IsSuccessEvent(o.event) && Books(r, o)
    ensures var sub := Of(r, o.identity);
      EpisodeStep(OpenedEpisode(sub, o).(lastNs := o.observedAtNs), StartedIn(r), o).value == EpisodeOf(sub + [o])
  {
    var sub := Of(r, o.identity);
    SetsAppend(sub, o);
    FlagsAppend(sub, o);
    EmptySets(sub);
    hide StartedIn;
    hide DoneIn;
    hide ReceiptsIn;
    hide IsAdmitted;
    hide IsComputed;
    hide Of;
    hide KVTransferObservation.FieldsInRange;
  }

  lemma IdentitiesAppend(r: seq<KVTransferObservation>, o: KVTransferObservation)
    ensures Identities(r + [o]) == Identities(r) + {o.identity}
  {
    var r' := r + [o];
    assert forall i :: 0 <= i < |r| ==> r'[i] == r[i];
    assert r'[|r|] == o;
  }

  lemma EpisodesFollow(r: seq<KVTransferObservation>, c: Chain, o: KVTransferObservation, e: Episode)
    requires EpisodesRel(r, c) && o.Valid() && e == EpisodeOf(Of(r, o.identity) + [o])
    ensures EpisodesRel(r + [o], Booked(c, o, e))
  {
    hide KVTransferObservation.Valid;
    hide After;
    hide EpisodeOf;
    IdentitiesAppend(r, o);
    forall id: ObservationIdentity
      ensures Of(r + [o], id) == if o.identity == id then Of(r, id) + [o] else Of(r, id)
    {
      OfAppend(r, o, id);
    }
    hide Of;
    hide Identities;
  }

  /** One relevant record: accepted exactly when it follows, is fresh and finds room, and the relation goes on. */
  lemma RelevantStepIff(r: seq<KVTransferObservation>, c: Chain, o: KVTransferObservation)
    requires Rel(r, c) && o.Valid() && IsSuccessEvent(o.event)
    ensures RelevantStep(c, o).Some? <==> Follows(r, o) && Room(r, o)
    ensures RelevantStep(c, o).Some? ==> Rel(r + [o], RelevantStep(c, o).value)
  {
    StepIsBooking(r, c, o);
    AnyStep(r, o, c.normalizer);
    if RelevantStep(c, o).Some? { RelFollows(r, c, o); }
    hide Rel;
    hide RelevantStep;
    hide Follows;
    hide Room;
    hide Books;
    hide Enabled;
  }

  lemma RelFollows(r: seq<KVTransferObservation>, c: Chain, o: KVTransferObservation)
    requires Rel(r, c) && o.Valid() && IsSuccessEvent(o.event) && Books(r, o) && Follows(r, o)
    ensures var sub := Of(r, o.identity);
      Rel(r + [o], Booked(c, o, EpisodeStep(OpenedEpisode(sub, o).(lastNs := o.observedAtNs), StartedIn(r), o).value))
  {
    hide EpisodeStep;
    hide OpenedEpisode;
    hide EpisodesRel;
    hide Partial;
    hide PendingRel;
    hide CompletedRel;
    hide AdmissionsRel;
    hide Books;
    hide AfterPending;
    hide AfterCompleted;
    hide AfterAdmissions;
    hide StartedIn;
    hide DoneIn;
    hide ReceiptsIn;
    hide KVTransferObservation.FieldsInRange;
    PartialAppend(r, o);
    EpisodeFollows(r, o);
    EpisodesFollow(r, c, o, EpisodeOf(Of(r, o.identity) + [o]));
    SetsAppend(r, o);
    FollowsNotComputed(r, o);
    PendingFollow(r, o, c.normalizer);
    CompletedFollow(r, o, c.normalizer);
    ChainTables.AdmissionsFollow(r, o, c.normalizer);
    hide CanFollow;
    hide Of;
  }

  lemma FollowsNotComputed(r: seq<KVTransferObservation>, o: KVTransferObservation)
    requires o.Valid() && Follows(r, o)
    ensures !IsComputed(Of(r, o.identity))
  {
    hide KVTransferObservation.FieldsInRange;
  }

  // ----- the whole list of records -----

  lemma WithinAppend(r: seq<KVTransferObservation>, o: KVTransferObservation)
    ensures WithinCapacity(r + [o]) <==> WithinCapacity(r) && Room(r, o)
  {
    hide Room;
    var r' := r + [o];
    assert r'[..|r|] == r && r'[|r|] == o;
    assert forall i :: 0 <= i < |r| ==> r'[..i] == r[..i] && r'[i] == r[i];
    if WithinCapacity(r') {
      assert Room(r'[..|r|], r'[|r|]);
      forall i | 0 <= i < |r| ensures Room(r[..i], r[i]) { assert Room(r'[..i], r'[i]); }
    }
  }

  lemma UnsuccessfulAppend(os: seq<KVTransferObservation>, o: KVTransferObservation, req: string)
    ensures NoUnsuccessfulRestore(os + [o], req) <==>
      && NoUnsuccessfulRestore(os, req)
      && (o.identity.requestId == req && !IsSuccessEvent(o.event) ==> o.direction != Some(H2D))
  {
    var os' := os + [o];
    assert forall i :: 0 <= i < |os| ==> os'[i] == os[i];
    assert os'[|os|] == o;
    if NoUnsuccessfulRestore(os', req) {
      forall i | 0 <= i < |os| && os[i].identity.requestId == req && !IsSuccessEvent(os[i].event)
        ensures os[i].direction != Some(H2D)
      {
        assert os'[i] == os[i];
      }
    }
  }

  /** The check gets through the records exactly when they are partial, within capacity and without failures. */
  lemma {:induction false} RunIff(os: seq<KVTransferObservation>, req: string)
    requires AllValid(os)
    ensures var r := Relevant(os, req);
      && (ChainRun(os, req).Some? <==> NoUnsuccessfulRestore(os, req) && Partial(r) && WithinCapacity(r))
      && (ChainRun(os, req).Some? ==> Rel(r, ChainRun(os, req).value))
  {
    hide RelevantStep;
    hide Partial;
    hide Rel;
    hide WithinCapacity;
    hide NoUnsuccessfulRestore;
    hide KVTransferObservation.Valid;
    if os == [] {
      EmptyRun(req);
    } else {
      var n := |os| - 1;
      var o, before, r := os[n], os[..n], Relevant(os[..n], req);
      assert os == before + [o];
      RunIff(before, req);
      UnsuccessfulAppend(before, o, req);
      if IsRelevant(o, req) {
        WithinAppend(r, o);
        PartialAppend(r, o);
        if ChainRun(before, req).Some? { RelevantStepIff(r, ChainRun(before, req).value, o); }
      }
    }
  }

  lemma EmptyRun(req: string)
    ensures NoUnsuccessfulRestore([], req) && Partial([]) && WithinCapacity([]) && Rel([], EmptyChain())
  {
    assert forall id: ObservationIdentity :: Of([], id) == [];
    assert StartedIn([]) == {} && DoneIn([]) == {} && ReceiptsIn([]) == {} && Retained([]) == {} && Held([]) == {};
    assert Identities([]) == {};
  }
}
