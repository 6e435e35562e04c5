/** Feeding a run's own canonical records back to a fresh normalizer. */
module NormalizerReplay {
  import opened Basics
  import opened Schema
  import opened Normalization
  import opened NormalizerAcceptance
  import opened NormalizerInvariant
  import opened NormalizerRuns

  /** The record belongs to the request and is not a D2H transfer. */
  predicate OnRestorePath(o: KVTransferObservation, req: string) {
    o.identity.requestId == req && o.direction != Some(D2H)
  }

  predicate IsSuccessEvent(e: ObservationEvent) {
    e.RECOVERY_REQUEUED? || e.RESTORE_STARTED? || e.RESTORE_COMPLETED? || e.RECOVERY_ADMITTED? || e.FIRST_COMPUTE?
  }

  predicate AllValid(os: seq<KVTransferObservation>) {
    forall i :: 0 <= i < |os| ==> os[i].Valid()
  }

  predicate Keeps(x: Output, req: string, successOnly: bool) {
    x.Some? && x.value.Valid() && OnRestorePath(x.value, req) && (successOnly ==> IsSuccessEvent(x.value.event))
  }

  /** The restore-path records of one request, optionally the successful ones only. */
  function Project(outs: seq<Output>, req: string, successOnly: bool): (os: seq<KVTransferObservation>)
    ensures AllValid(os)
  {
    if outs == [] then []
    else
      var last := outs[|outs| - 1];
      var rest := Project(outs[..|outs| - 1], req, successOnly);
      if Keeps(last, req, successOnly) then rest + [last.value] else rest
  }

  /** The calls that replay a list of records. */
  function ReplayCalls(os: seq<KVTransferObservation>): (calls: seq<Call>)
    requires AllValid(os)
    ensures |calls| == |os|
  {
    seq(|os|, i requires 0 <= i < |os| => Normalize(SourceOf(os[i])))
  }

  function Wrapped(os: seq<KVTransferObservation>): (outs: seq<Output>) {
    seq(|os|, i requires 0 <= i < |os| => Some(os[i]))
  }

  /** A fresh normalizer returns exactly the records it was fed. */
  predicate Reproduces(config: Config, os: seq<KVTransferObservation>)
    requires AllValid(os)
  {
    Outputs(Initial(config), ReplayCalls(os)) == Wrapped(os)
  }

  lemma ReplayCallsAppend(os: seq<KVTransferObservation>, o: KVTransferObservation)
    requires AllValid(os) && o.Valid()
    ensures AllValid(os + [o])
    ensures ReplayCalls(os + [o]) == ReplayCalls(os) + [Normalize(SourceOf(o))]
    ensures Wrapped(os + [o]) == Wrapped(os) + [Some(o)]
  {
  }

  /** One more record is reproduced exactly when the replaying state enables it. */
  lemma ReproducesAppend(config: Config, os: seq<KVTransferObservation>, o: KVTransferObservation)
    requires AllValid(os) && o.Valid()
    ensures AllValid(os + [o])
    ensures var r := Run(Initial(config), ReplayCalls(os));
      && (Reproduces(config, os + [o]) <==> Reproduces(config, os) && Live(r) && Enabled(r, o))
      && (Reproduces(config, os + [o]) ==> Run(Initial(config), ReplayCalls(os + [o])) == After(r, o))
  {
    hide Step;
    hide Enabled;
    hide After;
    hide SourceOf;
    hide KVTransferObservation.Valid;
    ReplayCallsAppend(os, o);
    var calls := ReplayCalls(os);
    var r := Run(Initial(config), calls);
    var calls' := calls + [Normalize(SourceOf(o))];
    assert calls'[..|calls|] == calls;
    assert Run(Initial(config), calls') == Step(r, SourceOf(o)).0;
    assert Outputs(Initial(config), calls') == Outputs(Initial(config), calls) + [Step(r, SourceOf(o)).1];
    ReplayAccepts(r, o);
    var outs, w := Outputs(Initial(config), calls), Wrapped(os);
    if Reproduces(config, os + [o]) {
      assert outs == Outputs(Initial(config), calls')[..|calls|] == Wrapped(os + [o])[..|calls|] == w;
      assert Step(r, SourceOf(o)).1 == Outputs(Initial(config), calls')[|calls|] == Wrapped(os + [o])[|calls|];
    }
  }

  // ----- the simulation -----

  /** The H2D part of the pending table that belongs to the request. */
  function PendingOfRequest(pending: map<TransferIdentity, Pending>, req: string): map<TransferIdentity, Pending> {
    map t | t in pending && pending[t].identity.requestId == req && pending[t].operation.H2D_RESTORE? :: pending[t]
  }

  function CompletedOfRequest(completed: map<TransferIdentity, CompletedRestore>, req: string)
    : map<TransferIdentity, CompletedRestore>
  {
    map t | t in completed && completed[t].identity.requestId == req :: completed[t]
  }

  function AdmissionsOfRequest(s: State, req: string): map<ObservationIdentity, Admission> {
    map id | id in s.admissions && id.requestId == req :: s.admissions[id]
  }

  /** The receipts and admissions of `r` are the request's part of those of `s`. */
  predicate MirrorsReceipts(s: State, r: State, req: string) {
    r.completed == CompletedOfRequest(s.completed, req) && r.admissions == AdmissionsOfRequest(s, req)
  }

  predicate Mirrors(s: State, r: State, req: string) {
    && Live(r) && r.config == s.config
    && (Live(s) ==> r.pending == PendingOfRequest(s.pending, req) && MirrorsReceipts(s, r, req))
  }

  lemma MirrorSizes(s: State, r: State, req: string)
    requires MirrorsReceipts(s, r, req)
    ensures |r.completed| <= |s.completed| && |r.admissions| <= |s.admissions|
  {
    SubmapCardinality(r.completed, s.completed);
    SubmapCardinality(r.admissions, s.admissions);
  }

  /** What `s` enables on the request's path, a mirror enables too; only a start can fail for want of room. */
  lemma MirrorEnables(s: State, r: State, req: string, o: KVTransferObservation)
    requires Live(s) && Live(r) && r.config == s.config && MirrorsReceipts(s, r, req)
    requires forall t :: t in PendingOfRequest(s.pending, req) ==> t in r.pending && r.pending[t] == s.pending[t]
    requires o.Valid() && OnRestorePath(o, req) && Enabled(s, o)
    ensures if o.event.RESTORE_STARTED? then
        Enabled(r, o) <==> o.transfer.value !in r.pending && |r.pending| < r.config.maxTransfers
      else Enabled(r, o)
  {
    hide KVTransferObservation.FieldsInRange;
    MirrorSizes(s, r, req);
    match o.event
    case RECOVERY_ADMITTED =>
      forall t | t in o.associatedTransfers ensures Restored(r.completed, t, o.identity, o.observedAtNs) {
        assert Restored(s.completed, t, o.identity, o.observedAtNs);
      }
    case RESTORE_COMPLETED => assert o.transfer.value in PendingOfRequest(s.pending, req);
    case TRANSFER_FAILED => assert o.transfer.value in PendingOfRequest(s.pending, req);
    case TRANSFER_CANCELLED => assert o.transfer.value in PendingOfRequest(s.pending, req);
    case _ =>
  }

  lemma RosterBelongs(s: State, id: ObservationIdentity)
    requires Inv(s) && id in s.admissions
    ensures forall t :: t in s.admissions[id].transfers ==> t in s.completed && s.completed[t].identity == id
  {
    forall t | t in s.admissions[id].transfers ensures t in s.completed && s.completed[t].identity == id {
      assert Restored(s.completed, t, id, s.admissions[id].observedAtNs);
    }
  }

  lemma RequestPartRemove(completed: map<TransferIdentity, CompletedRestore>, req: string,
                          ts: seq<TransferIdentity>, id: ObservationIdentity)
    requires forall t :: t in ts ==> t in completed && completed[t].identity == id
    ensures CompletedOfRequest(completed - ToSet(ts), req)
      == if id.requestId == req then CompletedOfRequest(completed, req) - ToSet(ts)
        else CompletedOfRequest(completed, req)
  {
  }

  lemma RequestPartAdd(completed: map<TransferIdentity, CompletedRestore>, req: string,
                       t: TransferIdentity, c: CompletedRestore)
    requires t !in completed
    ensures CompletedOfRequest(completed[t := c], req)
      == if c.identity.requestId == req then CompletedOfRequest(completed, req)[t := c]
        else CompletedOfRequest(completed, req)
  {
  }

  lemma CompletedFollows(s: State, r: State, req: string, o: KVTransferObservation)
    requires Inv(s) && r.config == s.config && r.completed == CompletedOfRequest(s.completed, req)
    requires o.Valid() && Enabled(s, o)
    ensures (if OnRestorePath(o, req) then AfterCompleted(r, o) else r.completed)
        == CompletedOfRequest(AfterCompleted(s, o), req)
  {
    hide CompletedOfRequest;
    hide KVTransferObservation.FieldsInRange;
    hide EnabledStart;
    hide EnabledPreserved;
    hide EnabledTerminal;
    hide EnabledAdmitted;
    hide PendingWellFormed;
    hide AfterPending;
    hide AfterAdmissions;
    hide AdmissionsBacked;
    if o.event.FIRST_COMPUTE? {
      RosterBelongs(s, o.identity);
      RequestPartRemove(s.completed, req, o.associatedTransfers, o.identity);
    } else if o.event.RESTORE_COMPLETED? && s.config.retain {
      RequestPartAdd(s.completed, req, o.transfer.value, CompletedRestore(o.identity, o.receipt.value, o.observedAtNs));
    }
  }

  lemma AdmissionsFollow(s: State, r: State, req: string, o: KVTransferObservation)
    requires r.admissions == AdmissionsOfRequest(s, req) && o.Valid()
    ensures (if OnRestorePath(o, req) then AfterAdmissions(r, o) else r.admissions)
        == AdmissionsOfRequest(After(s, o), req)
  {
    hide KVTransferObservation.FieldsInRange;
    hide AfterPending;
    hide AfterCompleted;
    if o.event.RECOVERY_ADMITTED? {
      assert OnRestorePath(o, req) <==> o.identity.requestId == req;
    } else if o.event.FIRST_COMPUTE? {
      assert OnRestorePath(o, req) <==> o.identity.requestId == req;
    }
  }

  lemma PendingFollows(s: State, r: State, req: string, o: KVTransferObservation)
    requires r.pending == PendingOfRequest(s.pending, req)
    requires o.Valid() && Enabled(s, o)
    ensures (if OnRestorePath(o, req) then AfterPending(r, o) else r.pending)
        == PendingOfRequest(AfterPending(s, o), req)
  {
    hide PendingOfRequest;
    hide KVTransferObservation.FieldsInRange;
    hide EnabledAdmitted;
    hide EnabledCompute;
    if o.event.PRESERVE_STARTED? || o.event.RESTORE_STARTED? {
      RequestPendingAdd(s.pending, req, o.transfer.value, PendingOf(o));
    } else if o.transfer.Some? {
      RequestPendingRemove(s.pending, req, o.transfer.value);
    }
  }

  lemma RequestPendingAdd(pending: map<TransferIdentity, Pending>, req: string, t: TransferIdentity, p: Pending)
    requires t !in pending
    ensures PendingOfRequest(pending[t := p], req)
      == if p.identity.requestId == req && p.operation.H2D_RESTORE? then PendingOfRequest(pending, req)[t := p]
         else PendingOfRequest(pending, req)
  {
  }

  lemma RequestPendingRemove(pending: map<TransferIdentity, Pending>, req: string, t: TransferIdentity)
    requires t in pending
    ensures PendingOfRequest(pending - {t}, req)
      == if pending[t].identity.requestId == req && pending[t].operation.H2D_RESTORE? then
        PendingOfRequest(pending, req) - {t}
         else PendingOfRequest(pending, req)
  {
  }

  // ----- every restore-path record of a request can be replayed -----

  /** One call of the original run, and the replay of what it added to the projection. */
  lemma MirrorStep(s: State, r: State, req: string, x: Output, s': State, loses: bool)
    requires Inv(s) && Mirrors(s, r, req) && Moves(s, x, s', loses)
    ensures if Keeps(x, req, false) then Enabled(r, x.value) && Mirrors(s', After(r, x.value), req)
      else Mirrors(s', r, req)
  {
    hide Inv;
    hide Enabled;
    hide AfterPending;
    hide AfterCompleted;
    hide AfterAdmissions;
    hide KVTransferObservation.Valid;
    if x.Some? {
      var o := x.value;
      PendingFollows(s, r, req, o);
      CompletedFollows(s, r, req, o);
      AdmissionsFollow(s, r, req, o);
      if OnRestorePath(o, req) {
        MirrorEnables(s, r, req, o);
        if o.event.RESTORE_STARTED? { StartHasRoom(s, r, req, o); }
      }
    }
  }

  lemma StartHasRoom(s: State, r: State, req: string, o: KVTransferObservation)
    requires r.pending == PendingOfRequest(s.pending, req) && r.config == s.config
    requires o.Valid() && o.event.RESTORE_STARTED? && Enabled(s, o)
    ensures o.transfer.value !in r.pending && |r.pending| < r.config.maxTransfers
  {
    SubmapCardinality(r.pending, s.pending);
    hide KVTransferObservation.FieldsInRange;
  }

  lemma {:induction false} ReplayMirrors(config: Config, calls: seq<Call>, req: string)
    requires config.Valid() && ValidCalls(calls)
    ensures var os := Project(Outputs(Initial(config), calls), req, false);
      Reproduces(config, os) && Mirrors(Run(Initial(config), calls), Run(Initial(config), ReplayCalls(os)), req)
  {
    hide Next;
    hide Out;
    hide Mirrors;
    hide Moves;
    hide Enabled;
    hide After;
    hide LosesPending;
    hide Reproduces;
    hide KVTransferObservation.Valid;
    var init := Initial(config);
    if calls == [] {
      EmptyReplay(config, req);
    } else {
      var n := |calls| - 1;
      ReplayMirrors(config, calls[..n], req);
      RunKeepsInv(init, calls[..n]);
      var s, x, outs := Run(init, calls[..n]), Out(Run(init, calls[..n]), calls[n]), Outputs(init, calls[..n]);
      var os := Project(outs, req, false);
      var r := Run(init, ReplayCalls(os));
      CallMoves(s, calls[n]);
      MirrorStep(s, r, req, x, Next(s, calls[n]), LosesPending(s, calls[n]));
      assert (outs + [x])[..n] == outs;
      if Keeps(x, req, false) {
        ReproducesAppend(config, os, x.value);
        assert Live(r) by { MirrorsLive(s, r, req); }
      }
    }
  }

  lemma MirrorsLive(s: State, r: State, req: string)
    requires Mirrors(s, r, req)
    ensures Live(r)
  {
  }

  lemma EmptyReplay(config: Config, req: string)
    ensures Reproduces(config, []) && Mirrors(Initial(config), Initial(config), req)
  {
  }

  /**
   * Replay idempotence. Take any run, with any refused sources, D2H transfers and
   * other requests in it; project its records to the non-D2H records of one request,
   * and feed the sources they stand for to a fresh normalizer of the same capacity and
   * retention: it returns exactly those records.
   */
  lemma ReplayIdempotent(config: Config, calls: seq<Call>, req: string)
    requires config.Valid() && ValidCalls(calls)
    ensures Reproduces(config, Project(Outputs(Initial(config), calls), req, false))
  {
    ReplayMirrors(config, calls, req);
  }

  // ----- the successful restore path alone -----

  /** The transfers that a list of records starts and does not complete. */
  function OpenTransfers(os: seq<KVTransferObservation>): (open: set<TransferIdentity>) {
    if os == [] then {}
    else
      var o, before := os[|os| - 1], OpenTransfers(os[..|os| - 1]);
      if o.transfer.None? then before
      else if o.event.RESTORE_STARTED? then before + {o.transfer.value}
      else if o.event.RESTORE_COMPLETED? then before - {o.transfer.value}
      else before
  }

  /** A start finds its transfer closed and, counting every transfer left open so far, room for one more. */
  predicate StartFits(config: Config, os: seq<KVTransferObservation>, o: KVTransferObservation) {
    o.event.RESTORE_STARTED? && o.transfer.Some? ==>
      o.transfer.value !in OpenTransfers(os) && |OpenTransfers(os)| < config.maxTransfers
  }

  predicate StartsFit(config: Config, os: seq<KVTransferObservation>) {
    forall i :: 0 <= i < |os| ==> StartFits(config, os[..i], os[i])
  }

  lemma StartsFitAppend(config: Config, os: seq<KVTransferObservation>, o: KVTransferObservation)
    ensures StartsFit(config, os + [o]) <==> StartsFit(config, os) && StartFits(config, os, o)
  {
    hide StartFits;
    var os' := os + [o];
    assert os'[..|os|] == os;
    assert forall i :: 0 <= i < |os| ==> os'[..i] == os[..i] && os'[i] == os[i];
    if StartsFit(config, os') {
      assert StartFits(config, os'[..|os|], os'[|os|]);
      forall i | 0 <= i < |os| ensures StartFits(config, os[..i], os[i]) {
        assert StartFits(config, os'[..i], os'[i]);
      }
    }
  }

  /** `r` has the request's receipts and admissions, and at least its pending restores. */
  predicate Shadows(s: State, r: State, req: string) {
    && Live(r) && r.config == s.config
    && (Live(s) ==>
          && MirrorsReceipts(s, r, req)
          && forall t :: t in PendingOfRequest(s.pending, req) ==> t in r.pending && r.pending[t] == s.pending[t])
  }

  lemma ShadowPending(s: State, r: State, req: string, o: KVTransferObservation, t: TransferIdentity)
    requires forall u :: u in PendingOfRequest(s.pending, req) ==> u in r.pending && r.pending[u] == s.pending[u]
    requires o.Valid() && Enabled(s, o) && t in PendingOfRequest(AfterPending(s, o), req)
    ensures var pending := if Keeps(Some(o), req, true) then AfterPending(r, o) else r.pending;
      t in pending && pending[t] == AfterPending(s, o)[t]
  {
    hide KVTransferObservation.FieldsInRange;
    hide EnabledAdmitted;
    hide EnabledCompute;
    if t in s.pending && AfterPending(s, o)[t] == s.pending[t] {
      assert t in PendingOfRequest(s.pending, req);
    }
  }

  lemma ShadowFollows(s: State, r: State, req: string, o: KVTransferObservation)
    requires Inv(s) && Live(s) && Shadows(s, r, req) && o.Valid() && Enabled(s, o)
    ensures if Keeps(Some(o), req, true) then Shadows(After(s, o), After(r, o), req) else Shadows(After(s, o), r, req)
  {
    hide AfterPending;
    hide Enabled;
    hide KVTransferObservation.FieldsInRange;
    CompletedFollows(s, r, req, o);
    AdmissionsFollow(s, r, req, o);
    var r' := if Keeps(Some(o), req, true) then After(r, o) else r;
    forall t | t in PendingOfRequest(AfterPending(s, o), req)
      ensures t in r'.pending && r'.pending[t] == AfterPending(s, o)[t] {
      ShadowPending(s, r, req, o, t);
    }
    if OnRestorePath(o, req) && !IsSuccessEvent(o.event) {
      assert AfterCompleted(r, o) == r.completed && AfterAdmissions(r, o) == r.admissions;
    }
  }

  lemma ShadowStep(s: State, r: State, req: string, x: Output, s': State, loses: bool)
    requires Inv(s) && Shadows(s, r, req) && Moves(s, x, s', loses)
    ensures Keeps(x, req, true) ==>
      && (Enabled(r, x.value) <==> (x.value.event.RESTORE_STARTED? ==>
            x.value.transfer.value !in r.pending && |r.pending| < r.config.maxTransfers))
      && Shadows(s', After(r, x.value), req)
    ensures !Keeps(x, req, true) ==> Shadows(s', r, req)
  {
    hide Inv;
    hide Enabled;
    hide AfterPending;
    hide AfterCompleted;
    hide AfterAdmissions;
    hide KVTransferObservation.FieldsInRange;
    if x.Some? {
      ShadowFollows(s, r, req, x.value);
      if OnRestorePath(x.value, req) { MirrorEnables(s, r, req, x.value); }
    }
  }

  lemma OpenFollows(r: State, os: seq<KVTransferObservation>, o: KVTransferObservation)
    requires o.Valid() && IsSuccessEvent(o.event) && r.pending.Keys == OpenTransfers(os)
    ensures After(r, o).pending.Keys == OpenTransfers(os + [o])
  {
    hide KVTransferObservation.FieldsInRange;
    assert (os + [o])[..|os|] == os;
  }

  lemma FitIsRoom(config: Config, r: State, os: seq<KVTransferObservation>, o: KVTransferObservation)
    requires o.Valid() && r.config == config && r.pending.Keys == OpenTransfers(os)
    ensures StartFits(config, os, o) <==> (o.event.RESTORE_STARTED? ==>
      o.transfer.value !in r.pending && |r.pending| < r.config.maxTransfers)
  {
    assert |r.pending| == |r.pending.Keys|;
  }

  lemma {:induction false} SuccessPathShadows(config: Config, calls: seq<Call>, req: string)
    requires config.Valid() && ValidCalls(calls)
    ensures var os := Project(Outputs(Initial(config), calls), req, true);
      && (Reproduces(config, os) <==> StartsFit(config, os))
      && (Reproduces(config, os) ==>
            var r := Run(Initial(config), ReplayCalls(os));
            Shadows(Run(Initial(config), calls), r, req) && r.pending.Keys == OpenTransfers(os) && r.config == config)
  {
    hide Next;
    hide Out;
    hide Shadows;
    hide Moves;
    hide Enabled;
    hide After;
    hide LosesPending;
    hide Reproduces;
    hide StartFits;
    hide StartsFit;
    hide OpenTransfers;
    hide KVTransferObservation.Valid;
    var init := Initial(config);
    if calls == [] {
      EmptyShadow(config, req);
    } else {
      var n := |calls| - 1;
      SuccessPathShadows(config, calls[..n], req);
      RunKeepsInv(init, calls[..n]);
      var s, x, outs := Run(init, calls[..n]), Out(Run(init, calls[..n]), calls[n]), Outputs(init, calls[..n]);
      var os := Project(outs, req, true);
      CallMoves(s, calls[n]);
      assert (outs + [x])[..n] == outs;
      if Keeps(x, req, true) {
        ReproducesAppend(config, os, x.value);
        StartsFitAppend(config, os, x.value);
      }
      if Reproduces(config, os) {
        var r := Run(init, ReplayCalls(os));
        ShadowStep(s, r, req, x, Next(s, calls[n]), LosesPending(s, calls[n]));
        if Keeps(x, req, true) {
          OpenFollows(r, os, x.value);
          FitIsRoom(config, r, os, x.value);
          assert Live(r) && After(r, x.value).config == config by { ShadowsLive(s, r, req, x.value); }
        }
      }
    }
  }

  lemma ShadowsLive(s: State, r: State, req: string, o: KVTransferObservation)
    requires Shadows(s, r, req) && o.Valid()
    ensures Live(r) && After(r, o).config == r.config
  {
  }

  lemma EmptyShadow(config: Config, req: string)
    ensures Reproduces(config, []) && StartsFit(config, [])
    ensures Shadows(Initial(config), Initial(config), req) && Initial(config).pending.Keys == OpenTransfers([])
  {
  }

  /**
   * The successful records alone are reproduced exactly when every start among them
   * still finds its transfer closed and room for one more: the failures and
   * cancellations that closed transfers in the original run are not in the projection.
   */
  lemma SuccessPathReplay(config: Config, calls: seq<Call>, req: string)
    requires config.Valid() && ValidCalls(calls)
    ensures var os := Project(Outputs(Initial(config), calls), req, true);
      Reproduces(config, os) <==> StartsFit(config, os)
  {
    SuccessPathShadows(config, calls, req);
  }

  /** Every restore-path record of the request is a successful one. */
  predicate NoFailures(outs: seq<Output>, req: string) {
    forall i :: 0 <= i < |outs| && Keeps(outs[i], req, false) ==> IsSuccessEvent(outs[i].value.event)
  }

  /** Without a failed or cancelled restore of the request the two projections agree. */
  lemma {:induction false} NoFailureSameProjection(outs: seq<Output>, req: string)
    requires NoFailures(outs, req)
    ensures Project(outs, req, true) == Project(outs, req, false)
  {
    if outs != [] {
      var n := |outs| - 1;
      NoFailureSameProjection(outs[..n], req);
    }
  }

  /** A run without a failed or cancelled restore of the request replays from its successful records alone. */
  lemma NoFailureReplays(config: Config, calls: seq<Call>, req: string)
    requires config.Valid() && ValidCalls(calls)
    requires NoFailures(Outputs(Initial(config), calls), req)
    ensures Reproduces(config, Project(Outputs(Initial(config), calls), req, true))
  {
    hide Reproduces;
    hide NoFailures;
    hide Outputs;
    hide Project;
    hide ValidCalls;
    hide AllValid;
    ReplayIdempotent(config, calls, req);
    NoFailureSameProjection(Outputs(Initial(config), calls), req);
  }

  /**
   * The failing family is not empty: a transfer restarted after its cancellation is not reproduced
   * from its two starts.
   */
  lemma RestartAfterCancelNotReproduced(config: Config, id: ObservationIdentity, t: TransferIdentity)
    requires config.Valid()
    ensures var start := CoreTransferSubmitted(id, t, H2D_RESTORE, 1, 0);
      var calls := [Normalize(start), Normalize(CoreTransferCancelled(t, 0, HOST_SHUTDOWN)), Normalize(start)];
      var os := Project(Outputs(Initial(config), calls), id.requestId, true);
      |os| == 2 && !Reproduces(config, os)
  {
    var start := CoreTransferSubmitted(id, t, H2D_RESTORE, 1, 0);
    var cancel := CoreTransferCancelled(t, 0, HOST_SHUTDOWN);
    var p := Pending(id, H2D_RESTORE, 1, 0);
    var o1, o2 := StartedRecord(t, p), CancelledRecord(t, p, 0, HOST_SHUTDOWN);
    var init := Initial(config);
    hide Step;
    StartsAndCancels(init, id, t);
    StartsAndCancels(Step(Step(init, start).0, cancel).0, id, t);
    var c1, c2 := Normalize(start), Normalize(cancel);
    ThreeCalls(init, c1, c2, c1);
    hide StartedRecord;
    hide CancelledRecord;
    hide KVTransferObservation.Valid;
    ProjectThree(o1, o2, o1, id.requestId);
    SuccessPathReplay(config, [c1, c2, c1], id.requestId);
    var os := [o1, o1];
    assert os[..1] == [o1] && [o1][..0] == [];
    assert !StartFits(config, os[..1], os[1]);
  }

  /** A start and its cancellation are both accepted, and leave no trace in the tables. */
  lemma StartsAndCancels(s: State, id: ObservationIdentity, t: TransferIdentity)
    requires Live(s) && s.pending == map[] && s.completed == map[] && s.config.Valid()
    ensures
      var start := CoreTransferSubmitted(id, t, H2D_RESTORE, 1, 0);
      var cancel := CoreTransferCancelled(t, 0, HOST_SHUTDOWN);
      var p := Pending(id, H2D_RESTORE, 1, 0);
      var s1 := Step(s, start).0;
      var s2 := Step(s1, cancel).0;
      && StartedRecord(t, p).Valid() && CancelledRecord(t, p, 0, HOST_SHUTDOWN).Valid()
      && Step(s, start).1 == Some(StartedRecord(t, p))
      && Step(s1, cancel).1 == Some(CancelledRecord(t, p, 0, HOST_SHUTDOWN))
      && Live(s2) && s2.pending == map[] && s2.completed == map[] && s2.config == s.config
  {
    StartedRecordValid(t, Pending(id, H2D_RESTORE, 1, 0));
    CancelledRecordValid(t, Pending(id, H2D_RESTORE, 1, 0), 0, HOST_SHUTDOWN);
    hide KVTransferObservation.Valid;
  }

  lemma ThreeCalls(s: State, a: Call, b: Call, c: Call)
    ensures Outputs(s, [a, b, c]) == [Out(s, a), Out(Next(s, a), b), Out(Next(Next(s, a), b), c)]
  {
    hide Out;
    hide Next;
    assert [a, b, c][..2] == [a, b] && [a, b][..1] == [a] && [a][..0] == [];
    assert Run(s, []) == s && Run(s, [a]) == Next(s, a) && Run(s, [a, b]) == Next(Next(s, a), b);
    assert Outputs(s, []) == [] && Outputs(s, [a]) == [Out(s, a)];
  }

  lemma ProjectThree(a: KVTransferObservation, b: KVTransferObservation, c: KVTransferObservation, req: string)
    requires Keeps(Some(a), req, true) && !Keeps(Some(b), req, true) && Keeps(Some(c), req, true)
    ensures Project([Some(a), Some(b), Some(c)], req, true) == [a, c]
  {
    hide Keeps;
    var outs: seq<Output> := [Some(a), Some(b), Some(c)];
    assert outs[..2] == [Some(a), Some(b)] && outs[..2][..1] == [Some(a)] && outs[..1][..0] == [];
    assert Project(outs[..1], req, true) == [a];
    assert Project(outs[..2], req, true) == [a];
  }
}
