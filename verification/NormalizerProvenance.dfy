/** Where every accepted first compute comes from. */
module NormalizerProvenance {
  import opened Basics
  import opened Schema
  import opened Normalization
  import opened NormalizerAcceptance
  import opened NormalizerRuns

  predicate Emits(outs: seq<Output>, i: int, e: ObservationEvent, id: ObservationIdentity) {
    0 <= i < |outs| && outs[i].Some? && outs[i].value.event == e && outs[i].value.identity == id
  }

  /** Output `b` is the start of transfer `t` recorded as `p`. */
  predicate IsStart(outs: seq<Output>, b: int, t: TransferIdentity, p: Pending) {
    && 0 <= b < |outs| && outs[b].Some?
    && (outs[b].value.event.PRESERVE_STARTED? || outs[b].value.event.RESTORE_STARTED?)
    && outs[b].value.transfer == Some(t)
    && outs[b].value.blockCount.Some?
    && PendingOf(outs[b].value) == p
  }

  /**
   * Output `k` completes the restore of `t` under `id` that output `b` started, strictly later,
   * with its measurements.
   */
  predicate IsRestore(outs: seq<Output>, b: int, k: int, t: TransferIdentity, id: ObservationIdentity, at: int) {
    && 0 <= b < k < |outs|
    && Emits(outs, b, RESTORE_STARTED, id) && outs[b].value.transfer == Some(t)
    && Emits(outs, k, RESTORE_COMPLETED, id) && outs[k].value.transfer == Some(t)
    && outs[b].value.observedAtNs < outs[k].value.observedAtNs <= at
    && outs[k].value.blockCount == outs[b].value.blockCount
    && outs[k].value.durationNs == Some(outs[k].value.observedAtNs - outs[b].value.observedAtNs)
  }

  ghost predicate RestoredBefore(outs: seq<Output>, n: int, t: TransferIdentity, id: ObservationIdentity, at: int) {
    exists b, k :: k < n && IsRestore(outs, b, k, t, id, at)
  }

  /**
   * Output `a` admits `roster` under `id`, no later than `at`; every transfer of the
   * roster was restored before; and no output in `(a, n)` admits or computes `id` again.
   */
  ghost predicate IsAdmission(outs: seq<Output>, a: int, n: int, id: ObservationIdentity,
                              roster: seq<TransferIdentity>, at: int) {
    && 0 <= a < n <= |outs|
    && Emits(outs, a, RECOVERY_ADMITTED, id)
    && outs[a].value.associatedTransfers == roster
    && outs[a].value.observedAtNs <= at
    && (forall t :: t in roster ==> RestoredBefore(outs, a, t, id, outs[a].value.observedAtNs))
    && (forall j :: a < j < n ==> !Emits(outs, j, RECOVERY_ADMITTED, id) && !Emits(outs, j, FIRST_COMPUTE, id))
  }

  ghost predicate PendingTraced(outs: seq<Output>, s: State) {
    forall t :: t in s.pending ==> exists b :: IsStart(outs, b, t, s.pending[t])
  }

  ghost predicate CompletedTraced(outs: seq<Output>, s: State) {
    forall t :: t in s.completed ==>
      RestoredBefore(outs, |outs|, t, s.completed[t].identity, s.completed[t].observedAtNs)
  }

  ghost predicate IsOpenAdmission(outs: seq<Output>, a: int, id: ObservationIdentity, d: Admission) {
    IsAdmission(outs, a, |outs|, id, d.transfers, d.observedAtNs)
  }

  ghost predicate AdmissionsTraced(outs: seq<Output>, s: State) {
    forall id :: id in s.admissions ==> exists a :: IsOpenAdmission(outs, a, id, s.admissions[id])
  }

  /** The history explains every entry of every table. */
  ghost predicate Traced(outs: seq<Output>, s: State) {
    PendingTraced(outs, s) && CompletedTraced(outs, s) && AdmissionsTraced(outs, s)
  }

  lemma RestoredBeforeGrows(outs: seq<Output>, x: Output, n: int, t: TransferIdentity, id: ObservationIdentity,
                            at: int, at': int)
    requires RestoredBefore(outs, n, t, id, at) && at <= at'
    ensures RestoredBefore(outs + [x], n, t, id, at')
    ensures RestoredBefore(outs + [x], n + 1, t, id, at')
  {
    var b, k :| k < n && IsRestore(outs, b, k, t, id, at);
    assert IsRestore(outs + [x], b, k, t, id, at');
  }

  lemma IsAdmissionGrows(outs: seq<Output>, x: Output, a: int, id: ObservationIdentity, roster: seq<TransferIdentity>,
                         at: int)
    requires IsAdmission(outs, a, |outs|, id, roster, at)
    requires !Emits([x], 0, RECOVERY_ADMITTED, id) && !Emits([x], 0, FIRST_COMPUTE, id)
    ensures IsAdmission(outs + [x], a, |outs| + 1, id, roster, at)
  {
    var outs' := outs + [x];
    forall t | t in roster ensures RestoredBefore(outs', a, t, id, outs'[a].value.observedAtNs) {
      RestoredBeforeGrows(outs, x, a, t, id, outs[a].value.observedAtNs, outs[a].value.observedAtNs);
    }
    forall j | a < j < |outs| + 1
      ensures !Emits(outs', j, RECOVERY_ADMITTED, id) && !Emits(outs', j, FIRST_COMPUTE, id)
    {
      if j < |outs| {
        assert !Emits(outs, j, RECOVERY_ADMITTED, id) && !Emits(outs, j, FIRST_COMPUTE, id);
      } else {
        assert outs'[j] == [x][0];
      }
    }
  }

  lemma TracedPending(outs: seq<Output>, s: State, x: Output, s': State, loses: bool)
    requires Traced(outs, s) && Moves(s, x, s', loses)
    ensures PendingTraced(outs + [x], s')
  {
    hide EnabledPreserved;
    hide EnabledTerminal;
    hide EnabledRestored;
    hide EnabledAdmitted;
    hide EnabledCompute;
    hide AfterCompleted;
    hide AfterAdmissions;
    hide KVTransferObservation.FieldsInRange;
    forall t | t in s'.pending ensures exists b :: IsStart(outs + [x], b, t, s'.pending[t]) {
      if t in s.pending && s'.pending[t] == s.pending[t] {
        var b :| IsStart(outs, b, t, s.pending[t]);
        assert IsStart(outs + [x], b, t, s'.pending[t]);
      } else {
        assert IsStart(outs + [x], |outs|, t, s'.pending[t]);
      }
    }
  }

  lemma RestoredNow(outs: seq<Output>, s: State, o: KVTransferObservation)
    requires PendingTraced(outs, s)
    requires o.Valid() && o.event.RESTORE_COMPLETED? && EnabledRestored(s, o)
    ensures RestoredBefore(outs + [Some(o)], |outs| + 1, o.transfer.value, o.identity, o.observedAtNs)
  {
    hide KVTransferObservation.FieldsInRange;
    var t := o.transfer.value;
    var b :| IsStart(outs, b, t, s.pending[t]);
    assert IsRestore(outs + [Some(o)], b, |outs|, t, o.identity, o.observedAtNs);
  }

  lemma TracedCompleted(outs: seq<Output>, s: State, x: Output, s': State, loses: bool)
    requires Traced(outs, s) && Moves(s, x, s', loses)
    ensures CompletedTraced(outs + [x], s')
  {
    hide EnabledStart;
    hide EnabledPreserved;
    hide EnabledTerminal;
    hide EnabledAdmitted;
    hide EnabledCompute;
    hide AfterPending;
    hide AfterAdmissions;
    hide IsRestore;
    hide IsStart;
    hide RestoredBefore;
    hide KVTransferObservation.FieldsInRange;
    forall t | t in s'.completed
      ensures RestoredBefore(outs + [x], |outs| + 1, t, s'.completed[t].identity, s'.completed[t].observedAtNs)
    {
      if t in s.completed && s'.completed[t] == s.completed[t] {
        RestoredBeforeGrows(outs, x, |outs|, t, s.completed[t].identity, s.completed[t].observedAtNs,
                            s.completed[t].observedAtNs);
      } else {
        RestoredNow(outs, s, x.value);
      }
    }
  }

  lemma AdmittedNow(outs: seq<Output>, s: State, o: KVTransferObservation)
    requires CompletedTraced(outs, s)
    requires o.Valid() && o.event.RECOVERY_ADMITTED? && EnabledAdmitted(s, o)
    ensures IsOpenAdmission(outs + [Some(o)], |outs|, o.identity, Admission(o.associatedTransfers, o.observedAtNs))
  {
    hide KVTransferObservation.FieldsInRange;
    var outs' := outs + [Some(o)];
    forall t | t in o.associatedTransfers ensures RestoredBefore(outs', |outs|, t, o.identity, o.observedAtNs) {
      assert Restored(s.completed, t, o.identity, o.observedAtNs);
      RestoredBeforeGrows(outs, Some(o), |outs|, t, o.identity, s.completed[t].observedAtNs, o.observedAtNs);
    }
  }

  lemma TracedAdmissions(outs: seq<Output>, s: State, x: Output, s': State, loses: bool)
    requires Traced(outs, s) && Moves(s, x, s', loses)
    ensures AdmissionsTraced(outs + [x], s')
  {
    hide EnabledStart;
    hide EnabledPreserved;
    hide EnabledTerminal;
    hide EnabledRestored;
    hide EnabledCompute;
    hide AfterPending;
    hide AfterCompleted;
    hide KVTransferObservation.FieldsInRange;
    forall id | id in s'.admissions ensures exists a :: IsOpenAdmission(outs + [x], a, id, s'.admissions[id]) {
      var d := s'.admissions[id];
      if id in s.admissions {
        var a :| IsOpenAdmission(outs, a, id, s.admissions[id]);
        IsAdmissionGrows(outs, x, a, id, d.transfers, d.observedAtNs);
        assert IsOpenAdmission(outs + [x], a, id, d);
      } else {
        AdmittedNow(outs, s, x.value);
      }
    }
  }

  lemma {:induction false} RunTraced(config: Config, calls: seq<Call>)
    requires config.Valid() && ValidCalls(calls)
    ensures Traced(Outputs(Initial(config), calls), Run(Initial(config), calls))
  {
    hide Next;
    hide Out;
    hide Moves;
    hide LosesPending;
    if calls != [] {
      var n := |calls| - 1;
      var s, outs := Run(Initial(config), calls[..n]), Outputs(Initial(config), calls[..n]);
      RunTraced(config, calls[..n]);
      RunKeepsInv(Initial(config), calls[..n]);
      var x, s', loses := Out(s, calls[n]), Next(s, calls[n]), LosesPending(s, calls[n]);
      CallMoves(s, calls[n]);
      TracedPending(outs, s, x, s', loses);
      TracedCompleted(outs, s, x, s', loses);
      TracedAdmissions(outs, s, x, s', loses);
    }
  }

  /** The first compute at output `k` consumes the admission at output `a`. */
  ghost predicate Consumes(outs: seq<Output>, k: int, a: int) {
    && 0 <= a < k < |outs| && outs[k].Some? && outs[k].value.event.FIRST_COMPUTE?
    && IsAdmission(outs, a, k, outs[k].value.identity, outs[k].value.associatedTransfers, outs[k].value.observedAtNs)
  }

  lemma {:induction false} RunPrefix(s: State, calls: seq<Call>, k: nat)
    requires k <= |calls|
    ensures Outputs(s, calls)[..k] == Outputs(s, calls[..k])
    ensures k < |calls| ==> Outputs(s, calls)[k] == Out(Run(s, calls[..k]), calls[k])
    decreases |calls|
  {
    hide Next;
    hide Out;
    if k == |calls| {
      assert calls[..k] == calls;
    } else {
      var n := |calls| - 1;
      assert calls[..n][..k] == calls[..k];
      if k < n { RunPrefix(s, calls[..n], k); }
    }
  }

  lemma IsAdmissionExtends(outs: seq<Output>, n: int, a: int, id: ObservationIdentity, roster: seq<TransferIdentity>,
                           at: int, at': int)
    requires 0 <= n <= |outs| && IsAdmission(outs[..n], a, n, id, roster, at) && at <= at'
    ensures IsAdmission(outs, a, n, id, roster, at')
    ensures 0 <= a < n
  {
    forall t | t in roster ensures RestoredBefore(outs, a, t, id, outs[a].value.observedAtNs) {
      var b, k :| k < a && IsRestore(outs[..n], b, k, t, id, outs[a].value.observedAtNs);
      assert IsRestore(outs, b, k, t, id, outs[a].value.observedAtNs);
    }
    forall j | a < j < n ensures !Emits(outs, j, RECOVERY_ADMITTED, id) && !Emits(outs, j, FIRST_COMPUTE, id) {
      assert !Emits(outs[..n], j, RECOVERY_ADMITTED, id) && !Emits(outs[..n], j, FIRST_COMPUTE, id);
    }
  }

  /** A first compute finds its admission in the table. */
  lemma ComputeFinds(s: State, x: Output, s': State, loses: bool)
    requires Moves(s, x, s', loses) && x.Some? && x.value.event.FIRST_COMPUTE?
    ensures var o := x.value;
      o.identity in s.admissions && s.admissions[o.identity].transfers == o.associatedTransfers &&
        s.admissions[o.identity].observedAtNs <= o.observedAtNs
  {
    hide KVTransferObservation.FieldsInRange;
  }

  /**
   * In every run, each accepted first compute consumes an earlier admission of the same
   * identity and roster, no later in time, that nothing consumed in between; and each
   * transfer of the roster was started and then, strictly later, completed under that
   * identity, before and no later than the admission, with the block count of its start
   * and a duration equal to the difference.
   */
  lemma FirstComputeProvenance(config: Config, calls: seq<Call>, k: nat)
    requires config.Valid() && ValidCalls(calls) && k < |calls|
    requires var x := Outputs(Initial(config), calls)[k]; x.Some? && x.value.event.FIRST_COMPUTE?
    ensures exists a :: Consumes(Outputs(Initial(config), calls), k, a)
  {
    hide Next;
    hide Out;
    hide Moves;
    hide LosesPending;
    hide IsAdmission;
    hide PendingTraced;
    hide CompletedTraced;
    hide KVTransferObservation.Valid;
    var outs := Outputs(Initial(config), calls);
    var s := Run(Initial(config), calls[..k]);
    RunPrefix(Initial(config), calls, k);
    RunTraced(config, calls[..k]);
    RunKeepsInv(Initial(config), calls[..k]);
    CallMoves(s, calls[k]);
    var o := outs[k].value;
    ComputeFinds(s, outs[k], Next(s, calls[k]), LosesPending(s, calls[k]));
    var a :| IsOpenAdmission(outs[..k], a, o.identity, s.admissions[o.identity]);
    IsAdmissionExtends(outs, k, a, o.identity, o.associatedTransfers, s.admissions[o.identity].observedAtNs,
                       o.observedAtNs);
    assert Consumes(outs, k, a);
  }

  /** No admission is consumed twice. */
  lemma NoAdmissionConsumedTwice(outs: seq<Output>, k1: int, k2: int, a: int)
    requires Consumes(outs, k1, a) && Consumes(outs, k2, a)
    ensures k1 == k2
  {
    if k1 < k2 { assert Emits(outs, k1, FIRST_COMPUTE, outs[a].value.identity); assert false; }
    if k2 < k1 { assert Emits(outs, k2, FIRST_COMPUTE, outs[a].value.identity); assert false; }
  }
}
