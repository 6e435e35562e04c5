/** Conservation: what went into the tables came out of them, or is still there. */
module NormalizerConservation {
  import opened Basics
  import opened Schema
  import opened Normalization
  import opened NormalizerAcceptance
  import opened NormalizerInvariant
  import opened NormalizerRuns

  function EventCount(outs: seq<Output>, e: ObservationEvent): (n: nat) {
    if outs == [] then 0
    else
      var last := outs[|outs| - 1];
      EventCount(outs[..|outs| - 1], e) + (if last.Some? && last.value.event == e then 1 else 0)
  }

  function Starts(outs: seq<Output>): nat {
    EventCount(outs, PRESERVE_STARTED) + EventCount(outs, RESTORE_STARTED)
  }

  function Settled(outs: seq<Output>): nat {
    EventCount(outs, PRESERVE_COMPLETED) + EventCount(outs, RESTORE_COMPLETED)
    + EventCount(outs, TRANSFER_FAILED) + EventCount(outs, TRANSFER_CANCELLED)
  }

  /** Total roster size of the accepted first computes. */
  function ConsumedTransfers(outs: seq<Output>): (n: nat) {
    if outs == [] then 0
    else
      var last := outs[|outs| - 1];
      ConsumedTransfers(outs[..|outs| - 1])
      + (if last.Some? && last.value.event.FIRST_COMPUTE? then |last.value.associatedTransfers| else 0)
  }

  /** Pending entries lost to a full receipt table. */
  function LostPending(s: State, calls: seq<Call>): (n: nat) {
    if calls == [] then 0
    else
      var n := |calls| - 1;
      LostPending(s, calls[..n]) + (if LosesPending(Run(s, calls[..n]), calls[n]) then 1 else 0)
  }

  ghost predicate Balanced(outs: seq<Output>, s: State, lost: nat) {
    && Starts(outs) == |s.pending| + Settled(outs) + lost
    && (s.config.retain ==> EventCount(outs, RESTORE_COMPLETED) == |s.completed| + ConsumedTransfers(outs))
    && EventCount(outs, RECOVERY_ADMITTED) == |s.admissions| + EventCount(outs, FIRST_COMPUTE)
  }

  lemma EventCountAppend(outs: seq<Output>, x: Output, e: ObservationEvent)
    ensures EventCount(outs + [x], e) == EventCount(outs, e) + (if x.Some? && x.value.event == e then 1 else 0)
  {
    assert (outs + [x])[..|outs|] == outs;
  }

  lemma CountsAppend(outs: seq<Output>, x: Output)
    ensures Starts(outs + [x]) == Starts(outs)
      + (if x.Some? && IsStartEvent(x.value) then 1 else 0)
    ensures Settled(outs + [x]) == Settled(outs)
      + (if x.Some? && IsSettleEvent(x.value) then 1 else 0)
    ensures ConsumedTransfers(outs + [x]) == ConsumedTransfers(outs)
      + (if x.Some? && x.value.event.FIRST_COMPUTE? then |x.value.associatedTransfers| else 0)
    ensures forall e ::
      EventCount(outs + [x], e) == EventCount(outs, e) + (if x.Some? && x.value.event == e then 1 else 0)
  {
    forall e { EventCountAppend(outs, x, e); }
    assert (outs + [x])[..|outs|] == outs;
  }

  lemma RemoveOne<K, V>(m: map<K, V>, k: K)
    requires k in m
    ensures |m - {k}| == |m| - 1
  {
    assert (m - {k}).Keys == m.Keys - {k};
  }

  lemma AddOne<K, V>(m: map<K, V>, k: K, v: V)
    requires k !in m
    ensures |m[k := v]| == |m| + 1
  {
    assert m[k := v].Keys == m.Keys + {k};
  }

  lemma RemoveRoster(completed: map<TransferIdentity, CompletedRestore>, ts: seq<TransferIdentity>)
    requires SortedUnique(ts) && forall t :: t in ts ==> t in completed
    ensures |completed - ToSet(ts)| == |completed| - |ts|
  {
    SortedUniqueDistinct(ts);
    DistinctCardinality(ts);
    assert (completed - ToSet(ts)).Keys == completed.Keys - ToSet(ts);
    assert ToSet(ts) <= completed.Keys;
    assert completed.Keys == (completed.Keys - ToSet(ts)) + ToSet(ts);
  }

  predicate IsStartEvent(o: KVTransferObservation) { o.event.PRESERVE_STARTED? || o.event.RESTORE_STARTED? }

  predicate IsSettleEvent(o: KVTransferObservation) {
    o.event.PRESERVE_COMPLETED? || o.event.RESTORE_COMPLETED? || o.event.TRANSFER_FAILED? || o.event.TRANSFER_CANCELLED?
  }

  lemma PendingAfter(s: State, o: KVTransferObservation)
    requires o.Valid() && Enabled(s, o)
    ensures |AfterPending(s, o)|
        == |s.pending| + (if IsStartEvent(o) then 1 else 0) - (if IsSettleEvent(o) then 1 else 0)
  {
    hide KVTransferObservation.FieldsInRange;
    hide EnabledAdmitted;
    hide EnabledCompute;
    if IsStartEvent(o) {
      AddOne(s.pending, o.transfer.value, PendingOf(o));
    } else if IsSettleEvent(o) {
      RemoveOne(s.pending, o.transfer.value);
    }
  }

  lemma PendingBalance(s: State, x: Output, s': State, loses: bool)
    requires Moves(s, x, s', loses) && !s'.closed
    ensures |s'.pending| == |s.pending|
      + (if x.Some? && IsStartEvent(x.value) then 1 else 0)
      - (if x.Some? && IsSettleEvent(x.value) then 1 else 0)
      - (if loses then 1 else 0)
  {
    hide KVTransferObservation.Valid;
    hide Enabled;
    hide AfterPending;
    hide AfterCompleted;
    hide AfterAdmissions;
    hide IsStartEvent;
    hide IsSettleEvent;
    if x.Some? {
      PendingAfter(s, x.value);
    } else if loses {
      var t :| t in s.pending && s'.pending == s.pending - {t};
      RemoveOne(s.pending, t);
    }
  }

  lemma RosterRetained(s: State, id: ObservationIdentity)
    requires Inv(s) && id in s.admissions
    ensures SortedUnique(s.admissions[id].transfers)
    ensures forall t :: t in s.admissions[id].transfers ==> t in s.completed
  {
    forall t | t in s.admissions[id].transfers ensures t in s.completed {
      assert Restored(s.completed, t, id, s.admissions[id].observedAtNs);
    }
  }

  lemma CompletedAfter(s: State, o: KVTransferObservation)
    requires Inv(s) && o.Valid() && Enabled(s, o) && s.config.retain
    ensures |AfterCompleted(s, o)| == |s.completed|
      + (if o.event.RESTORE_COMPLETED? then 1 else 0) - (if o.event.FIRST_COMPUTE? then |o.associatedTransfers| else 0)
  {
    hide KVTransferObservation.FieldsInRange;
    hide EnabledStart;
    hide EnabledPreserved;
    hide EnabledTerminal;
    hide EnabledAdmitted;
    hide AdmissionsBacked;
    hide PendingWellFormed;
    if o.event.RESTORE_COMPLETED? {
      var t := o.transfer.value;
      AddOne(s.completed, t, CompletedRestore(o.identity, o.receipt.value, o.observedAtNs));
    } else if o.event.FIRST_COMPUTE? {
      RosterRetained(s, o.identity);
      RemoveRoster(s.completed, o.associatedTransfers);
    }
  }

  lemma CompletedBalance(s: State, x: Output, s': State, loses: bool)
    requires Inv(s) && Moves(s, x, s', loses) && !s'.closed && s.config.retain
    ensures |s'.completed| == |s.completed|
      + (if x.Some? && x.value.event.RESTORE_COMPLETED? then 1 else 0)
      - (if x.Some? && x.value.event.FIRST_COMPUTE? then |x.value.associatedTransfers| else 0)
  {
    hide KVTransferObservation.Valid;
    hide Inv;
    hide Enabled;
    hide AfterPending;
    hide AfterCompleted;
    hide AfterAdmissions;
    if x.Some? { CompletedAfter(s, x.value); }
  }

  lemma AdmissionBalance(s: State, x: Output, s': State, loses: bool)
    requires Moves(s, x, s', loses) && !s'.closed
    ensures |s'.admissions| == |s.admissions|
      + (if x.Some? && x.value.event.RECOVERY_ADMITTED? then 1 else 0)
      - (if x.Some? && x.value.event.FIRST_COMPUTE? then 1 else 0)
  {
    hide KVTransferObservation.FieldsInRange;
    hide AfterPending;
    hide AfterCompleted;
    if x.Some? {
      var id := x.value.identity;
      if x.value.event.RECOVERY_ADMITTED? {
        AddOne(s.admissions, id, s'.admissions[id]);
      } else if x.value.event.FIRST_COMPUTE? {
        RemoveOne(s.admissions, id);
      }
    }
  }

  lemma BalancedStep(outs: seq<Output>, s: State, lost: nat, x: Output, s': State, loses: bool)
    requires Inv(s) && Balanced(outs, s, lost) && Moves(s, x, s', loses) && !s'.closed
    ensures Balanced(outs + [x], s', lost + if loses then 1 else 0)
  {
    hide Starts;
    hide Settled;
    hide EventCount;
    hide ConsumedTransfers;
    hide Enabled;
    hide AfterPending;
    hide AfterCompleted;
    hide AfterAdmissions;
    hide Inv;
    hide KVTransferObservation.Valid;
    CountsAppend(outs, x);
    PendingBalance(s, x, s', loses);
    AdmissionBalance(s, x, s', loses);
    if s.config.retain { CompletedBalance(s, x, s', loses); }
  }

  /**
   * Until the normalizer is closed: every accepted start is pending, or was completed,
   * failed or cancelled, or is the one pending entry lost to a full receipt table; with
   * receipts retained, every accepted restore completion is still retained or belongs to
   * the roster of an accepted first compute; and every accepted admission is still held
   * or was consumed by one first compute.
   */
  lemma {:induction false} Conservation(config: Config, calls: seq<Call>)
    requires config.Valid() && ValidCalls(calls) && !Run(Initial(config), calls).closed
    ensures Balanced(Outputs(Initial(config), calls), Run(Initial(config), calls), LostPending(Initial(config), calls))
    ensures LostPending(Initial(config), calls) <= Run(Initial(config), calls).counters.capacityDropped <= 1
  {
    hide Next;
    hide Out;
    hide Balanced;
    hide Moves;
    if calls == [] {
      EmptyBalanced(config);
    } else {
      var n := |calls| - 1;
      var s := Run(Initial(config), calls[..n]);
      CallMoves(s, calls[n]) by { RunKeepsInv(Initial(config), calls[..n]); }
      assert !s.closed by { ClosedStays(s, calls[n]); }
      Conservation(config, calls[..n]);
      RunKeepsInv(Initial(config), calls[..n]);
      BalancedStep(Outputs(Initial(config), calls[..n]), s, LostPending(Initial(config), calls[..n]),
                   Out(s, calls[n]), Next(s, calls[n]), LosesPending(s, calls[n]));
      LostIsCounted(s, calls[n]);
      CountersAccountForEveryCall(config, calls);
    }
  }

  lemma EmptyBalanced(config: Config)
    ensures Balanced([], Initial(config), 0)
  {
  }

  lemma ClosedStays(s: State, c: Call)
    ensures s.closed ==> Next(s, c).closed
  {
    hide Handle;
  }

  lemma LostIsCounted(s: State, c: Call)
    requires Inv(s) && (c.Normalize? ==> c.source.Valid())
    ensures Next(s, c).counters.capacityDropped >= s.counters.capacityDropped + if LosesPending(s, c) then 1 else 0
  {
    hide Handle;
    if c.Normalize? && Live(s) {
      if Step(s, c.source).1.Some? {
        EmittedWasEnabled(s, c.source);
        if CompletionOverflow(s, c.source) { OverflowReturnsNothing(s, c.source); }
      } else {
        RefusedSourceFrame(s, c.source);
      }
    }
  }
}
