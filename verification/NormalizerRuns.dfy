/** Runs of the lifecycle normalizer: its outcome counters, and the evidence latch. */
module NormalizerRuns {
  import opened Basics
  import opened Schema
  import opened Normalization
  import opened NormalizerAcceptance
  import opened NormalizerInvariant

  type Output = Option<KVTransferObservation>

  datatype Call = Normalize(source: Source) | Close

  predicate ValidCalls(calls: seq<Call>) {
    forall c :: c in calls && c.Normalize? ==> c.source.Valid()
  }

  function Next(s: State, c: Call): State {
    match c
    case Normalize(src) => Step(s, src).0
    case Close => CloseState(s)
  }

  function Out(s: State, c: Call): Output {
    match c
    case Normalize(src) => Step(s, src).1
    case Close => None
  }

  /** The state after a sequence of calls. */
  function Run(s: State, calls: seq<Call>): State {
    if calls == [] then s else Next(Run(s, calls[..|calls| - 1]), calls[|calls| - 1])
  }

  /** What each of the calls returned. */
  function Outputs(s: State, calls: seq<Call>): (outs: seq<Output>)
    ensures |outs| == |calls|
    ensures forall i :: 0 <= i < |outs| && outs[i].Some? ==> outs[i].value.Valid()
  {
    if calls == [] then []
    else
      var n := |calls| - 1;
      Outputs(s, calls[..n]) + [Out(Run(s, calls[..n]), calls[n])]
  }

  lemma {:induction false} RunKeepsInv(s: State, calls: seq<Call>)
    requires Inv(s) && ValidCalls(calls)
    ensures Inv(Run(s, calls)) && Run(s, calls).config == s.config
  {
    if calls != [] {
      var n := |calls| - 1;
      RunKeepsInv(s, calls[..n]);
      NextKeepsInv(Run(s, calls[..n]), calls[n]);
    }
  }

  lemma NextKeepsInv(s: State, c: Call)
    requires Inv(s) && (c.Normalize? ==> c.source.Valid())
    ensures Inv(Next(s, c)) && Next(s, c).config == s.config
  {
    if c.Normalize? {
      StepKeepsInv(s, c.source);
    }
  }

  /** The call loses a pending transfer because the receipt table is full. */
  predicate LosesPending(s: State, c: Call) {
    c.Normalize? && Live(s) && CompletionOverflow(s, c.source)
  }

  /**
   * One call, seen from outside: emit an enabled record with exactly its effect, or leave the
   * tables alone, or empty them.
   */
  ghost predicate Moves(s: State, x: Output, s': State, loses: bool) {
    && s'.config == s.config
    && (x.Some? ==> x.value.Valid() && Live(s) && Enabled(s, x.value) && s' == After(s, x.value) && !loses)
    && (x.None? && !s'.closed ==>
          && s'.completed == s.completed
          && s'.admissions == s.admissions
          && (!loses ==> s'.pending == s.pending)
          && (loses ==> exists t :: t in s.pending && s'.pending == s.pending - {t})
          && (s'.evidenceValid ==> s.evidenceValid && !loses))
    && (s'.closed ==> s'.pending == map[] && s'.completed == map[] && s'.admissions == map[])
    && (s.closed ==> x.None? && s'.closed)
  }

  lemma OverflowReturnsNothing(s: State, src: Source)
    requires CompletionOverflow(s, src)
    ensures Step(s, src).1.None?
  {
  }

  lemma CallMoves(s: State, c: Call)
    requires Inv(s) && (c.Normalize? ==> c.source.Valid())
    ensures Moves(s, Out(s, c), Next(s, c), LosesPending(s, c))
  {
    hide Handle;
    hide Enabled;
    hide AfterPending;
    hide AfterCompleted;
    hide AfterAdmissions;
    hide KVTransferObservation.Valid;
    hide StartOverflow;
    hide AdmissionOverflow;
    NextKeepsInv(s, c);
    if c.Normalize? && Live(s) {
      var src, s' := c.source, Next(s, c);
      if Step(s, src).1.Some? {
        EmittedWasEnabled(s, src);
        if CompletionOverflow(s, src) { OverflowReturnsNothing(s, src); }
      } else {
        RefusedSourceFrame(s, src);
        if CompletionOverflow(s, src) { assert src.transfer in s.pending && s'.pending == s.pending - {src.transfer}; }
      }
    }
  }

  // ----- outcome counters and the evidence latch -----

  function CountCalls(calls: seq<Call>): nat {
    if calls == [] then 0
    else CountCalls(calls[..|calls| - 1]) + (if calls[|calls| - 1].Normalize? then 1 else 0)
  }

  /** At most one capacity drop, and only together with the fall of the latch. */
  predicate LatchInv(s: State) {
    s.counters.capacityDropped <= 1 && (s.counters.capacityDropped == 1 ==> !s.evidenceValid)
  }

  lemma StepCounts(s: State, src: Source)
    requires Inv(s) && LatchInv(s) && src.Valid()
    ensures Step(s, src).0.counters.Total() == s.counters.Total() + 1
    ensures LatchInv(Step(s, src).0)
    ensures Step(s, src).1.Some? <==> Step(s, src).0.counters.accepted == s.counters.accepted + 1
  {
    hide Handle;
    if Live(s) {
      if Step(s, src).1.Some? { EmittedWasEnabled(s, src); } else { RefusedSourceFrame(s, src); }
    }
  }

  lemma NextCounts(s: State, c: Call)
    requires Inv(s) && LatchInv(s) && (c.Normalize? ==> c.source.Valid())
    ensures Next(s, c).counters.Total() == s.counters.Total() + (if c.Normalize? then 1 else 0)
    ensures LatchInv(Next(s, c))
  {
    hide Step;
    hide Inv;
    if c.Normalize? { StepCounts(s, c.source); }
  }

  /**
   * Over any run the five outcome counters account for every call of `normalize`
   * exactly once, and at most one of them was lost to capacity.
   */
  lemma {:induction false} CountersAccountForEveryCall(config: Config, calls: seq<Call>)
    requires config.Valid() && ValidCalls(calls)
    ensures var s := Run(Initial(config), calls);
      s.counters.Total() == CountCalls(calls) && LatchInv(s)
  {
    hide Next;
    hide LatchInv;
    hide Counters.Total;
    hide Source.Valid;
    if calls == [] {
      NothingCounted(config);
      NothingDropped(config);
    } else {
      hide Inv;
      var n := |calls| - 1;
      CountersAccountForEveryCall(config, calls[..n]);
      RunKeepsInv(Initial(config), calls[..n]) by { InitialInv(config); }
      NextCounts(Run(Initial(config), calls[..n]), calls[n]);
    }
  }

  lemma NothingCounted(config: Config)
    ensures Initial(config).counters.Total() == 0
  {
  }

  lemma NothingDropped(config: Config)
    ensures LatchInv(Initial(config))
  {
  }

  predicate SameTables(s: State, s': State) {
    s'.pending == s.pending && s'.completed == s.completed && s'.admissions == s.admissions
  }

  /**
   * Once the evidence latch has fallen it stays down: no later call returns a record,
   * and the three tables stay frozen until `close` empties them.
   */
  lemma {:induction false} FallenLatchFreezes(s: State, calls: seq<Call>)
    requires !s.evidenceValid
    ensures var s' := Run(s, calls);
      && !s'.evidenceValid
      && (forall i :: 0 <= i < |calls| ==> Outputs(s, calls)[i] == None)
      && (if s.closed || Close !in calls then SameTables(s, s') && s'.closed == s.closed
          else s'.closed && SameTables(CloseState(s), s'))
  {
    if calls != [] {
      var n := |calls| - 1;
      FallenLatchFreezes(s, calls[..n]);
      assert calls == calls[..n] + [calls[n]];
    }
  }
}
