/**
 * Asynchronous descriptor capture and the adapter's descriptor counters, as a state
 * machine over the steps of any number of callers, a closer and one writer. Each step
 * is one critical section, or one call that holds no lock.
 */
module AsyncDescriptors {
  import D = DescriptorCapture
  import E = EventFile

  datatype Inventory = Inventory(jobId: nat, regions: nat)

  /** Where the writer thread is; it holds one inventory from the take to the report. */
  datatype Writer =
    | WAITING
    | WRITING(inventory: Inventory)
    | COUNTING(ok: bool)
    | REPORTING(ok: bool)
    | EXITED
  {
    function InHand(): nat { if WAITING? || EXITED? then 0 else 1 }
  }

  /** Counters of the capture queue. */
  datatype QueueCounters = QueueCounters(
    accepted: nat, queueFull: nat, invalidRecords: nat, closedDropped: nat, written: nat, failed: nat,
    resultCallbackErrors: nat)

  /** Counters of the adapter, as far as descriptors move them. */
  datatype AdapterCounters = AdapterCounters(
    received: nat, queued: nat, written: nat, dropped: nat, inactiveDropped: nat, callbackErrors: nat)

  /** An inventory the writer took, with the answer of its capture. */
  datatype Done = Done(inventory: Inventory, ok: bool)

  datatype State = State(
    maxPending: nat,
    maxRegions: nat,
    queue: seq<Inventory>,
    closing: bool,
    writer: Writer,
    counters: QueueCounters,
    adapter: AdapterCounters,
    active: bool,
    // callers counted as received that have not been decided, and those decided but not counted
    deciding: nat,
    queuedPending: nat,
    droppedPending: nat,
    // history: inventories in the order of acceptance, and in the order the writer finished them
    accepted: seq<Inventory>,
    done: seq<Done>)

  function Initial(maxPending: nat, maxRegions: nat): State {
    State(maxPending, maxRegions, [], false, WAITING, QueueCounters(0, 0, 0, 0, 0, 0, 0),
          AdapterCounters(0, 0, 0, 0, 0, 0),
          true, 0, 0, 0, [], [])
  }

  datatype Step =
    // a caller in `capture_descriptor`
    | Receive
    | Offer(inventory: Inventory)
    | OfferRaises
    | CountQueued
    | CountDropped
    // the adapter leaves its active state; the queue is closed
    | Deactivate
    | Close
    // the writer
    | WriterTakes
    | WriterFinishes(ok: bool)
    | WriterCounts
    | WriterReports(raises: bool)
    | WriterLeaves

  predicate CanStep(s: State, step: Step) {
    match step
    case Receive => true
    case Offer(_) => s.deciding > 0
    case OfferRaises => s.deciding > 0
    case CountQueued => s.queuedPending > 0
    case CountDropped => s.droppedPending > 0
    case Deactivate => true
    case Close => true
    case WriterTakes => s.writer.WAITING? && s.queue != []
    case WriterFinishes(_) => s.writer.WRITING?
    case WriterCounts => s.writer.COUNTING?
    case WriterReports(_) => s.writer.REPORTING?
    case WriterLeaves => s.writer.WAITING? && s.queue == [] && s.closing
  }

  /** One `capture` call: admission under the queue's lock, newest dropped on overflow. */
  function Decide(s: State, inventory: Inventory): State
    requires s.deciding > 0
  {
    var c := s.counters;
    var refused := s.(deciding := s.deciding - 1, droppedPending := s.droppedPending + 1);
    if s.closing then refused.(counters := c.(closedDropped := c.closedDropped + 1))
    else if inventory.regions > s.maxRegions then refused.(counters := c.(invalidRecords := c.invalidRecords + 1))
    else if |s.queue| >= s.maxPending then refused.(counters := c.(queueFull := c.queueFull + 1))
    else s.(deciding := s.deciding - 1, queuedPending := s.queuedPending + 1, queue := s.queue + [inventory],
            accepted := s.accepted + [inventory], counters := c.(accepted := c.accepted + 1))
  }

  function Next(s: State, step: Step): State
    requires CanStep(s, step)
  {
    var c, a := s.counters, s.adapter;
    match step
    case Receive =>
      if s.active then s.(adapter := a.(received := a.received + 1), deciding := s.deciding + 1)
      else s.(adapter := a.(inactiveDropped := a.inactiveDropped + 1))
    case Offer(inventory) => Decide(s, inventory)
    case OfferRaises => s.(adapter := a.(callbackErrors := a.callbackErrors + 1), deciding := s.deciding - 1)
    case CountQueued => s.(adapter := a.(queued := a.queued + 1), queuedPending := s.queuedPending - 1)
    case CountDropped => s.(adapter := a.(dropped := a.dropped + 1), droppedPending := s.droppedPending - 1)
    case Deactivate => s.(active := false)
    case Close => s.(closing := true)
    case WriterTakes => s.(writer := WRITING(s.queue[0]), queue := s.queue[1..])
    case WriterFinishes(ok) => s.(writer := COUNTING(ok), done := s.done + [Done(s.writer.inventory, ok)])
    case WriterCounts =>
      s.(writer := REPORTING(s.writer.ok),
         counters := if s.writer.ok then c.(written := c.written + 1) else c.(failed := c.failed + 1))
    case WriterReports(raises) =>
      if raises then s.(writer := WAITING, counters := c.(resultCallbackErrors := c.resultCallbackErrors + 1))
      else s.(writer := WAITING,
              adapter := if s.writer.ok then a.(written := a.written + 1) else a.(dropped := a.dropped + 1))
    case WriterLeaves => s.(writer := EXITED)
  }

  /** Every interleaving: each step was possible when it was taken. */
  predicate Schedule(s: State, steps: seq<Step>)
    decreases |steps|
  {
    steps == [] || (CanStep(s, steps[0]) && Schedule(Next(s, steps[0]), steps[1..]))
  }

  function Run(s: State, steps: seq<Step>): State
    requires Schedule(s, steps)
    decreases |steps|
  {
    if steps == [] then s else Run(Next(s, steps[0]), steps[1..])
  }

  // ----- admission -----

  /**
   * An offered inventory is accepted exactly when the queue is open and has room and the
   * inventory is within the region limit; then it is queued last. A refusal queues
   * nothing, and moves the one counter of its reason.
   */
  lemma OfferAccepted(s: State, inventory: Inventory)
    requires CanStep(s, Offer(inventory))
    ensures var s' := Next(s, Offer(inventory));
      var fits := !s.closing && inventory.regions <= s.maxRegions && |s.queue| < s.maxPending;
      && s'.queue == (if fits then s.queue + [inventory] else s.queue)
      && s'.accepted == (if fits then s.accepted + [inventory] else s.accepted)
      && s'.queuedPending == s.queuedPending + (if fits then 1 else 0)
      && s'.droppedPending == s.droppedPending + (if fits then 0 else 1)
      && (s'.counters.closedDropped != s.counters.closedDropped <==> s.closing)
      && (s'.counters.invalidRecords != s.counters.invalidRecords <==>
            !s.closing && inventory.regions > s.maxRegions)
      && (s'.counters.queueFull != s.counters.queueFull <==>
            !s.closing && inventory.regions <= s.maxRegions && |s.queue| >= s.maxPending)
  {
  }

  // ----- the invariant -----

  function Inventories(done: seq<Done>): (r: seq<Inventory>)
    ensures |r| == |done|
  {
    seq(|done|, i requires 0 <= i < |done| => done[i].inventory)
  }

  function Held(w: Writer): seq<Inventory> { if w.WRITING? then [w.inventory] else [] }

  function Tally(done: seq<Done>, ok: bool): nat {
    if done == [] then 0 else Tally(done[..|done| - 1], ok) + (if done[|done| - 1].ok == ok then 1 else 0)
  }

  function Uncounted(w: Writer, ok: bool): nat { if w.COUNTING? && w.ok == ok then 1 else 0 }

  /** Accepted inventories are finished, in hand, or queued, in the order of acceptance. */
  predicate QueueInv(s: State) {
    && |s.queue| <= s.maxPending
    && s.accepted == Inventories(s.done) + Held(s.writer) + s.queue
    && s.counters.accepted == |s.accepted|
    && (s.writer.EXITED? ==> s.closing && s.queue == [])
  }

  predicate CountInv(s: State) {
    && s.counters.written + Uncounted(s.writer, true) == Tally(s.done, true)
    && s.counters.failed + Uncounted(s.writer, false) == Tally(s.done, false)
  }

  /** Every received inventory is somewhere: counted at its end, or still on its way. */
  predicate BalanceInv(s: State) {
    && s.adapter.received ==
         s.adapter.written + s.adapter.dropped + s.adapter.callbackErrors + s.counters.resultCallbackErrors
           + s.deciding + s.droppedPending + |s.queue| + s.writer.InHand()
    && s.counters.accepted == s.adapter.queued + s.queuedPending
    && s.adapter.received ==
         s.counters.accepted + s.counters.queueFull + s.counters.invalidRecords + s.counters.closedDropped
           + s.adapter.callbackErrors + s.deciding
  }

  /** The adapter's `written` is the queue's, short of one for every report that raised. */
  predicate ReportInv(s: State) {
    var told := s.adapter.written + (if s.writer == REPORTING(true) then 1 else 0);
    told <= s.counters.written <= told + s.counters.resultCallbackErrors
  }

  predicate Inv(s: State) { QueueInv(s) && CountInv(s) && BalanceInv(s) && ReportInv(s) }

  lemma OfferKeepsQueue(s: State, inventory: Inventory)
    requires s.deciding > 0 && QueueInv(s)
    ensures QueueInv(Decide(s, inventory))
  {
  }

  lemma OfferKeepsBalance(s: State, inventory: Inventory)
    requires s.deciding > 0 && BalanceInv(s)
    ensures BalanceInv(Decide(s, inventory))
  {
  }

  lemma QueueStep(s: State, step: Step)
    requires QueueInv(s) && CanStep(s, step)
    ensures QueueInv(Next(s, step))
  {
    hide Decide;
    match step
    case Offer(inventory) => OfferKeepsQueue(s, inventory);
    case WriterTakes => assert s.queue == [s.queue[0]] + s.queue[1..];
    case WriterFinishes(ok) =>
      var d := Done(s.writer.inventory, ok);
      assert Inventories(s.done + [d]) == Inventories(s.done) + [d.inventory];
    case _ =>
  }

  lemma TallyAppend(done: seq<Done>, d: Done, ok: bool)
    ensures Tally(done + [d], ok) == Tally(done, ok) + if d.ok == ok then 1 else 0
  {
    assert (done + [d])[..|done|] == done;
  }

  lemma CountStep(s: State, step: Step)
    requires CountInv(s) && CanStep(s, step)
    ensures CountInv(Next(s, step))
  {
    hide Tally;
    if step.WriterFinishes? {
      TallyAppend(s.done, Done(s.writer.inventory, step.ok), true);
      TallyAppend(s.done, Done(s.writer.inventory, step.ok), false);
    }
  }

  lemma BalanceStep(s: State, step: Step)
    requires BalanceInv(s) && CanStep(s, step)
    ensures BalanceInv(Next(s, step))
  {
    hide Decide;
    if step.Offer? { OfferKeepsBalance(s, step.inventory); }
  }

  lemma ReportStep(s: State, step: Step)
    requires ReportInv(s) && CanStep(s, step)
    ensures ReportInv(Next(s, step))
  {
  }

  lemma {:induction false} RunKeepsInv(s: State, steps: seq<Step>)
    requires Inv(s) && Schedule(s, steps)
    ensures Inv(Run(s, steps))
    ensures Run(s, steps).maxPending == s.maxPending
    decreases |steps|
  {
    hide QueueInv;
    hide CountInv;
    hide BalanceInv;
    hide ReportInv;
    hide CanStep;
    if steps != [] {
      QueueStep(s, steps[0]);
      CountStep(s, steps[0]);
      BalanceStep(s, steps[0]);
      ReportStep(s, steps[0]);
      LimitStays(s, steps[0]);
      hide Next;
      RunKeepsInv(Next(s, steps[0]), steps[1..]);
    }
  }

  lemma LimitStays(s: State, step: Step)
    requires CanStep(s, step)
    ensures Next(s, step).maxPending == s.maxPending
  {
  }

  lemma {:induction false} TallyTotal(done: seq<Done>)
    ensures Tally(done, true) + Tally(done, false) == |done|
  {
    if done != [] { TallyTotal(done[..|done| - 1]); }
  }

  // ----- what every interleaving keeps -----

  predicate Fresh(s: State) { s == Initial(s.maxPending, s.maxRegions) }

  /** The queue is bounded, and what the writer finished is a prefix of what was accepted. */
  lemma BoundedAndInOrder(s: State, steps: seq<Step>)
    requires Fresh(s) && Schedule(s, steps)
    ensures var e := Run(s, steps); |e.queue| <= s.maxPending && Inventories(e.done) <= e.accepted
  {
    RunKeepsInv(s, steps);
    hide Run;
  }

  /**
   * When the writer has exited, every accepted inventory has been written or has failed,
   * exactly once and in the order of acceptance, and whatever callers still do, none is
   * accepted afterwards.
   */
  lemma ExitedHasDrained(s: State, steps: seq<Step>, later: seq<Step>)
    requires Fresh(s) && Schedule(s, steps) && Run(s, steps).writer.EXITED? && Schedule(Run(s, steps), later)
    ensures var e := Run(Run(s, steps), later);
      && e.queue == []
      && Inventories(e.done) == e.accepted == Run(s, steps).accepted
      && e.counters.written + e.counters.failed == e.counters.accepted == |e.accepted|
      && e.counters.written == Tally(e.done, true)
  {
    RunKeepsInv(s, steps);
    var m := Run(s, steps);
    RunKeepsInv(m, later);
    ClosedAcceptsNothing(m, later);
    TallyTotal(Run(m, later).done);
    hide Run;
    hide Tally;
  }

  lemma {:induction false} ClosedAcceptsNothing(s: State, steps: seq<Step>)
    requires s.closing && Schedule(s, steps)
    ensures var e := Run(s, steps);
      e.accepted == s.accepted && e.closing && (s.writer.EXITED? && s.queue == [] ==> e.writer.EXITED?)
    decreases |steps|
  {
    if steps != [] { ClosedAcceptsNothing(Next(s, steps[0]), steps[1..]); }
  }

  /** No caller is on its way through the adapter. */
  predicate Quiescent(s: State) { s.deciding == 0 && s.queuedPending == 0 && s.droppedPending == 0 }

  /** A callback raises in this step: the queue's `capture`, or the report of a result. */
  predicate Raises(step: Step) { step.OfferRaises? || step == WriterReports(true) }

  function RaiseCount(steps: seq<Step>): (n: nat)
    ensures n == 0 <==> forall i :: 0 <= i < |steps| ==> !Raises(steps[i])
  {
    if steps == [] then 0 else (if Raises(steps[0]) then 1 else 0) + RaiseCount(steps[1..])
  }

  lemma {:induction false} RaisesAreCounted(s: State, steps: seq<Step>)
    requires Schedule(s, steps)
    ensures var e := Run(s, steps);
      e.adapter.callbackErrors + e.counters.resultCallbackErrors ==
           s.adapter.callbackErrors + s.counters.resultCallbackErrors + RaiseCount(steps)
    decreases |steps|
  {
    if steps != [] { RaisesAreCounted(Next(s, steps[0]), steps[1..]); }
  }

  /**
   * After a drain, once every caller has returned, received exceeds written + dropped by
   * the number of callbacks that raised in the schedule: the counts balance if and only
   * if none did. Then `written` is the number published, and `dropped` is the number
   * refused admission together with the number that failed.
   */
  lemma DescriptorsBalance(s: State, steps: seq<Step>)
    requires Fresh(s) && Schedule(s, steps)
    requires Run(s, steps).writer.EXITED? && Quiescent(Run(s, steps))
    ensures var e := Run(s, steps);
      && e.adapter.received == e.adapter.written + e.adapter.dropped + RaiseCount(steps)
      && (e.adapter.received == e.adapter.written + e.adapter.dropped <==>
            forall i :: 0 <= i < |steps| ==> !Raises(steps[i]))
      && e.adapter.queued == e.counters.written + e.counters.failed
      && ((forall i :: 0 <= i < |steps| ==> !Raises(steps[i])) ==>
            && e.adapter.written == e.counters.written
            && e.adapter.dropped ==
                 e.counters.failed + e.counters.queueFull + e.counters.invalidRecords + e.counters.closedDropped)
  {
    RunKeepsInv(s, steps);
    RaisesAreCounted(s, steps);
    TallyTotal(Run(s, steps).done);
    hide Run;
    hide Tally;
    hide Raises;
  }

  // ----- what the drained queue has published -----

  /** The directory before and after each finished inventory, when cleanup works. */
  predicate Publishes(dirs: seq<map<D.Name, E.Bytes>>, done: seq<Done>, name: Inventory -> D.Name,
                      data: Inventory -> E.Bytes)
  {
    && |dirs| == |done| + 1
    && forall k :: 0 <= k < |done| ==>
         D.CapturedAs(dirs[k], dirs[k + 1], name(done[k].inventory), data(done[k].inventory), done[k].ok)
  }

  /** The names of the inventories that were written. */
  function WrittenNames(done: seq<Done>, name: Inventory -> D.Name): set<D.Name> {
    set k | 0 <= k < |done| && done[k].ok :: name(done[k].inventory)
  }

  lemma WrittenNamesAppend(done: seq<Done>, d: Done, name: Inventory -> D.Name)
    ensures WrittenNames(done + [d], name) ==
      WrittenNames(done, name) + if d.ok then {name(d.inventory)} else {}
  {
    var more := done + [d];
    assert forall k :: 0 <= k < |done| ==> more[k] == done[k];
    assert more[|done|] == d;
  }

  /** Exactly the written names were added, one for each written inventory. */
  predicate GainedNames(first: map<D.Name, E.Bytes>, last: map<D.Name, E.Bytes>, done: seq<Done>,
                        name: Inventory -> D.Name)
  {
    && last.Keys == first.Keys + WrittenNames(done, name) && first.Keys !! WrittenNames(done, name)
    && |WrittenNames(done, name)| == Tally(done, true)
  }

  /** The old names are as they were, and the written names hold complete data. */
  predicate GainedData(first: map<D.Name, E.Bytes>, last: map<D.Name, E.Bytes>, done: seq<Done>,
                       name: Inventory -> D.Name, data: Inventory -> E.Bytes)
  {
    && (forall f :: f in first ==> f in last && last[f] == first[f])
    && (forall d :: d in done && d.ok ==> name(d.inventory) in last && last[name(d.inventory)] == data(d.inventory))
  }

  /** One more new name, on sets. */
  lemma OneMore(first: set<D.Name>, written: set<D.Name>, n: D.Name)
    requires first !! written && n !in first + written
    ensures first + written + {n} == first + (written + {n}) && first !! written + {n}
    ensures |written + {n}| == |written| + 1
  {
  }

  lemma GainedNamesAppend(first: map<D.Name, E.Bytes>, mid: map<D.Name, E.Bytes>, last: map<D.Name, E.Bytes>,
                          done: seq<Done>, d: Done, name: Inventory -> D.Name, data: Inventory -> E.Bytes)
    requires GainedNames(first, mid, done, name)
    requires D.CapturedAs(mid, last, name(d.inventory), data(d.inventory), d.ok)
    ensures GainedNames(first, last, done + [d], name)
  {
    hide WrittenNames;
    hide Tally;
    WrittenNamesAppend(done, d, name);
    TallyAppend(done, d, true);
    if d.ok {
      var n := name(d.inventory);
      assert n !in mid.Keys && last.Keys == mid.Keys + {n};
      OneMore(first.Keys, WrittenNames(done, name), n);
    } else {
      assert WrittenNames(done + [d], name) == WrittenNames(done, name) && last == mid;
    }
  }

  lemma GainedDataAppend(first: map<D.Name, E.Bytes>, mid: map<D.Name, E.Bytes>, last: map<D.Name, E.Bytes>,
                         done: seq<Done>, d: Done, name: Inventory -> D.Name, data: Inventory -> E.Bytes)
    requires GainedData(first, mid, done, name, data)
    requires D.CapturedAs(mid, last, name(d.inventory), data(d.inventory), d.ok)
    ensures GainedData(first, last, done + [d], name, data)
  {
  }

  lemma {:induction false} DirectoryGains(dirs: seq<map<D.Name, E.Bytes>>, done: seq<Done>, name: Inventory -> D.Name,
                                          data: Inventory -> E.Bytes)
    requires Publishes(dirs, done, name, data)
    ensures GainedNames(dirs[0], dirs[|done|], done, name) && GainedData(dirs[0], dirs[|done|], done, name, data)
  {
    hide GainedNames;
    hide GainedData;
    hide D.CapturedAs;
    if done == [] {
      NothingGained(dirs[0], name, data);
    } else {
      var n := |done| - 1;
      DirectoryGains(dirs[..|done|], done[..n], name, data);
      assert done == done[..n] + [done[n]];
      GainedNamesAppend(dirs[0], dirs[n], dirs[n + 1], done[..n], done[n], name, data);
      GainedDataAppend(dirs[0], dirs[n], dirs[n + 1], done[..n], done[n], name, data);
    }
  }

  lemma NothingGained(first: map<D.Name, E.Bytes>, name: Inventory -> D.Name, data: Inventory -> E.Bytes)
    ensures GainedNames(first, first, [], name) && GainedData(first, first, [], name, data)
  {
  }

  /**
   * After a drain, the directory has gained exactly `written` names: those of the
   * inventories that were written, each with its complete data. Every name that was there
   * before is as it was.
   */
  lemma DrainPublishes(s: State, steps: seq<Step>, dirs: seq<map<D.Name, E.Bytes>>, name: Inventory -> D.Name,
                       data: Inventory -> E.Bytes)
    requires Fresh(s) && Schedule(s, steps) && Run(s, steps).writer.EXITED?
    requires Publishes(dirs, Run(s, steps).done, name, data)
    ensures var e := Run(s, steps);
      && GainedNames(dirs[0], dirs[|e.done|], e.done, name) && GainedData(dirs[0], dirs[|e.done|], e.done, name, data)
      && |dirs[|e.done|]| == |dirs[0]| + e.counters.written
  {
    hide WrittenNames;
    hide Tally;
    ExitedHasDrained(s, steps, []);
    hide Schedule;
    assert Run(Run(s, steps), []) == Run(s, steps);
    hide Run;
    var e := Run(s, steps);
    DirectoryGains(dirs, e.done, name, data);
    assert |dirs[|e.done|]| == |dirs[|e.done|].Keys| && |dirs[0]| == |dirs[0].Keys|;
  }

  // ----- draining ends -----

  predicate IsWriterStep(step: Step) {
    step.WriterTakes? || step.WriterFinishes? || step.WriterCounts? || step.WriterReports? || step.WriterLeaves?
  }

  /** The writer steps still to be taken once admission has stopped. */
  function Work(s: State): nat {
    4 * |s.queue| +
    match s.writer
    case WAITING => 1
    case WRITING(_) => 4
    case COUNTING(_) => 3
    case REPORTING(_) => 2
    case EXITED => 0
  }

  function WriterSteps(steps: seq<Step>): nat {
    if steps == [] then 0 else (if IsWriterStep(steps[0]) then 1 else 0) + WriterSteps(steps[1..])
  }

  /**
   * A close drains: after it, in every interleaving the writer exits after exactly `Work`
   * of its own steps, and until then one of them is always possible.
   */
  lemma {:induction false} DrainEnds(s: State, steps: seq<Step>)
    requires s.closing && Schedule(s, steps) && (s.writer.EXITED? ==> s.queue == [])
    ensures Work(Run(s, steps)) + WriterSteps(steps) == Work(s)
    ensures Work(Run(s, steps)) == 0 <==> Run(s, steps).writer.EXITED?
    ensures !Run(s, steps).writer.EXITED? ==> exists step :: IsWriterStep(step) && CanStep(Run(s, steps), step)
    decreases |steps|
  {
    if steps == [] {
      assert IsWriterStep(WriterTakes) && IsWriterStep(WriterFinishes(true)) && IsWriterStep(WriterCounts)
          && IsWriterStep(WriterReports(false)) && IsWriterStep(WriterLeaves);
    } else {
      DrainStep(s, steps[0]);
      hide Work;
      hide CanStep;
      hide Next;
      DrainEnds(Next(s, steps[0]), steps[1..]);
    }
  }

  lemma DrainStep(s: State, step: Step)
    requires s.closing && CanStep(s, step) && (s.writer.EXITED? ==> s.queue == [])
    ensures Next(s, step).closing
    ensures Next(s, step).writer.EXITED? ==> Next(s, step).queue == []
    ensures Work(Next(s, step)) + (if IsWriterStep(step) then 1 else 0) == Work(s)
  {
  }
}
