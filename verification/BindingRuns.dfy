/** How far the binding's table and the normalizer's stay in step, over every run of host events. */
module BindingRuns {
  import opened Basics
  import opened Schema
  import opened ScopedIds
  import opened ObservationPath
  import opened Binding
  import N = Normalization
  import A = NormalizerAcceptance
  import I = NormalizerInvariant
  import S = NormalizerSources

  /** The names under which the normalizer would know the binding's jobs. */
  function Image(uuid: ProcessUuid, pending: map<uint64, Entry>): set<TransferIdentity> {
    set j | j in pending :: TransferFor(uuid, j)
  }

  /** Transfers the normalizer still holds although the binding has let them go. */
  function Surplus(b: Bound): set<TransferIdentity> {
    b.path.norm.pending.Keys - Image(b.uuid, b.pending)
  }

  /** The binding's entry for a job and the normalizer's agree. */
  predicate Matched(uuid: ProcessUuid, j: uint64, e: Entry, norm: N.State) {
    && e.transfer == TransferFor(uuid, j)
    && (!norm.closed ==>
          && e.transfer in norm.pending
          && norm.pending[e.transfer].identity == e.identity
          && norm.pending[e.transfer].operation == e.operation)
  }

  /** The binding's table is included in the normalizer's. */
  predicate Included(b: Bound) {
    forall j :: j in b.pending ==> Matched(b.uuid, j, b.pending[j], b.path.norm)
  }

  predicate Inv(b: Bound) { I.Inv(b.path.norm) && Included(b) }

  // ----- what one source does to the normalizer's table -----

  predicate Overflows(norm: N.State, src: N.Source) { A.Live(norm) && I.CompletionOverflow(norm, src) }

  lemma SubmissionEffect(norm: N.State, src: N.Source)
    requires I.Inv(norm) && src.Valid() && src.CoreTransferSubmitted?
    ensures var (norm', out) := N.Step(norm, src);
      && I.Inv(norm') && norm'.closed == norm.closed
      && (out.Some? ==> !norm.closed && src.transfer !in norm.pending)
      && norm'.pending ==
           if out.None? then norm.pending
           else norm.pending[src.transfer := N.Pending(src.identity, src.operation, src.blockCount, src.observedAtNs)]
  {
    hide KVTransferObservation.Valid;
    hide I.Inv;
    I.StepKeepsInv(norm, src);
    if A.Live(norm) {
      I.StartedRecordValid(src.transfer, N.Pending(src.identity, src.operation, src.blockCount, src.observedAtNs));
    }
  }

  lemma CompletedEffect(norm: N.State, src: N.Source)
    requires src.CoreTransferCompleted? && N.HandleCompleted(norm, src).1.Emitted?
    ensures src.transfer in norm.pending && N.HandleCompleted(norm, src).0.pending == norm.pending - {src.transfer}
  {
    hide N.Construct;
  }

  lemma TerminalEffect(norm: N.State, src: N.Source)
    requires I.Inv(norm) && src.Valid() && (src.CoreTransferCompleted? || src.CoreTransferCancelled?)
    ensures var (norm', out) := N.Step(norm, src);
      && I.Inv(norm') && norm'.closed == norm.closed
      && norm'.pending == if out.Some? || Overflows(norm, src) then norm.pending - {src.transfer} else norm.pending
  {
    I.StepKeepsInv(norm, src);
    if A.Live(norm) {
      if N.Step(norm, src).1.None? {
        I.RefusedSourceFrame(norm, src);
      } else if src.CoreTransferCompleted? {
        CompletedEffect(norm, src);
      }
    }
    hide N.HandleCompleted;
    hide I.Inv;
  }

  // ----- names are injective -----

  lemma NamesDiffer(uuid: ProcessUuid, j: uint64, k: uint64)
    requires TransferFor(uuid, j) == TransferFor(uuid, k)
    ensures j == k
  {
    assert IsUint64(j) && IsUint64(k);
    PrintInjective(uuid, 't', j, uuid, 't', k);
  }

  lemma {:induction false} ImageSize(uuid: ProcessUuid, pending: map<uint64, Entry>)
    ensures |Image(uuid, pending)| == |pending|
    decreases |pending|
  {
    if pending == map[] {
      assert Image(uuid, pending) == {};
    } else {
      var j :| j in pending;
      var rest := pending - {j};
      assert |rest| == |pending| - 1 by { assert rest.Keys == pending.Keys - {j}; }
      ImageSize(uuid, rest);
      ImageWithout(uuid, pending, j);
    }
  }

  lemma ImageWithout(uuid: ProcessUuid, pending: map<uint64, Entry>, j: uint64)
    requires j in pending
    ensures Image(uuid, pending - {j}) == Image(uuid, pending) - {TransferFor(uuid, j)}
    ensures TransferFor(uuid, j) in Image(uuid, pending)
  {
    hide TransferFor;
    forall k: uint64 | k in pending && TransferFor(uuid, k) == TransferFor(uuid, j) ensures k == j {
      NamesDiffer(uuid, k, j);
    }
  }

  lemma ImageWith(uuid: ProcessUuid, pending: map<uint64, Entry>, j: uint64, e: Entry)
    ensures Image(uuid, pending[j := e]) == Image(uuid, pending) + {TransferFor(uuid, j)}
  {
  }

  lemma ImageMember(uuid: ProcessUuid, pending: map<uint64, Entry>, j: uint64)
    requires TransferFor(uuid, j) in Image(uuid, pending)
    ensures j in pending
  {
    hide TransferFor;
    var k: uint64 :| k in pending && TransferFor(uuid, k) == TransferFor(uuid, j);
    NamesDiffer(uuid, j, k);
  }

  lemma ImageContained(b: Bound)
    requires Included(b) && !b.path.norm.closed
    ensures Image(b.uuid, b.pending) <= b.path.norm.pending.Keys
  {
    hide TransferFor;
    forall t | t in Image(b.uuid, b.pending) ensures t in b.path.norm.pending {
      var j: uint64 :| j in b.pending && t == TransferFor(b.uuid, j);
      assert Matched(b.uuid, j, b.pending[j], b.path.norm);
    }
  }

  lemma DifferenceSize<E>(small: set<E>, large: set<E>)
    requires small <= large
    ensures |large - small| == |large| - |small|
  {
    assert (large - small) + small == large;
  }

  /** The binding's jobs map injectively into the normalizer's transfers; the rest is the surplus. */
  lemma IncludedImage(b: Bound)
    requires Included(b) && !b.path.norm.closed
    ensures Image(b.uuid, b.pending) <= b.path.norm.pending.Keys
    ensures |Surplus(b)| == |b.path.norm.pending| - |b.pending|
  {
    hide Included;
    hide Image;
    ImageContained(b);
    ImageSize(b.uuid, b.pending);
    DifferenceSize(Image(b.uuid, b.pending), b.path.norm.pending.Keys);
  }

  // ----- one host event -----

  /** The adapter hands the record to the normalizer. */
  predicate Reaches(p: Path) { p.active && p.ready }

  lemma PathEffect(p: Path, src: N.Source, answer: SinkAnswer)
    ensures var (q, accepted) := Observe(p, src, answer);
      && q.norm == (if Reaches(p) then N.Step(p.norm, src).0 else p.norm)
      && (accepted <==> Reaches(p) && N.Step(p.norm, src).1.Some? && answer.ACCEPTED?)
      && q.active == p.active && q.ready == p.ready
  {
    hide N.Step;
  }

  /** The normalizer takes a submission that the sink then does not take. */
  predicate LosesSubmission(b: Bound, r: HostRecord, answer: SinkAnswer) {
    var src := Forwarded(b, r);
    src.Some? && Reaches(b.path) && N.Step(b.path.norm, src.value).1.Some? && !answer.ACCEPTED?
  }

  /** The binding drops its entry for a terminal record that does not remove the normalizer's. */
  predicate LosesTerminal(b: Bound, r: HostRecord) {
    var src := Terminated(b, r);
    src.Some? && !(Reaches(b.path) && (N.Step(b.path.norm, src.value).1.Some? || Overflows(b.path.norm, src.value)))
  }

  predicate Strands(b: Bound, r: HostRecord, answer: SinkAnswer) {
    LosesSubmission(b, r, answer) || LosesTerminal(b, r)
  }

  /** The name that a host event may strand. */
  function Stranded(b: Bound, r: HostRecord, answer: SinkAnswer): set<TransferIdentity> {
    if Strands(b, r, answer) then {TransferFor(b.uuid, r.jobId.n)} else {}
  }

  /** The event keeps the two tables in step, except for the one name it strands. */
  ghost predicate KeepsStep(b: Bound, b': Bound, stranded: set<TransferIdentity>) {
    && Inv(b')
    && b'.path.norm.closed == b.path.norm.closed
    && b'.uuid == b.uuid
    && (!b.path.norm.closed ==> Surplus(b') == Surplus(b) + stranded && stranded !! Surplus(b))
  }

  lemma EntriesSurvive(b: Bound, norm: N.State, gone: set<TransferIdentity>, pending: map<uint64, Entry>)
    requires Included(b)
    requires norm.closed == b.path.norm.closed
    requires forall t :: t in b.path.norm.pending && t !in gone ==>
        t in norm.pending && norm.pending[t] == b.path.norm.pending[t]
    requires forall j :: j in pending ==>
        j in b.pending && pending[j] == b.pending[j] && TransferFor(b.uuid, j) !in gone
    ensures forall j :: j in pending ==> Matched(b.uuid, j, pending[j], norm)
  {
    hide TransferFor;
    forall j: uint64 | j in pending ensures Matched(b.uuid, j, pending[j], norm) {
      assert Matched(b.uuid, j, b.pending[j], b.path.norm);
    }
  }

  lemma FreshName(b: Bound, j: uint64)
    requires j !in b.pending
    ensures TransferFor(b.uuid, j) !in Image(b.uuid, b.pending)
  {
    if TransferFor(b.uuid, j) in Image(b.uuid, b.pending) { ImageMember(b.uuid, b.pending, j); }
  }

  /** The parts of the state that the tables do not show. */
  predicate Framed(b: Bound, b': Bound) {
    Inv(b) && I.Inv(b'.path.norm) && b'.path.norm.closed == b.path.norm.closed && b'.uuid == b.uuid
  }

  lemma NeitherMoves(b: Bound, b': Bound)
    requires Framed(b, b') && b'.path.norm.pending == b.path.norm.pending && b'.pending == b.pending
    ensures KeepsStep(b, b', {})
  {
    hide I.Inv;
    EntriesSurvive(b, b'.path.norm, {}, b.pending);
  }

  lemma BothAdd(b: Bound, b': Bound, j: uint64, e: Entry, p: N.Pending)
    requires Framed(b, b') && j !in b.pending && e.transfer == TransferFor(b.uuid, j) &&
        e.transfer !in b.path.norm.pending
    requires b'.path.norm.pending == b.path.norm.pending[e.transfer := p] && b'.pending == b.pending[j := e]
    requires p.identity == e.identity && p.operation == e.operation
    ensures KeepsStep(b, b', {})
  {
    hide I.Inv;
    hide TransferFor;
    EntriesSurvive(b, b'.path.norm, {}, b.pending);
    ImageWith(b.uuid, b.pending, j, e);
    assert Matched(b.uuid, j, e, b'.path.norm);
  }

  lemma OnlyNormalizerAdds(b: Bound, b': Bound, j: uint64, p: N.Pending)
    requires Framed(b, b') && j !in b.pending && TransferFor(b.uuid, j) !in b.path.norm.pending
    requires b'.path.norm.pending == b.path.norm.pending[TransferFor(b.uuid, j) := p] && b'.pending == b.pending
    ensures KeepsStep(b, b', {TransferFor(b.uuid, j)})
  {
    hide I.Inv;
    hide TransferFor;
    EntriesSurvive(b, b'.path.norm, {}, b.pending);
    FreshName(b, j);
  }

  lemma BothRemove(b: Bound, b': Bound, j: uint64)
    requires Framed(b, b') && j in b.pending
    requires b'.path.norm.pending == b.path.norm.pending - {TransferFor(b.uuid, j)} && b'.pending == b.pending - {j}
    ensures KeepsStep(b, b', {})
  {
    hide I.Inv;
    hide TransferFor;
    var t := TransferFor(b.uuid, j);
    ImageWithout(b.uuid, b.pending, j);
    forall k: uint64 | k in b'.pending ensures TransferFor(b.uuid, k) != t {
      if TransferFor(b.uuid, k) == t { NamesDiffer(b.uuid, k, j); }
    }
    EntriesSurvive(b, b'.path.norm, {t}, b'.pending);
  }

  lemma OnlyBindingRemoves(b: Bound, b': Bound, j: uint64)
    requires Framed(b, b') && j in b.pending
    requires b'.path.norm.pending == b.path.norm.pending && b'.pending == b.pending - {j}
    ensures KeepsStep(b, b', {TransferFor(b.uuid, j)})
  {
    hide I.Inv;
    hide TransferFor;
    ImageWithout(b.uuid, b.pending, j);
    EntriesSurvive(b, b'.path.norm, {}, b'.pending);
    assert Matched(b.uuid, j, b.pending[j], b.path.norm);
  }

  lemma SubmissionKeeps(b: Bound, r: HostRecord, answer: SinkAnswer)
    requires Inv(b) && Forwarded(b, r).Some?
    ensures KeepsStep(b, ObserveHost(b, r, answer).0, Stranded(b, r, answer))
  {
    hide I.Inv;
    hide N.Step;
    hide TransferFor;
    hide Observe;
    hide KeepsStep;
    hide Included;
    hide SubmissionOf;
    var src, j := Forwarded(b, r).value, r.jobId.n;
    var b' := ObserveHost(b, r, answer).0;
    var p := N.Pending(src.identity, src.operation, src.blockCount, src.observedAtNs);
    PathEffect(b.path, src, answer);
    SubmissionEffect(b.path.norm, src);
    assert Terminated(b, r).None?;
    if Reaches(b.path) && N.Step(b.path.norm, src).1.Some? {
      if answer.ACCEPTED? {
        BothAdd(b, b', j, Entry(src.identity, src.transfer, src.operation), p);
      } else {
        OnlyNormalizerAdds(b, b', j, p);
      }
    } else {
      NeitherMoves(b, b');
    }
  }

  lemma TerminalKeeps(b: Bound, r: HostRecord, answer: SinkAnswer)
    requires Inv(b) && Terminated(b, r).Some?
    ensures KeepsStep(b, ObserveHost(b, r, answer).0, Stranded(b, r, answer))
  {
    hide I.Inv;
    hide N.Step;
    hide TransferFor;
    hide Observe;
    hide KeepsStep;
    hide Overflows;
    hide TerminalOf;
    var src, j := Terminated(b, r).value, r.jobId.n;
    var b' := ObserveHost(b, r, answer).0;
    PathEffect(b.path, src, answer);
    TerminalEffect(b.path.norm, src);
    assert Forwarded(b, r).None?;
    assert Matched(b.uuid, j, b.pending[j], b.path.norm);
    if LosesTerminal(b, r) {
      OnlyBindingRemoves(b, b', j);
    } else {
      BothRemove(b, b', j);
    }
  }

  /**
   * The two tables move together. Each host event adds to the surplus exactly the name it
   * strands: a submission that the normalizer took and the sink did not, or a terminal
   * record that did not remove the normalizer's entry.
   */
  lemma SurplusGrowsExactly(b: Bound, r: HostRecord, answer: SinkAnswer)
    requires Inv(b)
    ensures var b' := ObserveHost(b, r, answer).0;
      && KeepsStep(b, b', Stranded(b, r, answer))
      && (!b.path.norm.closed ==>
            |b'.path.norm.pending| - |b'.pending| ==
              |b.path.norm.pending| - |b.pending| + (if Strands(b, r, answer) then 1 else 0))
  {
    hide KeepsStep;
    hide Strands;
    hide Observe;
    if Forwarded(b, r).Some? {
      SubmissionKeeps(b, r, answer);
    } else if Terminated(b, r).Some? {
      TerminalKeeps(b, r, answer);
    } else {
      NothingHappens(b, r, answer);
    }
    if !b.path.norm.closed { CountSurplus(b, ObserveHost(b, r, answer).0, Stranded(b, r, answer)); }
  }

  lemma NothingHappens(b: Bound, r: HostRecord, answer: SinkAnswer)
    requires Inv(b) && Forwarded(b, r).None? && Terminated(b, r).None?
    ensures ObserveHost(b, r, answer).0 == b && Stranded(b, r, answer) == {} && KeepsStep(b, b, {})
  {
    hide I.Inv;
    hide Included;
  }

  lemma CountSurplus(b: Bound, b': Bound, stranded: set<TransferIdentity>)
    requires Inv(b) && KeepsStep(b, b', stranded) && !b.path.norm.closed
    ensures |b'.path.norm.pending| - |b'.pending| == |b.path.norm.pending| - |b.pending| + |stranded|
  {
    IncludedImage(b);
    IncludedImage(b');
    hide I.Inv;
    hide Included;
    hide Surplus;
  }

  // ----- which terminal records strand a name -----

  /** What the normalizer finds wrong with the terminal record of a transfer it holds as `p`. */
  predicate Untimely(p: N.Pending, src: N.Source)
    requires src.CoreTransferCompleted? || src.CoreTransferCancelled?
  {
    || src.observedAtNs < p.observedAtNs
    || (src.CoreTransferCompleted? &&
          if src.success then src.observedAtNs == p.observedAtNs || src.bytesMoved.None?
          else src.bytesMoved.Some? || (p.operation.D2H_PRESERVE? && src.observedAtNs == p.observedAtNs))
  }

  lemma SameProcess(uuid: ProcessUuid, j: uint64)
    ensures ReceiptFor(uuid, j).ProcessUuid() == TransferFor(uuid, j).ProcessUuid()
  {
    assert IsUint64(j);
    PrintRoundTrips(uuid, 't', j);
    PrintRoundTrips(uuid, 'k', j);
  }

  /** A completion that brings a receipt of its own process exactly when it ends a restore well. */
  predicate ReceiptAttached(p: N.Pending, src: N.Source)
    requires src.CoreTransferCompleted?
  {
    && (p.operation.H2D_RESTORE? && src.success <==> src.receipt.Some?)
    && (src.receipt.Some? ==> src.receipt.value.ProcessUuid() == src.transfer.ProcessUuid())
  }

  /** Such a terminal record is timely exactly when the normalizer accepts it or finds its receipts full. */
  lemma Settles(norm: N.State, src: N.Source)
    requires (src.CoreTransferCompleted? || src.CoreTransferCancelled?) && src.transfer in norm.pending
    requires src.CoreTransferCompleted? ==> ReceiptAttached(norm.pending[src.transfer], src)
    ensures S.Accepts(norm, src) || I.CompletionOverflow(norm, src) <==> !Untimely(norm.pending[src.transfer], src)
  {
    hide TransferIdentity.ProcessUuid;
    hide ReceiptIdentity.ProcessUuid;
  }

  lemma TerminalShape(b: Bound, r: HostRecord)
    requires Terminated(b, r).Some? && b.pending[r.jobId.n].transfer == TransferFor(b.uuid, r.jobId.n)
    ensures var src := Terminated(b, r).value; src.CoreTransferCompleted? ==>
      (b.pending[r.jobId.n].operation.H2D_RESTORE? && src.success <==> src.receipt.Some?)
      && (src.receipt.Some? ==> src.receipt.value.ProcessUuid() == src.transfer.ProcessUuid())
  {
    SameProcess(b.uuid, r.jobId.n);
    hide ReceiptFor;
    hide TransferFor;
    hide TransferIdentity.ProcessUuid;
    hide ReceiptIdentity.ProcessUuid;
  }

  /**
   * A terminal record that the binding forwards strands its name exactly when the adapter
   * is not active, evidence is disabled, or the record is untimely for the transfer: it
   * is earlier than the start, measures nothing where bytes are due (or bytes where none
   * are), or ends a measured transfer at the instant it started.
   */
  lemma StrandsExactlyWhen(b: Bound, r: HostRecord)
    requires Inv(b) && !b.path.norm.closed && Terminated(b, r).Some?
    ensures var src := Terminated(b, r).value;
      && src.transfer in b.path.norm.pending
      && (LosesTerminal(b, r) <==>
            !Reaches(b.path) || !b.path.norm.evidenceValid || Untimely(b.path.norm.pending[src.transfer], src))
  {
    var src, norm := Terminated(b, r).value, b.path.norm;
    assert Matched(b.uuid, r.jobId.n, b.pending[r.jobId.n], norm);
    TerminalShape(b, r);
    hide Terminated;
    hide TransferFor;
    hide TransferIdentity.ProcessUuid;
    hide ReceiptIdentity.ProcessUuid;
    hide N.Step;
    hide S.Accepts;
    hide I.Inv;
    S.AcceptedExactly(norm, src);
    Settles(norm, src);
    hide Untimely;
  }

  /** What a submission needs in order to be taken: valid evidence, a new name, and room for it. */
  predicate Takes(norm: N.State, t: TransferIdentity) {
    A.Live(norm) && t !in norm.pending && t !in norm.completed && |norm.pending| < norm.config.maxTransfers
  }

  lemma SubmissionTaken(norm: N.State, src: N.Source)
    requires src.Valid() && src.CoreTransferSubmitted?
    ensures N.Step(norm, src).1.Some? <==> Takes(norm, src.transfer)
  {
    I.StartedRecordValid(src.transfer, N.Pending(src.identity, src.operation, src.blockCount, src.observedAtNs));
    hide KVTransferObservation.Valid;
  }

  /**
   * A forwarded submission strands its name exactly when an active adapter's normalizer takes it
   * and the sink does not.
   */
  lemma SubmissionStrandsExactlyWhen(b: Bound, r: HostRecord, answer: SinkAnswer)
    requires Forwarded(b, r).Some?
    ensures LosesSubmission(b, r, answer) <==>
      Reaches(b.path) && Takes(b.path.norm, Forwarded(b, r).value.transfer) && !answer.ACCEPTED?
  {
    hide N.Step;
    hide SubmissionOf;
    SubmissionTaken(b.path.norm, Forwarded(b, r).value);
  }

  // ----- runs -----

  datatype Event =
    | Host(record: HostRecord, answer: SinkAnswer)
    | Register
    | Activate
    | Deactivate
    | Unregister
    | CloseNormalizer

  function Next(b: Bound, e: Event): Bound {
    match e
    case Host(r, answer) => ObserveHost(b, r, answer).0
    case Register => b.(registered := true)
    case Activate => b.(path := b.path.(active := true))
    case Deactivate => b.(path := b.path.(active := false))
    case Unregister => b.(registered := false, pending := map[])
    case CloseNormalizer => b.(path := b.path.(norm := N.CloseState(b.path.norm)))
  }

  function Run(b: Bound, events: seq<Event>): Bound {
    if events == [] then b else Next(Run(b, events[..|events| - 1]), events[|events| - 1])
  }

  function Fresh(uuid: ProcessUuid, config: N.Config): Bound {
    Bound(uuid, false, map[], Path(false, true, N.Initial(config), Counters(0, 0, 0, 0, 0, 0)))
  }

  lemma NextKeeps(b: Bound, e: Event)
    requires Inv(b)
    ensures Inv(Next(b, e)) && Next(b, e).uuid == b.uuid
    ensures !Next(b, e).path.norm.closed ==> !b.path.norm.closed && Surplus(b) <= Surplus(Next(b, e))
  {
    hide ObserveHost;
    hide TransferFor;
    match e
    case Host(r, answer) =>
      SurplusGrowsExactly(b, r, answer);
    case Unregister =>
      assert Image(b.uuid, map[]) == {};
    case CloseNormalizer =>
      ClosingKeeps(b);
    case _ =>
      assert Surplus(Next(b, e)) == Surplus(b);
  }

  lemma ClosedInv(norm: N.State)
    requires I.Inv(norm)
    ensures I.Inv(N.CloseState(norm))
  {
  }

  lemma ClosingKeeps(b: Bound)
    requires Inv(b)
    ensures Inv(Next(b, CloseNormalizer))
  {
    ClosedInv(b.path.norm);
    hide I.Inv;
    hide TransferFor;
    var b' := Next(b, CloseNormalizer);
    forall j: uint64 | j in b'.pending ensures Matched(b.uuid, j, b'.pending[j], b'.path.norm) {
      assert Matched(b.uuid, j, b.pending[j], b.path.norm);
    }
  }

  /**
   * Over every run of host events and lifecycle steps, until the normalizer closes: the
   * binding's jobs map injectively into the normalizer's transfers with equal identity and
   * operation, and the surplus never loses a name.
   */
  lemma {:induction false} TablesStayInStep(b: Bound, events: seq<Event>, k: nat)
    requires Inv(b) && k <= |events|
    ensures Inv(Run(b, events)) && Run(b, events).uuid == b.uuid
    ensures !Run(b, events).path.norm.closed ==>
      !Run(b, events[..k]).path.norm.closed && Surplus(Run(b, events[..k])) <= Surplus(Run(b, events))
  {
    hide Inv;
    hide Next;
    hide Surplus;
    if k == |events| {
      assert events[..k] == events;
      if events != [] {
        var n := |events| - 1;
        TablesStayInStep(b, events[..n], n);
        NextKeeps(Run(b, events[..n]), events[n]);
      }
    } else {
      var n := |events| - 1;
      TablesStayInStep(b, events[..n], k);
      assert events[..n][..k] == events[..k];
      NextKeeps(Run(b, events[..n]), events[n]);
    }
  }

  /** The binding's table never outgrows the normalizer's: its own bound is never what refuses a submission alone. */
  lemma TableBound(config: N.Config, uuid: ProcessUuid, events: seq<Event>)
    requires config.Valid() && !Run(Fresh(uuid, config), events).path.norm.closed
    ensures var b := Run(Fresh(uuid, config), events);
      && |b.pending| <= |b.path.norm.pending| <= b.path.norm.config.maxTransfers <= MAX_BINDING_TRANSFERS
      && (|b.pending| >= MAX_BINDING_TRANSFERS ==> |b.path.norm.pending| >= b.path.norm.config.maxTransfers)
  {
    TablesStayInStep(Fresh(uuid, config), events, 0);
    IncludedImage(Run(Fresh(uuid, config), events));
    hide Run;
  }

  lemma SubmissionRefused(norm: N.State, src: N.Source)
    requires src.CoreTransferSubmitted? && src.transfer in norm.pending
    ensures N.Step(norm, src).1.None?
  {
  }

  lemma SurplusHeld(b: Bound, j: uint64)
    requires TransferFor(b.uuid, j) in Surplus(b)
    ensures TransferFor(b.uuid, j) in b.path.norm.pending
  {
  }

  lemma NotPending(b: Bound, j: uint64)
    requires TransferFor(b.uuid, j) in Surplus(b)
    ensures j !in b.pending
  {
  }

  lemma SurplusRefused(b: Bound, r: HostRecord, answer: SinkAnswer)
    requires r.jobId.Int? && IsUint64(r.jobId.n) && TransferFor(b.uuid, r.jobId.n) in Surplus(b)
    ensures !ObserveHost(b, r, answer).1
  {
    hide TransferFor;
    hide Observe;
    hide Surplus;
    NotPending(b, r.jobId.n);
    SurplusHeld(b, r.jobId.n);
    if Forwarded(b, r).Some? {
      PathEffect(b.path, Forwarded(b, r).value, answer);
      SubmissionRefused(b.path.norm, Forwarded(b, r).value);
    }
  }

  lemma ClosedRefused(b: Bound, r: HostRecord, answer: SinkAnswer)
    requires b.path.norm.closed
    ensures !ObserveHost(b, r, answer).1
  {
    hide TransferFor;
    hide Observe;
    if Forwarded(b, r).Some? { PathEffect(b.path, Forwarded(b, r).value, answer); }
    if Terminated(b, r).Some? { PathEffect(b.path, Terminated(b, r).value, answer); }
  }

  /** A stranded job is lost for good: after any further run, whatever the host says of it, nothing is accepted. */
  lemma StrandedJobRefused(b: Bound, events: seq<Event>, r: HostRecord, answer: SinkAnswer)
    requires Inv(b) && r.jobId.Int? && IsUint64(r.jobId.n) && TransferFor(b.uuid, r.jobId.n) in Surplus(b)
    ensures !ObserveHost(Run(b, events), r, answer).1
  {
    hide TransferFor;
    hide Surplus;
    hide ObserveHost;
    hide Inv;
    TablesStayInStep(b, events, 0);
    assert Run(b, events[..0]) == b;
    if Run(b, events).path.norm.closed {
      ClosedRefused(Run(b, events), r, answer);
    } else {
      SurplusRefused(Run(b, events), r, answer);
    }
  }

  // ----- stranding happens -----

  /** The host submits a preserve of one block as job 0. */
  const SUBMISSION := HostRecord(Text("transfer_submitted"), Int(0), Text("r"), Int(0), Text("d2h_preserve"), Int(1),
                                 Int(0),
                                 Missing, Missing, Missing, Missing)

  /** The host completes job 0 without a measurement. */
  const UNMEASURED := HostRecord(Text("transfer_completed"), Int(0), Text("r"), Int(0), Text("d2h_preserve"), Missing,
                                 Int(1),
                                 Bool(true), Null, Null, Missing)

  function Ready(uuid: ProcessUuid, config: N.Config): Bound {
    Run(Fresh(uuid, config), [Register, Activate])
  }

  lemma ReadyIs(uuid: ProcessUuid, config: N.Config)
    ensures Ready(uuid, config) ==
      Bound(uuid, true, map[], Path(true, true, N.Initial(config), Counters(0, 0, 0, 0, 0, 0)))
  {
    var two := [Register, Activate];
    assert two[..1] == [Register] && two[..1][..0] == [];
    assert Run(Fresh(uuid, config), two[..1]) == Next(Fresh(uuid, config), Register);
  }

  lemma ReadyInv(uuid: ProcessUuid, config: N.Config)
    requires config.Valid()
    ensures Inv(Ready(uuid, config)) && Surplus(Ready(uuid, config)) == {}
  {
    ReadyIs(uuid, config);
  }

  function SubmittedEntry(uuid: ProcessUuid): Entry {
    Entry(ObservationIdentity("r", WorkerGeneration(uuid), 0, None), TransferFor(uuid, 0), N.D2H_PRESERVE)
  }

  lemma SubmissionForwards(b: Bound)
    requires b.registered && b.pending == map[]
    ensures var e := SubmittedEntry(b.uuid);
      Forwarded(b, SUBMISSION) == Some(N.CoreTransferSubmitted(e.identity, e.transfer, e.operation, 1, 0))
    ensures Terminated(b, SUBMISSION).None?
  {
    hide TransferFor;
    hide WorkerGeneration;
  }

  lemma CompletionForwards(b: Bound)
    requires b.registered && b.pending == map[0 := SubmittedEntry(b.uuid)]
    ensures Terminated(b, UNMEASURED) ==
      Some(N.CoreTransferCompleted(SubmittedEntry(b.uuid).transfer, 1, true, None, None, None))
    ensures Forwarded(b, UNMEASURED).None?
  {
    hide TransferFor;
    hide WorkerGeneration;
    var r := UNMEASURED;
    assert Operation(r) == Some(N.D2H_PRESERVE);
  }

  /** What the first submission leaves, by the answer of the sink. */
  lemma FirstSubmission(uuid: ProcessUuid, config: N.Config, answer: SinkAnswer)
    requires config.Valid()
    ensures var b := ObserveHost(Ready(uuid, config), SUBMISSION, answer).0;
      && Inv(b) && b.uuid == uuid && b.registered && !b.path.norm.closed
      && Surplus(b) == (if answer.ACCEPTED? then {} else {TransferFor(uuid, 0)})
      && b.pending == if answer.ACCEPTED? then map[0 := SubmittedEntry(uuid)] else map[]
  {
    ReadyIs(uuid, config);
    ReadyInv(uuid, config);
    var b := Ready(uuid, config);
    hide TransferFor;
    hide Surplus;
    hide Observe;
    hide Inv;
    hide Ready;
    hide Forwarded;
    hide Terminated;
    hide N.Step;
    hide Takes;
    SubmissionForwards(b);
    FirstIsTaken(uuid, config);
    SubmissionTaken(b.path.norm, Forwarded(b, SUBMISSION).value);
    SurplusGrowsExactly(b, SUBMISSION, answer);
    PathEffect(b.path, Forwarded(b, SUBMISSION).value, answer);
  }

  lemma FirstIsTaken(uuid: ProcessUuid, config: N.Config)
    requires config.Valid()
    ensures Takes(N.Initial(config), TransferFor(uuid, 0))
  {
  }

  /** A submission that the sink does not take strands its name. */
  lemma DroppedSubmissionStrands(uuid: ProcessUuid, config: N.Config)
    requires config.Valid()
    ensures var b := ObserveHost(Ready(uuid, config), SUBMISSION, REFUSED).0;
      b.pending == map[] && Surplus(b) == {TransferFor(uuid, 0)}
  {
    hide ObserveHost;
    FirstSubmission(uuid, config, REFUSED);
  }

  /** So does a completion that the normalizer refuses, after a submission that everyone accepted. */
  lemma RefusedCompletionStrands(uuid: ProcessUuid, config: N.Config)
    requires config.Valid()
    ensures var submitted := ObserveHost(Ready(uuid, config), SUBMISSION, ACCEPTED).0;
      var b := ObserveHost(submitted, UNMEASURED, ACCEPTED).0;
      && submitted.pending.Keys == {0} && Surplus(submitted) == {}
      && b.pending == map[] && Surplus(b) == {TransferFor(uuid, 0)}
  {
    hide TransferFor;
    hide Surplus;
    hide Observe;
    hide Inv;
    hide Ready;
    hide Forwarded;
    hide Terminated;
    hide LosesSubmission;
    hide LosesTerminal;
    FirstSubmission(uuid, config, ACCEPTED);
    var submitted := ObserveHost(Ready(uuid, config), SUBMISSION, ACCEPTED).0;
    CompletionForwards(submitted);
    StrandsExactlyWhen(submitted, UNMEASURED);
    SurplusGrowsExactly(submitted, UNMEASURED, ACCEPTED);
  }

  // ----- counters -----

  /** The adapter's counters and the normalizer's account for the same calls. */
  predicate CountersAgree(p: Path) {
    var c, n := p.counters, p.norm.counters;
    && c.received == c.emitted + c.normalizationDropped + c.sinkDropped + c.callbackErrors
    && (p.ready ==> n.Total() == c.received && n.accepted == c.emitted + c.sinkDropped + c.callbackErrors)
  }

  lemma ObserveCounts(p: Path, src: N.Source, answer: SinkAnswer)
    requires CountersAgree(p)
    ensures CountersAgree(Observe(p, src, answer).0)
  {
    StepTotal(p.norm, src);
    hide N.Step;
  }

  lemma StepTotal(norm: N.State, src: N.Source)
    ensures var (norm', out) := N.Step(norm, src);
      && norm'.counters.Total() == norm.counters.Total() + 1
      && norm'.counters.accepted == norm.counters.accepted + (if out.Some? then 1 else 0)
  {
    if A.Live(norm) { HandleTotal(norm, src); }
    hide N.Handle;
  }

  ghost predicate CountsDrop(norm: N.State, r: (N.State, N.Attempt)) {
    r.0.counters == if r.1.Dropped? then norm.counters.(capacityDropped := norm.counters.capacityDropped + 1)
                    else norm.counters
  }

  lemma CompletedTotal(norm: N.State, src: N.Source)
    requires src.CoreTransferCompleted?
    ensures CountsDrop(norm, N.HandleCompleted(norm, src))
  {
    hide KVTransferObservation.Valid;
  }

  lemma AdmittedTotal(norm: N.State, src: N.Source)
    requires src.CoreRecoveryAdmitted?
    ensures CountsDrop(norm, N.HandleAdmitted(norm, src))
  {
    hide N.Restored;
    hide KVTransferObservation.Valid;
  }

  lemma ComputeTotal(norm: N.State, src: N.Source)
    requires src.FirstComputeObserved?
    ensures CountsDrop(norm, N.HandleFirstCompute(norm, src))
  {
    hide N.ComputeMismatch;
    hide KVTransferObservation.Valid;
  }

  lemma HandleTotal(norm: N.State, src: N.Source)
    ensures CountsDrop(norm, N.Handle(norm, src))
  {
    hide N.HandleCompleted;
    hide N.HandleAdmitted;
    hide N.HandleFirstCompute;
    hide KVTransferObservation.Valid;
    match src
    case CoreTransferCompleted(_, _, _, _, _, _) => CompletedTotal(norm, src);
    case CoreRecoveryAdmitted(_, _, _) => AdmittedTotal(norm, src);
    case FirstComputeObserved(_, _, _, _, _, _) => ComputeTotal(norm, src);
    case _ =>
  }

  /** In every run, each observation received is counted once by the adapter and once by the normalizer. */
  lemma {:induction false} ObservationsBalance(b: Bound, events: seq<Event>)
    requires CountersAgree(b.path)
    ensures CountersAgree(Run(b, events).path)
  {
    hide CountersAgree;
    hide Observe;
    hide Forwarded;
    hide Terminated;
    if events != [] {
      var n := |events| - 1;
      ObservationsBalance(b, events[..n]);
      var m, e := Run(b, events[..n]), events[n];
      if e.Host? {
        if Forwarded(m, e.record).Some? {
          ObserveCounts(m.path, Forwarded(m, e.record).value, e.answer);
        } else if Terminated(m, e.record).Some? {
          ObserveCounts(m.path, Terminated(m, e.record).value, e.answer);
        }
      } else {
        OthersCount(m, e);
      }
    }
  }

  lemma OthersCount(b: Bound, e: Event)
    requires CountersAgree(b.path) && !e.Host?
    ensures CountersAgree(Next(b, e).path)
  {
  }
}
