/**
 * Above the capacity of the validator's normalizer, interleaving decides: two lists that
 * give every identity the same complete episode, of which only one is accepted.
 */
module ChainCapacity {
  import opened Basics
  import opened Schema
  import opened ScopedIds
  import opened NormalizerReplay
  import opened RestoreChain
  import opened EpisodeShape
  import opened ChainState
  import opened ChainTables
  import opened ChainTheorem
  import opened ChainResults

  const REQUEST: RequestId := "r"

  function Process(): (s: string)
    ensures IsProcessUuid(s)
  {
    seq(32, _ => '0')
  }

  // ----- the i-th episode: one restore -----

  function Id(i: uint32): ObservationIdentity {
    assert IsUint32(i);
    ObservationIdentity(REQUEST, 0, 0, Some(i + 1))
  }

  function T(i: uint32): TransferIdentity {
    assert IsUint32(i);
    PrintRoundTrips(Process(), 't', i);
    TransferIdentity(Print(Process(), 't', i))
  }

  /** The receipts of an episode: one of its restore, one of its first compute. */
  function K(i: uint32, compute: bool): ReceiptIdentity {
    assert IsUint32(i);
    var n: nat := if compute then 2 * i + 1 else 2 * i;
    PrintRoundTrips(Process(), 'k', n);
    ReceiptIdentity(Print(Process(), 'k', n))
  }

  lemma NamesDiffer(i: uint32, j: uint32)
    ensures T(i) == T(j) ==> i == j
    ensures forall a, b :: K(i, a) == K(j, b) ==> i == j && a == b
  {
    assert IsUint32(i) && IsUint32(j);
    if T(i) == T(j) { PrintInjective(Process(), 't', i, Process(), 't', j); }
    forall a, b | K(i, a) == K(j, b) ensures i == j && a == b {
      PrintInjective(Process(), 'k', if a then 2 * i + 1 else 2 * i, Process(), 'k', if b then 2 * j + 1 else 2 * j);
    }
  }

  lemma SameProcess(i: uint32, compute: bool)
    ensures K(i, compute).ProcessUuid() == T(i).ProcessUuid()
  {
    assert IsUint32(i);
    PrintRoundTrips(Process(), 't', i);
    PrintRoundTrips(Process(), 'k', if compute then 2 * i + 1 else 2 * i);
  }

  function Requeue(i: uint32): KVTransferObservation {
    Blank(RECOVERY_REQUEUED, Id(i), 0).(requeueReason := Some(TOKEN_BUDGET))
  }

  function Start(i: uint32): KVTransferObservation {
    Blank(RESTORE_STARTED, Id(i), 0).(transfer := Some(T(i)), direction := Some(H2D), blockCount := Some(1))
  }

  function Finish(i: uint32): KVTransferObservation {
    Blank(RESTORE_COMPLETED, Id(i), 1)
      .(transfer := Some(T(i)), direction := Some(H2D), receipt := Some(K(i, false)), bytesMoved := Some(1),
        blockCount := Some(1), durationNs := Some(1))
  }

  function Admit(i: uint32): KVTransferObservation {
    Blank(RECOVERY_ADMITTED, Id(i), 1).(associatedTransfers := [T(i)])
  }

  function Compute(i: uint32): KVTransferObservation {
    Blank(FIRST_COMPUTE, Id(i), 1)
      .(receipt := Some(K(i, true)), associatedTransfers := [T(i)], computeKind := Some(PREFILL))
  }

  function Opening(i: uint32): seq<KVTransferObservation> { [Requeue(i), Start(i)] }

  function Closing(i: uint32): seq<KVTransferObservation> { [Finish(i), Admit(i), Compute(i)] }

  function Whole(i: uint32): seq<KVTransferObservation> { Opening(i) + Closing(i) }

  /** The parts `part(0)` to `part(n - 1)`, one after the other. */
  function Parts(n: nat, part: uint32 -> seq<KVTransferObservation>): seq<KVTransferObservation>
    requires n <= UINT32_MAX
  {
    if n == 0 then [] else assert IsUint32(n - 1); Parts(n - 1, part) + part(n - 1)
  }

  /** Every episode is finished before the next one begins. */
  function OneByOne(n: nat): seq<KVTransferObservation>
    requires n <= UINT32_MAX
  {
    Parts(n, Whole)
  }

  /** Every transfer is started before the first one is finished. */
  function AllAtOnce(n: nat): seq<KVTransferObservation>
    requires n <= UINT32_MAX
  {
    Parts(n, Opening) + Parts(n, Closing)
  }

  // ----- the records are valid, and all of them count -----

  lemma RecordsValid(i: uint32)
    ensures Requeue(i).Valid() && Start(i).Valid() && Admit(i).Valid()
  {
    hide T;
    hide Id;
    IdHas(i);
    StartsValid(i);
    AdmitValid(i);
    hide KVTransferObservation.Valid;
  }

  lemma StartsValid(i: uint32)
    ensures Requeue(i).Valid() && Start(i).Valid()
  {
    hide T;
    hide Id;
    IdHas(i);
  }

  lemma AdmitValid(i: uint32)
    ensures Admit(i).Valid()
  {
    hide T;
    hide Id;
    IdHas(i);
  }

  lemma IdHas(i: uint32)
    ensures Id(i).recoveryEpoch.Some? && Id(i).requestId == REQUEST
    ensures forall j :: Id(i) == Id(j) ==> i == j
  {
  }

  lemma MeasuredValid(i: uint32)
    ensures Finish(i).Valid() && Compute(i).Valid()
  {
    hide T;
    hide K;
    hide Id;
    hide TransferIdentity.ProcessUuid;
    hide ReceiptIdentity.ProcessUuid;
    IdHas(i);
    SameProcess(i, false);
    SameProcess(i, true);
  }

  /** Every record of a part belongs to its episode, and is a valid, relevant one. */
  ghost predicate GoodPart(part: uint32 -> seq<KVTransferObservation>) {
    forall i: uint32, j: int :: 0 <= j < |part(i)| ==>
      part(i)[j].identity == Id(i) && part(i)[j].Valid() && IsSuccessEvent(part(i)[j].event)
  }

  lemma PartsAreGood()
    ensures GoodPart(Opening) && GoodPart(Closing) && GoodPart(Whole)
  {
    hide KVTransferObservation.Valid;
    hide T;
    hide K;
    hide Id;
    forall i: uint32, j: int | 0 <= j < |Opening(i)|
      ensures Opening(i)[j].identity == Id(i) && Opening(i)[j].Valid() && IsSuccessEvent(Opening(i)[j].event)
    {
      RecordsValid(i);
    }
    forall i: uint32, j: int | 0 <= j < |Closing(i)|
      ensures Closing(i)[j].identity == Id(i) && Closing(i)[j].Valid() && IsSuccessEvent(Closing(i)[j].event)
    {
      RecordsValid(i);
      MeasuredValid(i);
    }
    forall i: uint32, j: int | 0 <= j < |Whole(i)|
      ensures Whole(i)[j].identity == Id(i) && Whole(i)[j].Valid() && IsSuccessEvent(Whole(i)[j].event)
    {
      RecordsValid(i);
      MeasuredValid(i);
    }
  }

  /** Every record of the list is valid, successful and of the request. */
  ghost predicate AllRelevant(os: seq<KVTransferObservation>) {
    forall o :: o in os ==> o.Valid() && IsRelevant(o, REQUEST)
  }

  lemma {:induction false} PartsRelevant(n: nat, part: uint32 -> seq<KVTransferObservation>)
    requires n <= UINT32_MAX && GoodPart(part)
    ensures AllRelevant(Parts(n, part))
  {
    hide KVTransferObservation.Valid;
    hide Id;
    if n > 0 {
      assert IsUint32(n - 1);
      PartsRelevant(n - 1, part);
      IdHas(n - 1);
      forall o | o in part(n - 1) ensures o.Valid() && IsRelevant(o, REQUEST) {
        var j :| 0 <= j < |part(n - 1)| && part(n - 1)[j] == o;
      }
    }
  }

  lemma {:induction false} RelevantIsAll(os: seq<KVTransferObservation>)
    requires AllRelevant(os)
    ensures Relevant(os, REQUEST) == os
  {
    hide KVTransferObservation.Valid;
    if os != [] {
      var n := |os| - 1;
      assert os == os[..n] + [os[n]];
      RelevantIsAll(os[..n]);
      assert os[n] in os;
    }
  }

  // ----- what each identity sees -----

  lemma {:induction false} OfConcat(a: seq<KVTransferObservation>, b: seq<KVTransferObservation>,
                                    id: ObservationIdentity)
    ensures Of(a + b, id) == Of(a, id) + Of(b, id)
  {
    if b == [] {
      assert a + b == a;
    } else {
      var m := |b| - 1;
      OfConcat(a, b[..m], id);
      assert a + b == (a + b[..m]) + [b[m]] && b == b[..m] + [b[m]];
      OfAppend(a + b[..m], b[m], id);
      OfAppend(b[..m], b[m], id);
    }
  }

  lemma {:induction false} OfOwn(os: seq<KVTransferObservation>, own: ObservationIdentity, id: ObservationIdentity)
    requires forall j :: 0 <= j < |os| ==> os[j].identity == own
    ensures Of(os, id) == if id == own then os else []
  {
    if os != [] {
      var m := |os| - 1;
      assert os == os[..m] + [os[m]];
      OfOwn(os[..m], own, id);
      OfAppend(os[..m], os[m], id);
    }
  }

  /** An identity sees its own part, and the others see nothing. */
  lemma {:induction false} OfParts(n: nat, part: uint32 -> seq<KVTransferObservation>, id: ObservationIdentity)
    requires n <= UINT32_MAX && GoodPart(part)
    ensures forall i: uint32 :: i < n && id == Id(i) ==> Of(Parts(n, part), id) == part(i)
    ensures (forall i: uint32 :: i < n ==> id != Id(i)) ==> Of(Parts(n, part), id) == []
  {
    hide KVTransferObservation.Valid;
    hide Id;
    if n > 0 {
      assert IsUint32(n - 1);
      OfParts(n - 1, part, id);
      OfConcat(Parts(n - 1, part), part(n - 1), id);
      OfOwn(part(n - 1), Id(n - 1), id);
      forall i: uint32 | i < n && id == Id(i) ensures Of(Parts(n, part), id) == part(i) {
        IdHas(i);
        if i == n - 1 {
          assert forall j: uint32 :: j < n - 1 ==> Id(i) != Id(j);
        } else {
          assert id != Id(n - 1);
        }
      }
    }
  }

  lemma SameForAll(n: nat, id: ObservationIdentity)
    requires n <= UINT32_MAX
    ensures Of(OneByOne(n), id) == Of(AllAtOnce(n), id)
  {
    hide Id;
    hide Parts;
    PartsAreGood();
    hide GoodPart;
    OfParts(n, Whole, id);
    OfParts(n, Opening, id);
    OfParts(n, Closing, id);
    OfConcat(Parts(n, Opening), Parts(n, Closing), id);
    if i: uint32 :| i < n && id == Id(i) { assert Of(AllAtOnce(n), id) == Opening(i) + Closing(i); }
  }

  // ----- one by one is a complete chain -----

  lemma WholeIsComplete(i: uint32)
    ensures CompleteEpisode(Whole(i))
  {
    hide T;
    hide K;
    hide Id;
    NamesDiffer(i, i);
    WholeSets(i);
    hide StartedIn;
    hide DoneIn;
    var os := Whole(i);
    assert os[2] == Finish(i) && Completes(os[2], os[1]);
    assert ToSet([T(i)]) == {T(i)};
  }

  lemma WholeSets(i: uint32)
    ensures StartedIn(Whole(i)) == {T(i)} == DoneIn(Whole(i))
    ensures ReceiptsIn(Whole(i)) == {K(i, false), K(i, true)}
  {
    hide T;
    hide K;
    hide Id;
    var os := Whole(i);
    assert IsStarted(os[1]) && os[1].transfer == Some(T(i));
    assert IsDone(os[2]) && os[2].transfer == Some(T(i)) && os[2].receipt == Some(K(i, false));
    assert os[4].receipt == Some(K(i, true));
  }

  function Ids(n: nat): set<ObservationIdentity>
    requires n <= UINT32_MAX
  {
    set i: uint32 | 0 <= i < n :: Id(i)
  }

  lemma {:induction false} IdsCount(n: nat)
    requires n <= UINT32_MAX
    ensures |Ids(n)| == n
  {
    hide Id;
    if n == 0 {
      assert Ids(0) == {};
    } else {
      assert IsUint32(n - 1);
      var last: uint32 := n - 1;
      IdsCount(n - 1);
      IdHas(last);
      assert Ids(n) == Ids(n - 1) + {Id(last)};
      assert forall j: uint32 :: j < n - 1 ==> Id(j) != Id(last) by {
        forall j: uint32 | j < n - 1 ensures Id(j) != Id(last) { IdHas(j); }
      }
    }
  }

  lemma OneByOneIdentities(n: nat)
    requires n <= UINT32_MAX
    ensures Identities(OneByOne(n)) == Ids(n)
  {
    hide Id;
    hide Identities;
    hide Parts;
    PartsAreGood();
    hide GoodPart;
    forall id ensures id in Identities(OneByOne(n)) <==> id in Ids(n) {
      OfSets(OneByOne(n), id);
      OfParts(n, Whole, id);
    }
  }

  lemma OneByOneDisjoint(n: nat, id1: ObservationIdentity, id2: ObservationIdentity)
    requires n <= UINT32_MAX
    ensures DisjointPair(OneByOne(n), id1, id2)
  {
    hide Id;
    hide Parts;
    hide T;
    hide K;
    PartsAreGood();
    hide GoodPart;
    OfParts(n, Whole, id1);
    OfParts(n, Whole, id2);
    if i: uint32, j: uint32 :| i < n && j < n && id1 == Id(i) && id2 == Id(j) {
      WholeSets(i);
      WholeSets(j);
      NamesDiffer(i, j);
      hide StartedIn;
      hide ReceiptsIn;
    } else {
      assert StartedIn([]) == {} && ReceiptsIn([]) == {};
    }
  }

  /** Done one by one, the episodes are a complete chain of `n`. */
  lemma OneByOneComplete(n: nat)
    requires 0 < n <= UINT32_MAX
    ensures CompleteChain(OneByOne(n), REQUEST, n)
  {
    hide Id;
    hide Parts;
    hide CompleteEpisode;
    hide Identities;
    hide KVTransferObservation.Valid;
    var os := OneByOne(n);
    PartsAreGood();
    PartsRelevant(n, Whole);
    hide GoodPart;
    RelevantIsAll(os);
    OneByOneIdentities(n);
    IdsCount(n);
    forall id | id in Identities(os) ensures CompleteEpisode(Of(os, id)) {
      var i: uint32 :| i < n && id == Id(i);
      OfParts(n, Whole, id);
      WholeIsComplete(i);
    }
    forall id1: ObservationIdentity, id2: ObservationIdentity ensures DisjointPair(os, id1, id2) {
      OneByOneDisjoint(n, id1, id2);
    }
    hide DisjointPair;
    hide Relevant;
  }

  /** So they are when they are done all at once: each identity sees the same records. */
  lemma AllAtOnceComplete(n: nat)
    requires 0 < n <= UINT32_MAX
    ensures SameStreams(OneByOne(n), AllAtOnce(n), REQUEST)
    ensures CompleteChain(AllAtOnce(n), REQUEST, n)
  {
    hide CompleteChain;
    forall id: ObservationIdentity | id.requestId == REQUEST ensures Of(OneByOne(n), id) == Of(AllAtOnce(n), id) {
      SameForAll(n, id);
    }
    OneByOneComplete(n);
    StreamsKeepCompleteness(OneByOne(n), AllAtOnce(n), REQUEST, n);
  }

  // ----- one by one there is always room -----

  /** Nothing is open: every start is completed, and no receipt and no admission is held. */
  predicate Idle(r: seq<KVTransferObservation>) {
    StartedIn(r) - DoneIn(r) == {} && Retained(r) == {} && Held(r) == {}
  }

  lemma WholeHasRoom(r: seq<KVTransferObservation>, i: uint32)
    requires Idle(r) && WithinCapacity(r) && Of(r, Id(i)) == []
    ensures WithinCapacity(r + Whole(i))
  {
    hide T;
    hide K;
    hide Id;
    hide WithinCapacity;
    hide StartedIn;
    hide DoneIn;
    hide ReceiptsIn;
    hide Retained;
    hide Held;
    hide Of;
    var r1 := r + [Requeue(i)];
    var r2 := r1 + [Start(i)];
    var r3 := r2 + [Finish(i)];
    var r4 := r3 + [Admit(i)];
    assert r + Whole(i) == r4 + [Compute(i)];
    ComputedAppend(r, Requeue(i), Id(i));
    ComputedAppend(r1, Start(i), Id(i));
    ComputedAppend(r2, Finish(i), Id(i));
    RetainedAppend(r, Requeue(i));
    RetainedAppend(r1, Start(i));
    HeldAppend(r, Requeue(i));
    HeldAppend(r1, Start(i));
    HeldAppend(r2, Finish(i));
    SetsAppend(r, Requeue(i));
    WithinAppend(r, Requeue(i));
    WithinAppend(r1, Start(i));
    WithinAppend(r2, Finish(i));
    WithinAppend(r3, Admit(i));
    WithinAppend(r4, Compute(i));
  }

  lemma AllComputed(n: nat, j: int)
    requires n <= UINT32_MAX && 0 <= j < |OneByOne(n)|
    ensures IsComputed(Of(OneByOne(n), OneByOne(n)[j].identity))
  {
    hide Parts;
    hide Id;
    PartsAreGood();
    hide GoodPart;
    var os := OneByOne(n);
    OneByOneIdentities(n);
    assert os[j].identity in Identities(os);
    var i: uint32 :| i < n && os[j].identity == Id(i);
    OfParts(n, Whole, Id(i));
    assert Whole(i)[4].event.FIRST_COMPUTE?;
  }

  lemma SetsConcat(r: seq<KVTransferObservation>, i: uint32)
    ensures StartedIn(r + Whole(i)) == StartedIn(r) + {T(i)} && DoneIn(r + Whole(i)) == DoneIn(r) + {T(i)}
  {
    hide T;
    hide K;
    hide Id;
    hide StartedIn;
    hide DoneIn;
    hide ReceiptsIn;
    var r1 := r + [Requeue(i)];
    var r2 := r1 + [Start(i)];
    var r3 := r2 + [Finish(i)];
    var r4 := r3 + [Admit(i)];
    assert r + Whole(i) == r4 + [Compute(i)];
    SetsAppend(r, Requeue(i));
    SetsAppend(r1, Start(i));
    SetsAppend(r2, Finish(i));
    SetsAppend(r3, Admit(i));
    SetsAppend(r4, Compute(i));
  }

  lemma NothingStarted()
    ensures StartedIn(OneByOne(0)) == {} && DoneIn(OneByOne(0)) == {}
  {
  }

  lemma OneMore(n: nat)
    requires 0 < n <= UINT32_MAX
    ensures IsUint32(n - 1) && OneByOne(n) == OneByOne(n - 1) + Whole(n - 1)
  {
    hide Whole;
  }

  lemma {:induction false} StartsAreDone(n: nat)
    requires n <= UINT32_MAX
    ensures StartedIn(OneByOne(n)) == DoneIn(OneByOne(n))
  {
    hide StartedIn;
    hide DoneIn;
    hide Whole;
    hide OneByOne;
    if n == 0 {
      NothingStarted();
    } else {
      StartsAreDone(n - 1);
      OneMore(n);
      SetsConcat(OneByOne(n - 1), n - 1);
    }
  }

  lemma OneByOneIdle(n: nat)
    requires n <= UINT32_MAX
    ensures Idle(OneByOne(n))
  {
    hide Of;
    hide IsComputed;
    hide OneByOne;
    StartsAreDone(n);
    forall j | 0 <= j < |OneByOne(n)| ensures IsComputed(Of(OneByOne(n), OneByOne(n)[j].identity)) {
      AllComputed(n, j);
    }
  }

  lemma NewIdentity(n: nat)
    requires 0 < n <= UINT32_MAX
    ensures IsUint32(n - 1) && Of(OneByOne(n - 1), Id(n - 1)) == []
  {
    hide Whole;
    hide Id;
    hide Of;
    PartsAreGood();
    hide GoodPart;
    OfParts(n - 1, Whole, Id(n - 1));
    assert forall i: uint32 :: i < n - 1 ==> Id(n - 1) != Id(i) by { IdHas(n - 1); }
  }

  lemma NothingFits()
    ensures WithinCapacity(OneByOne(0))
  {
  }

  lemma {:induction false} OneByOneFits(n: nat)
    requires n <= UINT32_MAX
    ensures WithinCapacity(OneByOne(n))
  {
    hide WithinCapacity;
    hide OneByOne;
    hide Idle;
    hide Whole;
    hide Id;
    hide Of;
    if n == 0 {
      NothingFits();
    } else {
      OneByOneFits(n - 1);
      OneByOneIdle(n - 1);
      NewIdentity(n);
      OneMore(n);
      WholeHasRoom(OneByOne(n - 1), n - 1);
    }
  }

  // ----- all at once there is not -----

  lemma OpeningSets(r: seq<KVTransferObservation>, i: uint32)
    ensures StartedIn(r + Opening(i)) == StartedIn(r) + {T(i)} && DoneIn(r + Opening(i)) == DoneIn(r)
  {
    hide T;
    hide Id;
    hide StartedIn;
    hide DoneIn;
    hide ReceiptsIn;
    var r1 := r + [Requeue(i)];
    assert r + Opening(i) == r1 + [Start(i)];
    SetsAppend(r, Requeue(i));
    SetsAppend(r1, Start(i));
  }

  function Names(n: nat): set<TransferIdentity>
    requires n <= UINT32_MAX
  {
    set i: uint32 | 0 <= i < n :: T(i)
  }

  lemma NamesGrow(n: nat, last: uint32)
    requires 0 < n <= UINT32_MAX && last == n - 1
    ensures Names(n) == Names(n - 1) + {T(last)} && T(last) !in Names(n - 1)
  {
    hide T;
    forall i: uint32 | i < last ensures T(i) != T(last) {
      if T(i) == T(last) { NamesDiffer(i, last); }
    }
  }

  lemma {:induction false} OpenTransfers(n: nat)
    requires n <= UINT32_MAX
    ensures StartedIn(Parts(n, Opening)) == Names(n) && DoneIn(Parts(n, Opening)) == {} && |Names(n)| == n
  {
    hide T;
    if n == 0 {
      assert StartedIn([]) == {} && DoneIn([]) == {} && Names(0) == {};
    } else {
      hide StartedIn;
      hide DoneIn;
      hide Opening;
      hide Names;
      assert IsUint32(n - 1);
      OpenTransfers(n - 1);
      OpeningSets(Parts(n - 1, Opening), n - 1);
      NamesGrow(n, n - 1);
    }
  }

  lemma {:induction false} CapacityOfPrefix(r: seq<KVTransferObservation>, more: seq<KVTransferObservation>)
    requires WithinCapacity(r + more)
    ensures WithinCapacity(r)
  {
    hide Room;
    forall j | 0 <= j < |r| ensures Room(r[..j], r[j]) {
      assert (r + more)[..j] == r[..j] && (r + more)[j] == r[j];
    }
  }

  lemma OneMoreOverflows(r: seq<KVTransferObservation>, i: uint32)
    requires |StartedIn(r) - DoneIn(r)| >= LIMIT
    ensures !WithinCapacity(r + Opening(i))
  {
    hide WithinCapacity;
    hide StartedIn;
    hide DoneIn;
    hide ReceiptsIn;
    hide T;
    hide Id;
    SetsAppend(r, Requeue(i));
    var r1 := r + [Requeue(i)];
    WithinAppend(r1, Start(i));
    assert r + Opening(i) == r1 + [Start(i)];
  }

  lemma OpeningsOverflow(n: nat)
    requires LIMIT <= n < UINT32_MAX
    ensures !WithinCapacity(Parts(n, Opening) + Opening(n))
  {
    hide WithinCapacity;
    hide StartedIn;
    hide DoneIn;
    hide Opening;
    hide Parts;
    hide Names;
    assert IsUint32(n);
    OpenTransfers(n);
    assert Names(n) - {} == Names(n);
    OneMoreOverflows(Parts(n, Opening), n);
  }

  lemma AllAtOnceOverflows(n: nat)
    requires LIMIT < n <= UINT32_MAX
    ensures !WithinCapacity(AllAtOnce(n))
  {
    hide WithinCapacity;
    hide Opening;
    hide Closing;
    assert IsUint32(n - 1);
    OpeningsOverflow(n - 1);
    var begun := Parts(n, Opening);
    assert begun == Parts(n - 1, Opening) + Opening(n - 1);
    if WithinCapacity(begun + Parts(n, Closing)) { CapacityOfPrefix(begun, Parts(n, Closing)); }
  }

  /**
   * Above the limit the verdict depends on the interleaving: for every number of episodes
   * beyond 4096, the two lists give every identity the same stream and are both complete
   * chains, yet the validator accepts the one and rejects the other.
   */
  lemma InterleavingDecides(n: nat)
    requires LIMIT < n <= UINT32_MAX
    ensures AllValid(OneByOne(n)) && AllValid(AllAtOnce(n)) && SameStreams(OneByOne(n), AllAtOnce(n), REQUEST)
    ensures CompleteChain(OneByOne(n), REQUEST, n) && CompleteChain(AllAtOnce(n), REQUEST, n)
    ensures ChainVerdict(OneByOne(n), REQUEST) == Some(n) && ChainVerdict(AllAtOnce(n), REQUEST) == None
  {
    hide CompleteChain;
    hide WithinCapacity;
    hide ChainVerdict;
    hide SameStreams;
    hide Parts;
    hide KVTransferObservation.Valid;
    ListsAreValid(n);
    OneByOneComplete(n);
    AllAtOnceComplete(n);
    OneByOneFits(n);
    AllAtOnceOverflows(n);
    VerdictExact(OneByOne(n), REQUEST, n);
    forall m: nat ensures ChainVerdict(AllAtOnce(n), REQUEST) != Some(m) { VerdictExact(AllAtOnce(n), REQUEST, m); }
  }

  lemma ListsAreValid(n: nat)
    requires n <= UINT32_MAX
    ensures AllValid(OneByOne(n)) && AllValid(AllAtOnce(n))
    ensures Relevant(OneByOne(n), REQUEST) == OneByOne(n) && Relevant(AllAtOnce(n), REQUEST) == AllAtOnce(n)
  {
    hide KVTransferObservation.Valid;
    hide Parts;
    hide Relevant;
    PartsAreGood();
    PartsRelevant(n, Whole);
    PartsRelevant(n, Opening);
    PartsRelevant(n, Closing);
    hide GoodPart;
    assert AllRelevant(AllAtOnce(n));
    RelevantIsAll(OneByOne(n));
    RelevantIsAll(AllAtOnce(n));
  }
}
