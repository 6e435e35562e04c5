/**
 * The offline restore-chain check over canonical records: what it accumulates record
 * by record, and what makes an episode complete.
 */
module RestoreChain {
  import opened Basics
  import opened Schema
  import opened Normalization
  import opened NormalizerAcceptance
  import opened NormalizerReplay

  // ----- the check, one record at a time -----

  datatype Episode = Episode(
    started: set<TransferIdentity>, completed: set<TransferIdentity>, admitted: bool, computed: bool, lastNs: int)

  datatype Chain = Chain(
    episodes: map<ObservationIdentity, Episode>,
    seenTransfers: set<TransferIdentity>,
    seenReceipts: set<ReceiptIdentity>,
    normalizer: State)

  function DefaultConfig(): Config {
    Config(DEFAULT_MAX_CORRELATED_TRANSFERS, DEFAULT_MAX_RECOVERY_ADMISSIONS, true)
  }

  function EmptyChain(): Chain {
    Chain(map[], {}, {}, Initial(DefaultConfig()))
  }

  /** The episode bookkeeping of one record, before the normalizer is consulted; `None` is a rejection. */
  function EpisodeStep(e: Episode, seen: set<TransferIdentity>, o: KVTransferObservation): Option<Episode>
    requires o.Valid()
  {
    match o.event
    case RESTORE_STARTED =>
      if e.admitted || o.transfer.value in seen then None
      else Some(e.(started := e.started + {o.transfer.value}))
    case RESTORE_COMPLETED =>
      if e.admitted then None else Some(e.(completed := e.completed + {o.transfer.value}))
    case RECOVERY_ADMITTED =>
      var roster := ToSet(o.associatedTransfers);
      if e.admitted || roster == {} || roster != e.started || roster != e.completed then None
      else Some(e.(admitted := true))
    case FIRST_COMPUTE => Some(e.(computed := true))
    case _ => Some(e)
  }

  /** The episode a record falls into: a requeue opens one, everything else needs one that is still open. */
  function OpenEpisode(c: Chain, o: KVTransferObservation): Option<Episode>
    requires o.Valid()
  {
    if o.event.RECOVERY_REQUEUED? then
      if o.identity in c.episodes then None else Some(Episode({}, {}, false, false, o.observedAtNs))
    else if o.identity in c.episodes && !c.episodes[o.identity].computed then Some(c.episodes[o.identity])
    else None
  }

  /** The effect of one relevant record of the request. */
  function RelevantStep(c: Chain, o: KVTransferObservation): Option<Chain>
    requires o.Valid()
  {
    var open := OpenEpisode(c, o);
    if open.None? || o.observedAtNs < open.value.lastNs then None
    else if o.receipt.Some? && o.receipt.value in c.seenReceipts then None
    else
      var next := EpisodeStep(open.value.(lastNs := o.observedAtNs), c.seenTransfers, o);
      var (normalizer, result) := Step(c.normalizer, SourceOf(o));
      if next.None? || result != Some(o) then None
      else Some(Chain(
        c.episodes[o.identity := next.value],
        if o.event.RESTORE_STARTED? then c.seenTransfers + {o.transfer.value} else c.seenTransfers,
        if o.receipt.Some? then c.seenReceipts + {o.receipt.value} else c.seenReceipts,
        normalizer))
  }

  function ChainStep(c: Chain, req: string, o: KVTransferObservation): Option<Chain>
    requires o.Valid()
  {
    if o.identity.requestId != req then Some(c)
    else if !IsSuccessEvent(o.event) then
      if o.direction == Some(H2D) then None else Some(c)
    else RelevantStep(c, o)
  }

  function ChainRun(os: seq<KVTransferObservation>, req: string): Option<Chain>
    requires AllValid(os)
  {
    if os == [] then Some(EmptyChain())
    else
      var n := |os| - 1;
      var before := ChainRun(os[..n], req);
      if before.None? then None else ChainStep(before.value, req, os[n])
  }

  /** The number of complete episodes, or `None` for a rejection. */
  function ChainVerdict(os: seq<KVTransferObservation>, req: string): Option<nat>
    requires AllValid(os)
  {
    var end := ChainRun(os, req);
    if end.None? || end.value.episodes == map[] then None
    else if exists id :: id in end.value.episodes && !end.value.episodes[id].computed then None
    else Some(|end.value.episodes|)
  }

  // ----- what makes an episode complete -----

  predicate IsStarted(o: KVTransferObservation) { o.event.RESTORE_STARTED? && o.transfer.Some? }

  predicate IsDone(o: KVTransferObservation) { o.event.RESTORE_COMPLETED? && o.transfer.Some? }

  /** Record `d` completes, strictly later, the transfer that record `s` started, and its measurements agree. */
  predicate Completes(d: KVTransferObservation, s: KVTransferObservation) {
    && IsStarted(s) && IsDone(d) && d.transfer == s.transfer
    && s.observedAtNs < d.observedAtNs
    && d.blockCount == s.blockCount
    && d.durationNs == Some(d.observedAtNs - s.observedAtNs)
  }

  function StartedIn(os: seq<KVTransferObservation>): (r: set<TransferIdentity>) {
    set i | 0 <= i < |os| && IsStarted(os[i]) :: os[i].transfer.value
  }

  function DoneIn(os: seq<KVTransferObservation>): (r: set<TransferIdentity>) {
    set i | 0 <= i < |os| && IsDone(os[i]) :: os[i].transfer.value
  }

  function ReceiptsIn(os: seq<KVTransferObservation>): (r: set<ReceiptIdentity>) {
    set i | 0 <= i < |os| && os[i].receipt.Some? :: os[i].receipt.value
  }

  predicate TimesNondecreasing(os: seq<KVTransferObservation>) {
    forall i, j :: 0 <= i < j < |os| ==> os[i].observedAtNs <= os[j].observedAtNs
  }

  /** No transfer starts twice, none completes twice, and no receipt occurs twice. */
  predicate NothingRepeats(os: seq<KVTransferObservation>) {
    forall i, j :: 0 <= i < j < |os| ==>
      && (IsStarted(os[i]) && IsStarted(os[j]) ==> os[i].transfer != os[j].transfer)
      && (IsDone(os[i]) && IsDone(os[j]) ==> os[i].transfer != os[j].transfer)
      && (os[i].receipt.Some? && os[j].receipt.Some? ==> os[i].receipt != os[j].receipt)
  }

  /** Every completion follows the start it completes. */
  predicate CompletionsMatch(os: seq<KVTransferObservation>) {
    forall i :: 0 <= i < |os| && IsDone(os[i]) ==> exists j :: 0 <= j < i && Completes(os[i], os[j])
  }

  /**
   * One requeue; then each transfer started once and completed once, strictly later and
   * with matching measurements; then the admission of exactly the started set; then one
   * first compute of that roster; times nondecreasing, receipts distinct.
   */
  predicate CompleteEpisode(os: seq<KVTransferObservation>) {
    var n := |os|;
    && 3 <= n
    && os[0].event.RECOVERY_REQUEUED?
    && (forall i :: 0 < i < n - 2 ==> IsStarted(os[i]) || IsDone(os[i]))
    && os[n - 2].event.RECOVERY_ADMITTED?
    && os[n - 1].event.FIRST_COMPUTE?
    && TimesNondecreasing(os)
    && NothingRepeats(os)
    && CompletionsMatch(os)
    && ToSet(os[n - 2].associatedTransfers) == StartedIn(os) == DoneIn(os)
    && os[n - 1].associatedTransfers == os[n - 2].associatedTransfers
  }

  // ----- what makes the records of a request a complete chain -----

  predicate IsRelevant(o: KVTransferObservation, req: string) {
    o.identity.requestId == req && IsSuccessEvent(o.event)
  }

  function Relevant(os: seq<KVTransferObservation>, req: string): (r: seq<KVTransferObservation>)
    ensures forall i :: 0 <= i < |r| ==> IsRelevant(r[i], req)
    ensures AllValid(os) ==> AllValid(r)
  {
    if os == [] then []
    else
      var rest := Relevant(os[..|os| - 1], req);
      if IsRelevant(os[|os| - 1], req) then rest + [os[|os| - 1]] else rest
  }

  /** The records of one identity, in order. */
  function Of(os: seq<KVTransferObservation>, id: ObservationIdentity): (r: seq<KVTransferObservation>) {
    if os == [] then []
    else
      var rest := Of(os[..|os| - 1], id);
      if os[|os| - 1].identity == id then rest + [os[|os| - 1]] else rest
  }

  function Identities(os: seq<KVTransferObservation>): (ids: set<ObservationIdentity>) {
    set i | 0 <= i < |os| :: os[i].identity
  }

  /** No failed, cancelled or otherwise unsuccessful H2D record belongs to the request. */
  predicate NoUnsuccessfulRestore(os: seq<KVTransferObservation>, req: string) {
    forall i :: 0 <= i < |os| && os[i].identity.requestId == req && !IsSuccessEvent(os[i].event) ==>
      os[i].direction != Some(H2D)
  }

  predicate DisjointPair(os: seq<KVTransferObservation>, id1: ObservationIdentity, id2: ObservationIdentity) {
    id1 != id2 ==>
      StartedIn(Of(os, id1)) !! StartedIn(Of(os, id2)) && ReceiptsIn(Of(os, id1)) !! ReceiptsIn(Of(os, id2))
  }

  /** Different identities share no transfer and no receipt. */
  ghost predicate EpisodesDisjoint(os: seq<KVTransferObservation>) {
    forall id1: ObservationIdentity, id2: ObservationIdentity :: DisjointPair(os, id1, id2)
  }

  /** The request's relevant records split by identity into `n >= 1` complete, disjoint episodes. */
  ghost predicate CompleteChain(os: seq<KVTransferObservation>, req: string, n: nat) {
    var r := Relevant(os, req);
    && NoUnsuccessfulRestore(os, req)
    && n == |Identities(r)| && n >= 1
    && (forall id :: id in Identities(r) ==> CompleteEpisode(Of(r, id)))
    && EpisodesDisjoint(r)
  }
}
