/**
 * The binding between the host's offloading observer and the adapter: foreign records
 * in, typed source records out, with its own table of submitted transfers.
 */
module Binding {
  import opened Basics
  import opened Schema
  import opened ScopedIds
  import opened ObservationPath
  import N = Normalization
  import Adapter

  const MAX_BINDING_TRANSFERS := N.DEFAULT_MAX_CORRELATED_TRANSFERS

  /** An attribute of a foreign record: absent, `None`, or a value of some type. */
  datatype Attribute = Missing | Null | Int(n: int) | Bool(b: bool) | Text(s: string)

  datatype HostRecord = HostRecord(
    event: Attribute, jobId: Attribute, requestId: Attribute, rank: Attribute, operation: Attribute,
    blockCount: Attribute, observedAtNs: Attribute, success: Attribute, bytesMoved: Attribute,
    durationNs: Attribute, reason: Attribute)

  type ProcessUuid = s: string | IsProcessUuid(s) witness seq(32, _ => '0')

  datatype Entry = Entry(identity: ObservationIdentity, transfer: TransferIdentity, operation: N.TransferOperation)

  // ----- names this process gives -----

  function HexValue(c: char): (d: nat)
    requires IsHexDigit(c)
    ensures d < 16
  {
    if c <= '9' then c as int - '0' as int else 10 + (c as int - 'a' as int)
  }

  function HexNumber(s: string): nat
    requires forall i :: 0 <= i < |s| ==> IsHexDigit(s[i])
  {
    if s == [] then 0 else HexNumber(s[..|s| - 1]) * 16 + HexValue(s[|s| - 1])
  }

  function Pow16(k: nat): nat { if k == 0 then 1 else 16 * Pow16(k - 1) }

  lemma {:induction false} HexNumberBound(s: string)
    requires forall i :: 0 <= i < |s| ==> IsHexDigit(s[i])
    ensures HexNumber(s) < Pow16(|s|)
  {
    if s != [] { HexNumberBound(s[..|s| - 1]); }
  }

  lemma SixteenDigits()
    ensures Pow16(16) == UINT64_MAX + 1
  {
    assert Pow16(4) == 0x1_0000;
    assert Pow16(8) == 0x1_0000_0000;
    assert Pow16(12) == 0x1_0000_0000_0000;
  }

  /** The first half of the process id as a number, never zero: a generation that identities accept. */
  function WorkerGeneration(uuid: ProcessUuid): (g: uint64)
    ensures g > 0
  {
    HexNumberBound(uuid[..16]);
    SixteenDigits();
    var g := HexNumber(uuid[..16]);
    if g == 0 then 1 else g
  }

  lemma {:induction false} HexNumberInjective(s: string, s': string)
    requires |s| == |s'|
    requires forall i :: 0 <= i < |s| ==> IsHexDigit(s[i]) && IsHexDigit(s'[i])
    requires HexNumber(s) == HexNumber(s')
    ensures s == s'
  {
    if s != [] {
      var n := |s| - 1;
      assert s == s[..n] + [s[n]] && s' == s'[..n] + [s'[n]];
      HexNumberInjective(s[..n], s'[..n]);
    }
  }

  /** Two processes share a generation exactly when their first halves agree, or number zero and one. */
  lemma GenerationSeparates(u: ProcessUuid, v: ProcessUuid)
    ensures WorkerGeneration(u) == WorkerGeneration(v) <==>
      u[..16] == v[..16] || (HexNumber(u[..16]) <= 1 && HexNumber(v[..16]) <= 1)
  {
    if HexNumber(u[..16]) == HexNumber(v[..16]) { HexNumberInjective(u[..16], v[..16]); }
  }

  function TransferFor(uuid: ProcessUuid, job: uint64): TransferIdentity {
    assert IsUint64(job);
    PrintRoundTrips(uuid, 't', job);
    TransferIdentity(Print(uuid, 't', job))
  }

  function ReceiptFor(uuid: ProcessUuid, job: uint64): ReceiptIdentity {
    assert IsUint64(job);
    PrintRoundTrips(uuid, 'k', job);
    ReceiptIdentity(Print(uuid, 'k', job))
  }

  // ----- reading a foreign record -----

  function Operation(r: HostRecord): Option<N.TransferOperation> {
    if r.operation == Text("d2h_preserve") then Some(N.D2H_PRESERVE)
    else if r.operation == Text("h2d_restore") then Some(N.H2D_RESTORE)
    else None
  }

  function IdentityOf(uuid: ProcessUuid, r: HostRecord): Option<ObservationIdentity> {
    if !r.jobId.Int? || !IsUint64(r.jobId.n) || !r.rank.Int? || !IsUint32(r.rank.n) || !r.requestId.Text? then None
    else if !PrintableAscii(r.requestId.s, MAX_RUNTIME_REQUEST_ID_BYTES) then None
    else Some(ObservationIdentity(r.requestId.s, WorkerGeneration(uuid), r.rank.n, None))
  }

  /** The typed source of a submission, when the record has everything one needs. */
  function SubmissionOf(uuid: ProcessUuid, r: HostRecord): (src: Option<N.Source>)
    ensures src.Some? ==> src.value.CoreTransferSubmitted? && src.value.Valid() && r.jobId.Int? && IsUint64(r.jobId.n)
    ensures src.Some? ==> src.value.transfer == TransferFor(uuid, r.jobId.n)
  {
    var identity, operation := IdentityOf(uuid, r), Operation(r);
    if identity.None? || operation.None? || !r.blockCount.Int? then None
    else if !r.observedAtNs.Int? || !IsUint64(r.observedAtNs.n) || !(0 < r.blockCount.n <= UINT32_MAX) then None
    else Some(N.CoreTransferSubmitted(identity.value, TransferFor(uuid, r.jobId.n), operation.value, r.blockCount.n,
                                      r.observedAtNs.n))
  }

  /** An optional measurement: `None`, or a positive uint64. */
  predicate Measurement(a: Attribute) { a.Null? || (a.Int? && 0 < a.n <= UINT64_MAX) }

  function Measured(a: Attribute): Option<int> { if a.Int? then Some(a.n) else None }

  /** A device duration that is not a positive integer is left out; one beyond uint64 refuses the record. */
  function Duration(a: Attribute): Option<int> { if a.Int? && a.n > 0 then Some(a.n) else None }

  function CompletionOf(uuid: ProcessUuid, job: uint64, e: Entry, r: HostRecord): (src: Option<N.Source>)
    ensures src.Some? ==> src.value.CoreTransferCompleted? && src.value.Valid() && src.value.transfer == e.transfer
  {
    if !r.observedAtNs.Int? || !IsUint64(r.observedAtNs.n) || !r.success.Bool? || !Measurement(r.bytesMoved)
       || r.durationNs.Missing? || (r.durationNs.Int? && r.durationNs.n > UINT64_MAX) then None
    else
      Some(N.CoreTransferCompleted(e.transfer, r.observedAtNs.n, r.success.b, Measured(r.bytesMoved),
                                   Duration(r.durationNs),
             if e.operation.H2D_RESTORE? && r.success.b then Some(ReceiptFor(uuid, job)) else None))
  }

  function CancellationOf(e: Entry, r: HostRecord): (src: Option<N.Source>)
    ensures src.Some? ==> src.value.CoreTransferCancelled? && src.value.Valid() && src.value.transfer == e.transfer
  {
    if r.reason != Text("host_shutdown") || !r.observedAtNs.Int? || !IsUint64(r.observedAtNs.n) then None
    else Some(N.CoreTransferCancelled(e.transfer, r.observedAtNs.n, HOST_SHUTDOWN))
  }

  predicate IsSubmission(r: HostRecord) { r.event == Text("transfer_submitted") }

  predicate IsTerminal(r: HostRecord) { r.event == Text("transfer_completed") || r.event == Text("transfer_cancelled") }

  /** The record names the transfer as it was submitted. */
  predicate Names(e: Entry, r: HostRecord) {
    Operation(r) == Some(e.operation) && r.requestId == Text(e.identity.requestId) && r.rank == Int(e.identity.rank)
  }

  function TerminalOf(uuid: ProcessUuid, job: uint64, e: Entry, r: HostRecord): (src: Option<N.Source>)
    ensures src.Some? ==> src.value.Valid() && (src.value.CoreTransferCompleted? || src.value.CoreTransferCancelled?)
    ensures src.Some? ==> src.value.transfer == e.transfer
  {
    if !Names(e, r) then None
    else if r.event == Text("transfer_completed") then CompletionOf(uuid, job, e, r)
    else CancellationOf(e, r)
  }

  // ----- one host event -----

  /** The binding with the path behind its callbacks; `registered` says the callbacks are there. */
  datatype Bound = Bound(uuid: ProcessUuid, registered: bool, pending: map<uint64, Entry>, path: Path)

  /** The submission that this event forwards, if it forwards one. */
  function Forwarded(b: Bound, r: HostRecord): (src: Option<N.Source>)
    ensures src.Some? ==> SubmissionOf(b.uuid, r) == src && IsUint64(r.jobId.n) && r.jobId.n !in b.pending
  {
    var src := SubmissionOf(b.uuid, r);
    var free := |b.pending| < MAX_BINDING_TRANSFERS;
    if IsSubmission(r) && src.Some? && b.registered && r.jobId.n !in b.pending && free then src
    else None
  }

  /** The terminal record that this event forwards, if it forwards one. */
  function Terminated(b: Bound, r: HostRecord): (src: Option<N.Source>)
    ensures src.Some? ==> r.jobId.Int? && r.jobId.n in b.pending && src.value.Valid()
    ensures src.Some? ==> src.value.CoreTransferCompleted? || src.value.CoreTransferCancelled?
    ensures src.Some? ==> src.value.transfer == b.pending[r.jobId.n].transfer
  {
    if IsTerminal(r) && b.registered && r.jobId.Int? && r.jobId.n in b.pending
    then TerminalOf(b.uuid, r.jobId.n, b.pending[r.jobId.n], r)
    else None
  }

  /** One transfer event: what the binding and the path become, and what the host is told. */
  function ObserveHost(b: Bound, r: HostRecord, answer: SinkAnswer): (Bound, bool) {
    var submitted, ended := Forwarded(b, r), Terminated(b, r);
    if submitted.Some? then
      var src := submitted.value;
      var (path, accepted) := Observe(b.path, src, answer);
      (b.(path := path,
          pending := if accepted then b.pending[r.jobId.n := Entry(src.identity, src.transfer, src.operation)]
                     else b.pending),
       accepted)
    else if ended.Some? then
      var (path, accepted) := Observe(b.path, ended.value, answer);
      (b.(path := path, pending := b.pending - {r.jobId.n}), accepted)
    else (b, false)
  }

  // ----- the object that performs these steps -----

  class VllmOffloadingObserverBinding {
    const uuid: ProcessUuid
    var callbacks: Adapter.KVTransferHostAdapter?
    var pending: map<uint64, Entry>

    constructor (uuid: ProcessUuid)
      ensures this.uuid == uuid && callbacks == null && pending == map[]
    {
      this.uuid, callbacks, pending := uuid, null, map[];
    }

    /** The binding in front of `adapter`. */
    ghost function Before(adapter: Adapter.KVTransferHostAdapter): Bound
      reads this, adapter, adapter.normalizer
    {
      Bound(uuid, callbacks == adapter, pending, adapter.OnPath())
    }

    method Register(adapter: Adapter.KVTransferHostAdapter) returns (ok: bool)
      modifies this`callbacks
      ensures ok <==> old(callbacks) == null
      ensures callbacks == if ok then adapter else old(callbacks)
    {
      ok := callbacks == null;
      if ok {
        callbacks := adapter;
      }
    }

    method Unregister()
      modifies this`callbacks, this`pending
      ensures callbacks == null && pending == map[]
    {
      callbacks, pending := null, map[];
    }

    /** `adapter` is the one whose callbacks the host would reach, or would have reached before `Unregister`. */
    method OnHostRecord(adapter: Adapter.KVTransferHostAdapter, r: HostRecord, answer: SinkAnswer)
      returns (accepted: bool)
      requires callbacks == null || callbacks == adapter
      modifies this`pending, adapter`observations, adapter.normalizer
      ensures (Before(adapter), accepted) == ObserveHost(old(Before(adapter)), r, answer)
    {
      if IsSubmission(r) {
        accepted := OnSubmission(adapter, r, answer);
      } else if IsTerminal(r) {
        accepted := OnTerminal(adapter, r, answer);
      } else {
        accepted := false;
      }
    }

    method OnSubmission(adapter: Adapter.KVTransferHostAdapter, r: HostRecord, answer: SinkAnswer)
      returns (accepted: bool)
      requires (callbacks == null || callbacks == adapter) && IsSubmission(r)
      modifies this`pending, adapter`observations, adapter.normalizer
      ensures (Before(adapter), accepted) == ObserveHost(old(Before(adapter)), r, answer)
    {
      hide Observe;
      hide SubmissionOf;
      var source := SubmissionOf(uuid, r);
      if source.None? {
        return false;
      }
      var job := r.jobId.n;
      if callbacks == null || job in pending || |pending| >= MAX_BINDING_TRANSFERS {
        return false;
      }
      accepted := callbacks.Observe(source.value, answer);
      if accepted {
        pending := pending[job := Entry(source.value.identity, source.value.transfer, source.value.operation)];
      }
    }

    method OnTerminal(adapter: Adapter.KVTransferHostAdapter, r: HostRecord, answer: SinkAnswer)
      returns (accepted: bool)
      requires (callbacks == null || callbacks == adapter) && IsTerminal(r)
      modifies this`pending, adapter`observations, adapter.normalizer
      ensures (Before(adapter), accepted) == ObserveHost(old(Before(adapter)), r, answer)
    {
      hide Observe;
      hide TerminalOf;
      if callbacks == null || !r.jobId.Int? || r.jobId.n !in pending {
        return false;
      }
      var job := r.jobId.n;
      var source := TerminalOf(uuid, job, pending[job], r);
      if source.None? {
        return false;
      }
      accepted := callbacks.Observe(source.value, answer);
      pending := pending - {job};
    }
  }
}
