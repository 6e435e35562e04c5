/**
 * The host adapter: its four-state lifecycle over the writers it owns, and its
 * observation callback. Foreign calls (registration, resource construction, closing a
 * writer within its timeout) answer as their caller's fault arguments say.
 */
module Adapter {
  import opened Basics
  import opened ObservationPath
  import N = Normalization

  datatype AdapterState = STOPPED | STARTING | ACTIVE | STOPPING

  /** A writer thread, by number. */
  type Writer = nat

  /** How closing a writer ends: it has exited, it is still alive, or it has exited and the close raised. */
  datatype CloseAnswer = CLOSED | TIMED_OUT | FAILED

  /** Everything foreign that one `start` meets. */
  datatype StartFaults = StartFaults(
    contractOk: bool, sinkBuilt: bool, captureBuilt: bool, registers: bool, sinkClose: CloseAnswer,
      captureClose: CloseAnswer)

  /**
   * Everything foreign that one `stop` meets; the last two say whether a writer that timed out is
   * alive at the check.
   */
  datatype StopFaults = StopFaults(
    unregisters: bool, sinkClose: CloseAnswer, captureClose: CloseAnswer, sinkLingers: bool, captureLingers: bool)

  datatype StartResult = STARTED | REFUSED_CALL | CONTRACT_ERROR | RESOURCE_ERROR | REGISTRATION_ERROR

  datatype LifeCounters = LifeCounters(registrations: nat, unregisterErrors: nat, cleanupErrors: nat,
                                       shutdownTimeouts: nat)

  /** The lifecycle of one adapter, together with the writer threads alive in the process. */
  datatype Life = Life(
    state: AdapterState, bound: bool, normalizer: bool, sink: Option<Writer>, capture: Option<Writer>,
    counters: LifeCounters, live: set<Writer>, created: nat)
  {
    function Owned(): set<Writer> {
      (if sink.Some? then {sink.value} else {}) + (if capture.Some? then {capture.value} else {})
    }
  }

  const IDLE := Life(STOPPED, false, false, None, None, LifeCounters(0, 0, 0, 0), {}, 0)

  /** Closing one writer. */
  function CloseWriter(l: Life, w: Option<Writer>, answer: CloseAnswer): (Life, bool) {
    if w.None? then (l, true)
    else
      match answer
      case CLOSED => (l.(live := l.live - {w.value}), true)
      case TIMED_OUT => (l.(counters := l.counters.(shutdownTimeouts := l.counters.shutdownTimeouts + 1)), false)
      case FAILED =>
        (l.(live := l.live - {w.value}, counters := l.counters.(cleanupErrors := l.counters.cleanupErrors + 1)), false)
  }

  /** The capture is closed before the sink. */
  function CloseResources(l: Life, sink: Option<Writer>, capture: Option<Writer>, sinkClose: CloseAnswer,
                          captureClose: CloseAnswer): (Life, bool)
  {
    var (l1, ok1) := CloseWriter(l, capture, captureClose);
    var (l2, ok2) := CloseWriter(l1, sink, sinkClose);
    (l2, ok1 && ok2)
  }

  function Spawn(l: Life): Life { l.(created := l.created + 1, live := l.live + {l.created}) }

  /** Builds the sink, then the capture if one is wanted; closes the sink again when the capture cannot be built. */
  function Prepare(l: Life, wantsCapture: bool, f: StartFaults): (Life, Option<(Writer, Option<Writer>)>) {
    if !f.sinkBuilt then (l, None)
    else if !wantsCapture then (Spawn(l), Some((l.created, None)))
    else if !f.captureBuilt then (CloseResources(Spawn(l), Some(l.created), None, f.sinkClose, f.captureClose).0, None)
    else (Spawn(Spawn(l)), Some((l.created, Some(l.created + 1))))
  }

  /** Registers with the host; a failure closes everything and forgets it. */
  function Register(l: Life, sink: Writer, capture: Option<Writer>, f: StartFaults): (Life, StartResult) {
    var starting := l.(normalizer := true, sink := Some(sink), capture := capture, state := STARTING);
    if !f.registers then
      (CloseResources(starting, Some(sink), capture, f.sinkClose, f.captureClose).0
         .(normalizer := false, sink := None, capture := None, state := STOPPED), REGISTRATION_ERROR)
    else
      (starting.(bound := true, state := ACTIVE,
                 counters := l.counters.(registrations := l.counters.registrations + 1)), STARTED)
  }

  function StartEffect(l: Life, enabled: bool, wantsCapture: bool, f: StartFaults): (Life, StartResult) {
    if !enabled || !l.state.STOPPED? then (l, REFUSED_CALL)
    else if !f.contractOk then (l, CONTRACT_ERROR)
    else
      var (l1, resources) := Prepare(l, wantsCapture, f);
      if resources.None? then (l1, RESOURCE_ERROR)
      else Register(l1, resources.value.0, resources.value.1, f)
  }

  /** Unregisters from the host, which the adapter attempts once. */
  function Unregister(l: Life, f: StopFaults): (Life, bool) {
    if !l.bound || f.unregisters then (l.(state := STOPPING), true)
    else (l.(state := STOPPING, counters := l.counters.(unregisterErrors := l.counters.unregisterErrors + 1)), false)
  }

  /** Whether a writer is alive at the check, `lingers` deciding for one that outlived its timeout. */
  function AfterLinger(l: Life, w: Option<Writer>, lingers: bool): Life {
    if w.Some? && !lingers then l.(live := l.live - {w.value}) else l
  }

  /** Keeps ownership while a writer is alive, and lets go otherwise. */
  function Settle(l: Life, f: StopFaults): Life {
    var l1 := AfterLinger(AfterLinger(l, l.sink, f.sinkLingers), l.capture, f.captureLingers).(bound := false);
    if l1.Owned() * l1.live != {} then l1
    else l1.(normalizer := false, sink := None, capture := None, state := STOPPED)
  }

  function StopEffect(l: Life, f: StopFaults): (Life, bool) {
    if l.state.STOPPED? then (l, true)
    else
      var (l1, unregisterOk) := Unregister(l, f);
      var (l2, closeOk) :=
        if l.normalizer && l.sink.Some? then CloseResources(l1, l.sink, l.capture, f.sinkClose, f.captureClose)
        else (l1, true);
      (Settle(l2, f), unregisterOk && closeOk)
  }

  // ----- runs of lifecycle calls -----

  datatype Call =
    | StartCall(enabled: bool, wantsCapture: bool, startFaults: StartFaults)
    | StopCall(stopFaults: StopFaults)
    | WriterExits(writer: Writer)

  function Next(l: Life, c: Call): Life {
    match c
    case StartCall(enabled, wantsCapture, f) => StartEffect(l, enabled, wantsCapture, f).0
    case StopCall(f) => StopEffect(l, f).0
    case WriterExits(w) => l.(live := l.live - {w})
  }

  function Run(l: Life, calls: seq<Call>): Life {
    if calls == [] then l else Next(Run(l, calls[..|calls| - 1]), calls[|calls| - 1])
  }

  /** The writers that failed starts left running and forgot. */
  function Forgotten(l: Life, c: Call): set<Writer> {
    if c.StartCall? && !StartEffect(l, c.enabled, c.wantsCapture, c.startFaults).1.STARTED?
    then Next(l, c).live - l.live
    else {}
  }

  function Orphans(l: Life, calls: seq<Call>): set<Writer> {
    if calls == [] then {}
    else
      var n := |calls| - 1;
      Orphans(l, calls[..n]) + Forgotten(Run(l, calls[..n]), calls[n])
  }

  predicate Below(ws: set<Writer>, n: nat) { forall w :: w in ws ==> w < n }

  /** What holds between lifecycle calls. */
  predicate LifeInv(l: Life, orphans: set<Writer>) {
    && !l.state.STARTING?
    && (l.state.STOPPED? ==> !l.bound && !l.normalizer && l.sink.None? && l.capture.None?)
    && (l.state.ACTIVE? ==> l.bound && l.normalizer && l.sink.Some?)
    && (l.state.STOPPING? ==> !l.bound && l.normalizer && l.sink.Some?)
    && l.live <= l.Owned() + orphans
    && l.Owned() !! orphans
    && Below(l.Owned(), l.created) && Below(l.live, l.created) && Below(orphans, l.created)
    && (l.sink.Some? && l.capture.Some? ==> l.sink.value != l.capture.value)
  }

  lemma StartKeeps(l: Life, orphans: set<Writer>, c: Call)
    requires LifeInv(l, orphans) && c.StartCall?
    ensures LifeInv(Next(l, c), orphans + Forgotten(l, c))
  {
  }

  /** Closing writers only lets some of the two exit, and counts. */
  lemma CloseFrame(l: Life, sink: Option<Writer>, capture: Option<Writer>, sinkClose: CloseAnswer,
                   captureClose: CloseAnswer)
    ensures var r := CloseResources(l, sink, capture, sinkClose, captureClose).0;
      r == l.(live := r.live, counters := r.counters) && r.live <= l.live
  {
  }

  lemma StopKeeps(l: Life, orphans: set<Writer>, f: StopFaults)
    requires LifeInv(l, orphans)
    ensures LifeInv(StopEffect(l, f).0, orphans)
  {
    hide CloseResources;
    if !l.state.STOPPED? {
      CloseFrame(Unregister(l, f).0, l.sink, l.capture, f.sinkClose, f.captureClose);
    }
  }

  /**
   * A stop ends in the stopped state exactly when every writer the adapter owned has
   * exited; otherwise it keeps them for a retry and refuses to start again.
   */
  lemma StopSettles(l: Life, orphans: set<Writer>, f: StopFaults)
    requires LifeInv(l, orphans)
    ensures var (l', _) := StopEffect(l, f);
      && (l'.state.STOPPED? <==> l.Owned() !! l'.live)
      && (!l'.state.STOPPED? ==> l'.state.STOPPING? && l'.Owned() == l.Owned())
      && forall enabled, wantsCapture, g :: !l'.state.STOPPED? ==>
           StartEffect(l', enabled, wantsCapture, g) == (l', REFUSED_CALL)
  {
    hide CloseResources;
    if !l.state.STOPPED? {
      CloseFrame(Unregister(l, f).0, l.sink, l.capture, f.sinkClose, f.captureClose);
    }
  }

  lemma {:induction false} RunKeeps(calls: seq<Call>)
    ensures LifeInv(Run(IDLE, calls), Orphans(IDLE, calls))
  {
    hide LifeInv;
    hide Forgotten;
    hide StartEffect;
    hide StopEffect;
    if calls == [] {
      IdleInv();
    } else {
      var n := |calls| - 1;
      RunKeeps(calls[..n]);
      var l, orphans := Run(IDLE, calls[..n]), Orphans(IDLE, calls[..n]);
      match calls[n]
      case StartCall(_, _, _) => StartKeeps(l, orphans, calls[n]);
      case StopCall(f) =>
        StopKeeps(l, orphans, f);
        NothingForgotten(l, calls[n]);
        assert orphans + {} == orphans;
      case WriterExits(w) =>
        ExitKeeps(l, orphans, w);
        NothingForgotten(l, calls[n]);
        assert orphans + {} == orphans;
    }
  }

  lemma IdleInv()
    ensures LifeInv(IDLE, {})
  {
  }

  lemma ExitKeeps(l: Life, orphans: set<Writer>, w: Writer)
    requires LifeInv(l, orphans)
    ensures LifeInv(l.(live := l.live - {w}), orphans)
  {
  }

  lemma NothingForgotten(l: Life, c: Call)
    requires !c.StartCall?
    ensures Forgotten(l, c) == {}
  {
  }

  /** A start that fails after building a writer, with a close of a built writer that times out. */
  predicate Leaks(l: Life, c: Call) {
    && c.StartCall? && c.enabled && l.state.STOPPED? && c.startFaults.contractOk && c.startFaults.sinkBuilt
    && (if c.wantsCapture && !c.startFaults.captureBuilt then c.startFaults.sinkClose.TIMED_OUT?
        else !c.startFaults.registers
             && (c.startFaults.sinkClose.TIMED_OUT? || (c.wantsCapture && c.startFaults.captureClose.TIMED_OUT?)))
  }

  /** A call forgets a live writer exactly when it is such a start. */
  lemma ForgetsExactly(l: Life, c: Call)
    requires Below(l.live, l.created)
    ensures Forgotten(l, c) != {} <==> Leaks(l, c)
  {
    if c.StartCall? && c.enabled && l.state.STOPPED? && c.startFaults.contractOk && c.startFaults.sinkBuilt {
      var f, sink := c.startFaults, l.created;
      assert sink !in l.live && sink + 1 !in l.live;
      assert f.sinkClose.TIMED_OUT? && (!f.registers || (c.wantsCapture && !f.captureBuilt)) ==>
        sink in Next(l, c).live;
      assert !f.registers && c.wantsCapture && f.captureBuilt && f.captureClose.TIMED_OUT? ==>
        sink + 1 in Next(l, c).live;
    }
  }

  lemma InvBelow(l: Life, orphans: set<Writer>)
    requires LifeInv(l, orphans)
    ensures Below(l.live, l.created)
  {
  }

  /** A run has left orphans exactly when one of its calls leaked. */
  lemma {:induction false} OrphansExactly(calls: seq<Call>)
    ensures Orphans(IDLE, calls) != {} <==> exists k :: 0 <= k < |calls| && Leaks(Run(IDLE, calls[..k]), calls[k])
  {
    hide LifeInv;
    hide Forgotten;
    hide Leaks;
    hide Next;
    if calls != [] {
      var n := |calls| - 1;
      OrphansExactly(calls[..n]);
      RunKeeps(calls[..n]);
      InvBelow(Run(IDLE, calls[..n]), Orphans(IDLE, calls[..n]));
      ForgetsExactly(Run(IDLE, calls[..n]), calls[n]);
      forall k | 0 <= k < n ensures calls[..n][..k] == calls[..k] && calls[..n][k] == calls[k] {
      }
    }
  }

  /**
   * In a stopped adapter every live writer is one that a failed start forgot; and if no
   * start of the run leaked, a stopped adapter has no live writer.
   */
  lemma StoppedMeansDrained(calls: seq<Call>)
    requires Run(IDLE, calls).state.STOPPED?
    ensures Run(IDLE, calls).live <= Orphans(IDLE, calls)
    ensures (forall k :: 0 <= k < |calls| ==> !Leaks(Run(IDLE, calls[..k]), calls[k])) ==> Run(IDLE, calls).live == {}
  {
    hide Leaks;
    hide Run;
    hide Orphans;
    RunKeeps(calls);
    OrphansExactly(calls);
  }

  /**
   * "Stopped implies no live writer" fails after a failed registration whose close times
   * out: the adapter reports itself stopped and may start again on the same destination.
   */
  lemma StoppedWithLiveWriter()
    ensures var failed := StartCall(true, false, StartFaults(true, true, true, false, TIMED_OUT, CLOSED));
      var again := StartCall(true, false, StartFaults(true, true, true, true, CLOSED, CLOSED));
      && Run(IDLE, [failed]).state.STOPPED? && Run(IDLE, [failed]).live != {}
      && Run(IDLE, [failed, again]).state.ACTIVE? && |Run(IDLE, [failed, again]).live| == 2
  {
    var failed := StartCall(true, false, StartFaults(true, true, true, false, TIMED_OUT, CLOSED));
    var again := StartCall(true, false, StartFaults(true, true, true, true, CLOSED, CLOSED));
    assert [failed][..0] == [] && [failed, again][..1] == [failed];
    assert 0 in Run(IDLE, [failed]).live;
    assert Run(IDLE, [failed]).live == {0};
    assert Run(IDLE, [failed, again]).live == {0, 1};
  }

  // ----- what the host is told, and what is counted -----

  /**
   * A start succeeds exactly when the adapter is enabled and stopped and every foreign
   * answer is good; then it is active, owns what it built and counts a registration.
   */
  lemma StartsExactly(l: Life, enabled: bool, wantsCapture: bool, f: StartFaults)
    ensures var (l', result) := StartEffect(l, enabled, wantsCapture, f);
      && (result.STARTED? <==>
            enabled && l.state.STOPPED? && f.contractOk && f.sinkBuilt && (wantsCapture ==> f.captureBuilt) &&
              f.registers)
      && (result.STARTED? ==>
            && l'.state.ACTIVE? && l'.bound && l'.normalizer && l'.sink.Some? && l'.sink.value in l'.live
            && (l'.capture.Some? <==> wantsCapture) && (wantsCapture ==> l'.capture.value in l'.live))
      && l'.counters.registrations == l.counters.registrations + (if result.STARTED? then 1 else 0)
  {
  }

  function One(w: Option<Writer>, given: CloseAnswer, answer: CloseAnswer): nat {
    if w.Some? && given == answer then 1 else 0
  }

  /** How many of the owned writers get this answer when they are closed. */
  function Answers(l: Life, f: StopFaults, answer: CloseAnswer): nat {
    One(l.capture, f.captureClose, answer) + One(l.sink, f.sinkClose, answer)
  }

  lemma CloseReports(l: Life, w: Option<Writer>, given: CloseAnswer)
    ensures var (l', ok) := CloseWriter(l, w, given);
      && (ok <==> One(w, given, TIMED_OUT) + One(w, given, FAILED) == 0)
      && l'.counters == l.counters.(shutdownTimeouts := l.counters.shutdownTimeouts + One(w, given, TIMED_OUT),
                                    cleanupErrors := l.counters.cleanupErrors + One(w, given, FAILED))
  {
  }

  lemma SettleFrame(l: Life, f: StopFaults)
    ensures Settle(l, f).counters == l.counters
  {
  }

  /**
   * A stop returns true exactly when the adapter was stopped already, or unregistering and
   * the close of every owned writer succeeded. Each owned writer that timed out counts one
   * shutdown timeout, each whose close raised one cleanup error, and a failed
   * unregistration, which is tried only while bound, one unregister error.
   */
  lemma StopReports(l: Life, orphans: set<Writer>, f: StopFaults)
    requires LifeInv(l, orphans)
    ensures var (l', ok) := StopEffect(l, f);
      && (ok <==>
            l.state.STOPPED? || ((l.bound ==> f.unregisters) && Answers(l, f, TIMED_OUT) + Answers(l, f, FAILED) == 0))
      && l'.counters.shutdownTimeouts == l.counters.shutdownTimeouts + Answers(l, f, TIMED_OUT)
      && l'.counters.cleanupErrors == l.counters.cleanupErrors + Answers(l, f, FAILED)
      && l'.counters.unregisterErrors == l.counters.unregisterErrors + (if l.bound && !f.unregisters then 1 else 0)
      && l'.counters.registrations == l.counters.registrations
  {
    hide CloseWriter;
    hide Settle;
    if !l.state.STOPPED? {
      var l1 := Unregister(l, f).0;
      CloseReports(l1, l.capture, f.captureClose);
      var l2 := CloseWriter(l1, l.capture, f.captureClose).0;
      CloseReports(l2, l.sink, f.sinkClose);
      SettleFrame(CloseWriter(l2, l.sink, f.sinkClose).0, f);
    }
  }

  // ----- the object that performs these steps -----

  class KVTransferHostAdapter {
    const enabled: bool
    const wantsCapture: bool
    const config: N.Config
    var state: AdapterState
    var bound: bool
    var normalizer: N.LifecycleNormalizer?
    var sink: Option<Writer>
    var capture: Option<Writer>
    var counters: LifeCounters
    var observations: Counters
    var live: set<Writer>
    var created: nat

    ghost function Lifecycle(): Life
      reads this
    {
      Life(state, bound, normalizer != null, sink, capture, counters, live, created)
    }

    /** What an observation meets; without a normalizer the state shown is one that nothing has used. */
    ghost function OnPath(): Path
      reads this, normalizer
    {
      Path(state.ACTIVE?, normalizer != null && sink.Some?,
           if normalizer == null then N.Initial(config) else normalizer.Abstract(), observations)
    }

    constructor (enabled: bool, wantsCapture: bool, config: N.Config)
      requires config.Valid()
      ensures Lifecycle() == IDLE && observations == Counters(0, 0, 0, 0, 0, 0)
      ensures this.enabled == enabled && this.wantsCapture == wantsCapture && this.config == config
    {
      this.enabled, this.wantsCapture, this.config := enabled, wantsCapture, config;
      state, bound, normalizer, sink, capture := STOPPED, false, null, None, None;
      counters, observations := LifeCounters(0, 0, 0, 0), Counters(0, 0, 0, 0, 0, 0);
      live, created := {}, 0;
    }

    method SpawnWriter() returns (w: Writer)
      modifies this`live, this`created
      ensures w == old(created) && created == w + 1 && live == old(live) + {w}
    {
      w := created;
      created, live := created + 1, live + {w};
    }

    method CloseOne(w: Option<Writer>, answer: CloseAnswer) returns (ok: bool)
      modifies this`live, this`counters
      ensures (Lifecycle(), ok) == CloseWriter(old(Lifecycle()), w, answer)
    {
      if w.None? {
        return true;
      }
      match answer
      case CLOSED =>
        live := live - {w.value};
        ok := true;
      case TIMED_OUT =>
        counters := counters.(shutdownTimeouts := counters.shutdownTimeouts + 1);
        ok := false;
      case FAILED =>
        live := live - {w.value};
        counters := counters.(cleanupErrors := counters.cleanupErrors + 1);
        ok := false;
    }

    /** Closes the normalizer, then the capture, then the sink. */
    method ClosePreparedResources(n: N.LifecycleNormalizer, sink: Option<Writer>, capture: Option<Writer>,
                                  sinkClose: CloseAnswer, captureClose: CloseAnswer)
      returns (ok: bool)
      modifies this`live, this`counters, n
      ensures (Lifecycle(), ok) == CloseResources(old(Lifecycle()), sink, capture, sinkClose, captureClose)
      ensures n.Abstract() == N.CloseState(old(n.Abstract()))
    {
      n.Close();
      var captureOk := CloseOne(capture, captureClose);
      var sinkOk := CloseOne(sink, sinkClose);
      ok := captureOk && sinkOk;
    }

    method PrepareResources(n: N.LifecycleNormalizer, f: StartFaults)
      returns (resources: Option<(Writer, Option<Writer>)>)
      modifies this`live, this`created, this`counters, n
      ensures (Lifecycle(), resources) == Prepare(old(Lifecycle()), wantsCapture, f)
      ensures resources.Some? ==> n.Abstract() == old(n.Abstract())
    {
      if !f.sinkBuilt {
        n.Close();
        return None;
      }
      var newSink := SpawnWriter();
      if !wantsCapture {
        return Some((newSink, None));
      }
      if !f.captureBuilt {
        var _ := ClosePreparedResources(n, Some(newSink), None, f.sinkClose, f.captureClose);
        return None;
      }
      var newCapture := SpawnWriter();
      resources := Some((newSink, Some(newCapture)));
    }

    method RegisterWithHost(n: N.LifecycleNormalizer, newSink: Writer, newCapture: Option<Writer>, f: StartFaults)
      returns (result: StartResult)
      requires state.STOPPED? && n != normalizer
      modifies this, n
      ensures (Lifecycle(), result) == Register(old(Lifecycle()), newSink, newCapture, f)
      ensures result.STARTED? ==> normalizer == n && n.Abstract() == old(n.Abstract())
      ensures observations == old(observations)
    {
      state, normalizer, sink, capture := STARTING, n, Some(newSink), newCapture;
      if !f.registers {
        hide CloseResources;
        var _ := ClosePreparedResources(n, Some(newSink), newCapture, f.sinkClose, f.captureClose);
        state, normalizer, sink, capture := STOPPED, null, None, None;
        return REGISTRATION_ERROR;
      }
      bound, state := true, ACTIVE;
      counters := counters.(registrations := counters.registrations + 1);
      result := STARTED;
    }

    method Start(f: StartFaults) returns (result: StartResult)
      requires config.Valid()
      modifies this
      ensures (Lifecycle(), result) == StartEffect(old(Lifecycle()), enabled, wantsCapture, f)
      ensures result.STARTED? ==> normalizer != null && fresh(normalizer) && normalizer.Abstract() == N.Initial(config)
      ensures observations == old(observations)
    {
      hide Prepare;
      hide Register;
      if !enabled || !state.STOPPED? {
        return REFUSED_CALL;
      }
      if !f.contractOk {
        return CONTRACT_ERROR;
      }
      var n := new N.LifecycleNormalizer(config);
      var resources := PrepareResources(n, f);
      if resources.None? {
        return RESOURCE_ERROR;
      }
      result := RegisterWithHost(n, resources.value.0, resources.value.1, f);
    }

    method UnregisterFromHost(f: StopFaults) returns (ok: bool)
      modifies this`state, this`counters
      ensures (Lifecycle(), ok) == Unregister(old(Lifecycle()), f)
    {
      state := STOPPING;
      ok := !bound || f.unregisters;
      if !ok {
        counters := counters.(unregisterErrors := counters.unregisterErrors + 1);
      }
    }

    /** The threads run on between the close and this check. */
    method LetGo(f: StopFaults)
      modifies this
      ensures Lifecycle() == Settle(old(Lifecycle()), f)
      ensures observations == old(observations)
    {
      bound := false;
      if sink.Some? && !f.sinkLingers {
        live := live - {sink.value};
      }
      if capture.Some? && !f.captureLingers {
        live := live - {capture.value};
      }
      if (capture.Some? && capture.value in live) || (sink.Some? && sink.value in live) {
        assert Lifecycle().Owned() * live != {} by {
          var w := if capture.Some? && capture.value in live then capture.value else sink.value;
          assert w in Lifecycle().Owned() * live;
        }
      } else {
        normalizer, sink, capture, state := null, None, None, STOPPED;
      }
    }

    method Stop(f: StopFaults) returns (ok: bool)
      modifies this, normalizer
      ensures (Lifecycle(), ok) == StopEffect(old(Lifecycle()), f)
      ensures old(normalizer) != null && old(!state.STOPPED? && sink.Some?) ==>
        old(normalizer).Abstract() == N.CloseState(old(normalizer.Abstract()))
      ensures observations == old(observations)
    {
      hide CloseResources;
      hide Settle;
      hide Unregister;
      if state.STOPPED? {
        return true;
      }
      var unregisterOk := UnregisterFromHost(f);
      var closeOk := true;
      if normalizer != null && sink.Some? {
        closeOk := ClosePreparedResources(normalizer, sink, capture, f.sinkClose, f.captureClose);
      }
      LetGo(f);
      ok := unregisterOk && closeOk;
    }

    /** Normalizes one source record and offers the result to the sink; never raises. */
    method Observe(source: N.Source, answer: SinkAnswer) returns (emitted: bool)
      modifies this`observations, normalizer
      ensures (OnPath(), emitted) == ObservationPath.Observe(old(OnPath()), source, answer)
    {
      hide N.Step;
      if !state.ACTIVE? {
        observations := observations.(inactiveDropped := observations.inactiveDropped + 1);
        return false;
      }
      observations := observations.(received := observations.received + 1);
      if normalizer == null || sink.None? {
        observations := observations.(callbackErrors := observations.callbackErrors + 1);
        return false;
      }
      var observation := normalizer.Normalize(source);
      if observation.None? {
        observations := observations.(normalizationDropped := observations.normalizationDropped + 1);
        return false;
      }
      match answer
      case ACCEPTED =>
        observations := observations.(emitted := observations.emitted + 1);
        emitted := true;
      case REFUSED =>
        observations := observations.(sinkDropped := observations.sinkDropped + 1);
        emitted := false;
      case RAISED =>
        observations := observations.(callbackErrors := observations.callbackErrors + 1);
        emitted := false;
    }
  }
}
