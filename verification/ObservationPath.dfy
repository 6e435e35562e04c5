/** One observation on its way from the host through the normalizer into the sink. */
module ObservationPath {
  import N = Normalization

  /** What the sink does with a record. */
  datatype SinkAnswer = ACCEPTED | REFUSED | RAISED

  /** The adapter's counters, as far as observations move them. */
  datatype Counters = Counters(
    received: nat, emitted: nat, normalizationDropped: nat, sinkDropped: nat, inactiveDropped: nat, callbackErrors: nat)

  /** The part of the adapter that an observation meets; `ready` says its normalizer and sink are there. */
  datatype Path = Path(active: bool, ready: bool, norm: N.State, counters: Counters)

  /** One `observe` call: the adapter afterwards, and whether the record reached the sink. */
  function Observe(p: Path, src: N.Source, answer: SinkAnswer): (r: (Path, bool)) {
    var c := p.counters;
    if !p.active then (p.(counters := c.(inactiveDropped := c.inactiveDropped + 1)), false)
    else
      var c1 := c.(received := c.received + 1);
      if !p.ready then (p.(counters := c1.(callbackErrors := c1.callbackErrors + 1)), false)
      else
        var (norm, out) := N.Step(p.norm, src);
        var q := p.(norm := norm);
        if out.None? then (q.(counters := c1.(normalizationDropped := c1.normalizationDropped + 1)), false)
        else
          match answer
          case ACCEPTED => (q.(counters := c1.(emitted := c1.emitted + 1)), true)
          case REFUSED => (q.(counters := c1.(sinkDropped := c1.sinkDropped + 1)), false)
          case RAISED => (q.(counters := c1.(callbackErrors := c1.callbackErrors + 1)), false)
  }
}
