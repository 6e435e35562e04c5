/** What the verdict on a request depends on, and which of the two validators decides it. */
module ValidationResults {
  import opened Basics
  import opened Schema
  import opened RestoreChain
  import opened ChainState
  import opened CorrelatedChain
  import opened ChainResults
  import opened Validation

  // ----- the records of one request -----

  predicate Concerns(record: Record, req: string) {
    match record
    case Canonical(o) => o.identity.requestId == req
    case CorrelatedRecord(link) => link.requestId == req
    case UnjoinedFact => false
  }

  /** The records of the request, of either kind, in order. */
  function OfRequest(records: seq<Record>, req: string): (own: seq<Record>)
    ensures ValidRecords(records) ==> ValidRecords(own)
    ensures forall record :: record in own <==> record in records && Concerns(record, req)
  {
    if records == [] then []
    else
      var rest, last := OfRequest(records[..|records| - 1], req), records[|records| - 1];
      if Concerns(last, req) then rest + [last] else rest
  }

  predicate HasLink(records: seq<Record>, req: string) {
    exists record :: record in records && record.CorrelatedRecord? && record.link.requestId == req
  }

  lemma AppendOne(records: seq<Record>, record: Record)
    ensures CorrelatedOf(records + [record]) ==
      CorrelatedOf(records) + (if record.CorrelatedRecord? then [record.link] else [])
    ensures CanonicalOf(records + [record]) ==
      CanonicalOf(records) + (if record.Canonical? then [record.observation] else [])
  {
    assert (records + [record])[..|records|] == records;
  }

  lemma AppendLast(a: seq<Record>, front: seq<Record>, last: Record)
    requires CorrelatedOf(a + front) == CorrelatedOf(a) + CorrelatedOf(front)
    requires CanonicalOf(a + front) == CanonicalOf(a) + CanonicalOf(front)
    ensures CorrelatedOf(a + (front + [last])) == CorrelatedOf(a) + CorrelatedOf(front + [last])
    ensures CanonicalOf(a + (front + [last])) == CanonicalOf(a) + CanonicalOf(front + [last])
  {
    hide CorrelatedOf;
    hide CanonicalOf;
    AppendOne(a + front, last);
    AppendOne(front, last);
    assert a + (front + [last]) == (a + front) + [last];
  }

  /** Reading a list of artifacts: the records of each kind come artifact after artifact, in order. */
  lemma {:induction false} KindsConcatenate(a: seq<Record>, b: seq<Record>)
    ensures CorrelatedOf(a + b) == CorrelatedOf(a) + CorrelatedOf(b)
    ensures CanonicalOf(a + b) == CanonicalOf(a) + CanonicalOf(b)
  {
    if b == [] {
      assert a + b == a;
    } else {
      var front, last := b[..|b| - 1], b[|b| - 1];
      KindsConcatenate(a, front);
      AppendLast(a, front, last);
      assert b == front + [last];
    }
  }

  /** Other requests' records are not among the links or observations that decide this one. */
  lemma {:induction false} OwnRecords(records: seq<Record>, req: string)
    requires ValidRecords(records)
    ensures CorrelatedOf(OfRequest(records, req)) == Matching(CorrelatedOf(records), req)
    ensures ChainRun(CanonicalOf(OfRequest(records, req)), req) == ChainRun(CanonicalOf(records), req)
  {
    hide RelevantStep;
    hide KVTransferObservation.Valid;
    if records != [] {
      var n := |records| - 1;
      var first, last := records[..n], records[n];
      OwnRecords(first, req);
      AppendOne(first, last);
      AppendOne(OfRequest(first, req), last);
      assert records == first + [last];
      match last
      case Canonical(o) =>
        assert last.Valid();
        ChainRunAppend(CanonicalOf(first), o, req);
        if Concerns(last, req) { ChainRunAppend(CanonicalOf(OfRequest(first, req)), o, req); }
      case CorrelatedRecord(link) =>
        MatchingAppend(CorrelatedOf(first), link, req);
      case UnjoinedFact =>
    }
  }

  lemma {:induction false} MatchingAll(cs: seq<Corr>, req: string)
    requires forall c :: c in cs ==> c.requestId == req
    ensures Matching(cs, req) == cs
  {
    if cs != [] {
      var n := |cs| - 1;
      assert forall c :: c in cs[..n] ==> c in cs;
      MatchingAll(cs[..n], req);
      assert cs == cs[..n] + [cs[n]];
    }
  }

  lemma {:induction false} InCorrelated(records: seq<Record>)
    ensures forall c :: c in CorrelatedOf(records) <==> CorrelatedRecord(c) in records
  {
    if records != [] {
      var n := |records| - 1;
      InCorrelated(records[..n]);
      AppendOne(records[..n], records[n]);
      assert records == records[..n] + [records[n]];
    }
  }

  /** Correlated records decide exactly when the request has a link. */
  lemma LinkDecides(records: seq<Record>, req: string)
    ensures HasCorrelated(records, req) <==> HasLink(records, req)
  {
    if HasCorrelated(records, req) {
      var i :| 0 <= i < |records| && records[i].CorrelatedRecord? && records[i].link.requestId == req;
      assert records[i] in records;
    }
    if HasLink(records, req) {
      var record :| record in records && record.CorrelatedRecord? && record.link.requestId == req;
      var i :| 0 <= i < |records| && records[i] == record;
    }
  }

  lemma LinksKept(records: seq<Record>, req: string)
    requires ValidRecords(records)
    ensures HasLink(OfRequest(records, req), req) <==> HasLink(records, req)
  {
    OwnRecords(records, req);
    InMatching(CorrelatedOf(records), req);
    InCorrelated(records);
    InCorrelated(OfRequest(records, req));
    if HasLink(records, req) {
      var record :| record in records && record.CorrelatedRecord? && record.link.requestId == req;
      assert CorrelatedRecord(record.link) in OfRequest(records, req);
    }
  }

  /** The verdict on a request depends on the records of that request alone. */
  lemma OtherRequestsIrrelevant(records: seq<Record>, req: string)
    requires ValidRecords(records)
    ensures RestoreVerdict(records, req) == RestoreVerdict(OfRequest(records, req), req)
  {
    hide ChainProven;
    hide OfRequest;
    hide HasLink;
    LinkDecides(records, req);
    LinkDecides(OfRequest(records, req), req);
    LinksKept(records, req);
    OwnRecords(records, req);
    InMatching(CorrelatedOf(records), req);
    MatchingAll(Matching(CorrelatedOf(records), req), req);
  }

  /** So two lists of records with the same records of the request get the same verdict on it. */
  lemma SameOwnRecords(a: seq<Record>, b: seq<Record>, req: string)
    requires ValidRecords(a) && ValidRecords(b) && OfRequest(a, req) == OfRequest(b, req)
    ensures RestoreVerdict(a, req) == RestoreVerdict(b, req)
  {
    OtherRequestsIrrelevant(a, req);
    OtherRequestsIrrelevant(b, req);
  }

  /**
   * The validator end to end. A request without a link is accepted with `n` episodes exactly
   * when its observations are a complete chain of `n` episodes that no table of the
   * validator's normalizer overflows on, which up to 4096 restores is every complete chain; a
   * request with a link exactly when its links are proven, `n` episodes of them.
   */
  lemma VerdictMeans(records: seq<Record>, req: string, n: nat)
    requires ValidRecords(records)
    ensures !HasLink(records, req) ==> var os := CanonicalOf(records);
      && (RestoreVerdict(records, req) == Some(n) <==>
            CompleteChain(os, req, n) && WithinCapacity(Relevant(os, req)))
      && (|StartedIn(Relevant(os, req))| <= LIMIT ==>
            (RestoreVerdict(records, req) == Some(n) <==> CompleteChain(os, req, n)))
    ensures HasLink(records, req) ==> var own := CorrelatedOf(OfRequest(records, req));
      (RestoreVerdict(records, req) == Some(n) <==>
        JobsOwned(own) && |Keys(own)| == n && forall k :: k in Keys(own) ==> EpisodeProven(Group(own, k)))
  {
    hide JobsOwned;
    hide EpisodeProven;
    hide CompleteChain;
    hide WithinCapacity;
    hide ChainVerdict;
    hide OfRequest;
    hide HasLink;
    LinkDecides(records, req);
    if !HasLink(records, req) {
      VerdictExact(CanonicalOf(records), req, n);
      if |StartedIn(Relevant(CanonicalOf(records), req))| <= LIMIT {
        VerdictOfBoundedChain(CanonicalOf(records), req, n);
      }
    } else {
      OwnRecords(records, req);
      LinkPresent(records, req);
    }
  }

  lemma LinkPresent(records: seq<Record>, req: string)
    requires ValidRecords(records) && HasLink(records, req)
    ensures CorrelatedOf(OfRequest(records, req)) != []
  {
    LinksKept(records, req);
    InCorrelated(OfRequest(records, req));
    var own := OfRequest(records, req);
    var record :| record in own && record.CorrelatedRecord? && record.link.requestId == req;
    assert CorrelatedRecord(record.link) in own;
    assert record.link in CorrelatedOf(own);
  }
}
