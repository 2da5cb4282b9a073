/** Changes of one order take effect one at a time and once each. */
module ChangeSerialisation {
  import opened Basics
  import opened Models
  import opened Outcomes
  import opened Projection
  import opened Validation
  import opened Steps
  import opened Arrival

  /** An accepted change whose effect is still open and not contradicted. */
  ghost predicate InFlight(facts: seq<Fact>, r: Request) {
    && r.command.IsChange() && r.decision.Accepted?
    && !Status(facts, r).conflict && !Status(facts, r).EffectSettled()
  }

  ghost predicate OneAtATime(j: Journal) {
    forall r, x ::
      r in j.requests && x in j.requests && r.orderId == x.orderId && InFlight(j.facts, r) && InFlight(j.facts, x)
      ==> r == x
  }

  ghost predicate IsEffect(f: Fact) { f.Amended? || f.Cancelled? }

  ghost predicate ConfirmedOnce(j: Journal) {
    forall i, k :: 0 <= i < k < |j.facts| && IsEffect(j.facts[i]) && IsEffect(j.facts[k]) ==>
      j.facts[i].requestId != j.facts[k].requestId
  }

  ghost predicate AmendmentsLower(j: Journal) {
    forall f :: f in j.facts && f.Amended? ==> f.qtyDelta <= 0
  }

  function ConfirmedAmend(facts: seq<Fact>, oid: Id): Request -> bool {
    (r: Request) => r.command.Amend? && r.decision.Accepted? && r.orderId == oid && Confirmed(facts, r.requestId)
  }

  /** The link version of an order counts its confirmed amend requests. */
  ghost predicate LinkCounts(j: Journal, oid: Id) {
    |Select(AmendOf(oid), j.facts)| == Total(One(ConfirmedAmend(j.facts, oid)), j.requests)
  }

  ghost predicate Serialised(j: Journal) {
    OneAtATime(j) && ConfirmedOnce(j) && AmendmentsLower(j) && forall oid :: LinkCounts(j, oid)
  }

  lemma InFlightEarlier(facts: seq<Fact>, later: seq<Fact>, r: Request)
    requires facts <= later && InFlight(later, r)
    ensures InFlight(facts, r)
  {
    hide Status;
    EvidenceMonotone(facts, later, r);
  }

  lemma OneAtATimeKept(j: Journal, s: Step)
    requires WellFormed(j) && Allowed(j, s) && OneAtATime(j)
    ensures OneAtATime(Commit(j, s))
  {
    hide WellFormed, CheckFact, InFlight, Status, View, CheckNew, AppliedVersion, CheckStopLink;
    var k := Commit(j, s);
    forall r, x | r in k.requests && x in k.requests && r.orderId == x.orderId
                  && InFlight(k.facts, r) && InFlight(k.facts, x)
      ensures r == x
    {
      InFlightEarlier(j.facts, k.facts, r);
      InFlightEarlier(j.facts, k.facts, x);
      if s.AddRequest? && r != x {
        FirstInFlightBlocks(j, s.request, if r == s.request then x else r);
      }
    }
  }

  /** While a change of the order is in flight no further change of it is admitted. */
  lemma FirstInFlightBlocks(j: Journal, c: Request, r: Request)
    requires Admissible(j, c) && c.command.IsChange() && r in j.requests && InFlight(j.facts, r)
    ensures r.orderId != c.orderId
  {
    hide Status, View, CheckNew, CheckStopLink, Initial;
    if r.orderId == c.orderId { OpenChangeBlocks(j, c.command, r); }
  }

  lemma OpenChangeBlocks(j: Journal, c: Command, r: Request)
    requires c.IsChange() && r in j.requests && IsOpenChange(j.facts, r, c.target)
    ensures CheckChange(j, c).Err?
  {
    hide Status, View, Initial;
    assert ChangePending(j, c.target);
  }

  /** A second confirmation of one request is refused. */
  lemma SecondEffectBlocked(j: Journal, f: Fact, g: Fact)
    requires IsEffect(f) && g in j.facts && ShowsEffect(g, f.requestId)
    ensures CheckEffect(j, f).Err?
  {
    hide LastBoundary;
    var found := AcceptedRequest(j, f.requestId);
    if found.Ok? {
      assert Confirmed(j.facts, found.value.requestId);
      if found.value.command.IsChange() { ConfirmedNeedsChange(j.facts, found.value); }
    }
  }

  lemma ConfirmedNeedsChange(facts: seq<Fact>, r: Request)
    requires Confirmed(facts, r.requestId) && r.command.IsChange()
    ensures Status(facts, r).effect == Some(CONFIRMED)
  {
    hide HasAcceptance, Confirmed, EffectRefused, Failed, Refused, HasFill, LastBoundary;
  }

  lemma EffectIsFirst(j: Journal, f: Fact, g: Fact)
    requires WellFormed(j) && CheckFact(j, f).Ok? && IsEffect(f) && g in j.facts && IsEffect(g)
    ensures f.requestId != g.requestId
  {
    hide WellFormed, CheckEffect, Status;
    if f.requestId == g.requestId { SecondEffectBlocked(j, f, g); }
  }

  lemma ConfirmedOnceKept(j: Journal, s: Step)
    requires WellFormed(j) && Allowed(j, s) && ConfirmedOnce(j)
    ensures ConfirmedOnce(Commit(j, s))
  {
    hide WellFormed, CheckFact, Admissible;
    var k := Commit(j, s);
    if s.AddFact? && IsEffect(s.fact) {
      forall i | 0 <= i < |j.facts| && IsEffect(j.facts[i]) ensures j.facts[i].requestId != s.fact.requestId {
        EffectIsFirst(j, s.fact, j.facts[i]);
      }
    }
  }

  lemma AmendmentsLowerKept(j: Journal, s: Step)
    requires WellFormed(j) && Allowed(j, s) && AmendmentsLower(j)
    ensures AmendmentsLower(Commit(j, s))
  {
    hide CheckFact, Admissible, DistinctRequests, DistinctEvents, AllCorrelated;
    if s.AddFact? && s.fact.Amended? {
      CheckedFactCorrelates(j, s.fact);
      var r :| r in j.requests && Matches(s.fact, r);
      assert Placed(j, r);
    }
  }

  lemma ConfirmedAppend(facts: seq<Fact>, f: Fact, rid: Id)
    ensures Confirmed(facts + [f], rid) <==> Confirmed(facts, rid) || ShowsEffect(f, rid)
  {
    assert forall g :: g in facts + [f] <==> g in facts || g == f;
    assert f in facts + [f];
    assert forall g :: g in facts ==> g in facts + [f];
  }

  /** A confirmed amendment raises the count of exactly one request, and only of its order. */
  lemma AmendmentCounts(j: Journal, f: Fact, oid: Id)
    requires WellFormed(j) && CheckFact(j, f).Ok? && LinkCounts(j, oid)
    requires forall g :: g in j.facts && IsEffect(g) && IsEffect(f) ==> g.requestId != f.requestId
    ensures LinkCounts(j.(facts := j.facts + [f]), oid)
  {
    hide CheckFact, WellFormed, Total, ConfirmedAmend, Select;
    SelectAppend(AmendOf(oid), j.facts, f);
    CheckedFactCorrelates(j, f);
    WellFormedIsDistinct(j);
    if AmendOf(oid)(f) { OneMoreConfirmed(j, f, oid); } else { SameConfirmed(j, f, oid); }
  }

  lemma WellFormedIsDistinct(j: Journal)
    requires WellFormed(j)
    ensures DistinctRequests(j)
  {
  }

  lemma OneMoreConfirmed(j: Journal, f: Fact, oid: Id)
    requires DistinctRequests(j) && Correlated(j, f) && AmendOf(oid)(f)
    requires forall g :: g in j.facts && IsEffect(g) ==> g.requestId != f.requestId
    ensures Total(One(ConfirmedAmend(j.facts + [f], oid)), j.requests) == Total(One(ConfirmedAmend(j.facts, oid)), j.requests) + 1
  {
    hide Total, Confirmed;
    var later := j.facts + [f];
    var w, v := One(ConfirmedAmend(j.facts, oid)), One(ConfirmedAmend(later, oid));
    var r :| r in j.requests && Matches(f, r);
    var i :| 0 <= i < |j.requests| && j.requests[i] == r;
    Unconfirmed(j.facts, f);
    ConfirmedAppend(j.facts, f, r.requestId);
    forall k | 0 <= k < |j.requests| && k != i ensures v(j.requests[k]) == w(j.requests[k]) {
      assert j.requests[k].requestId != r.requestId;
      ConfirmedAppend(j.facts, f, j.requests[k].requestId);
    }
    TotalFlip(w, v, j.requests, i);
  }

  lemma Unconfirmed(facts: seq<Fact>, f: Fact)
    requires IsEffect(f) && forall g :: g in facts && IsEffect(g) ==> g.requestId != f.requestId
    ensures !Confirmed(facts, f.requestId)
  {
  }

  lemma SameConfirmed(j: Journal, f: Fact, oid: Id)
    requires DistinctRequests(j) && Correlated(j, f) && !AmendOf(oid)(f)
    ensures Total(One(ConfirmedAmend(j.facts + [f], oid)), j.requests) == Total(One(ConfirmedAmend(j.facts, oid)), j.requests)
  {
    hide Total, Confirmed, DistinctRequests;
    var w, v := One(ConfirmedAmend(j.facts, oid)), One(ConfirmedAmend(j.facts + [f], oid));
    forall r | r in j.requests ensures v(r) == w(r) {
      ConfirmedAppend(j.facts, f, r.requestId);
      if f.NamesRequest() && f.requestId == r.requestId {
        var x :| x in j.requests && Matches(f, x);
        SameRequest(j, r, x);
      }
    }
    TotalEq(w, v, j.requests);
  }

  lemma LinkCountsKept(j: Journal, s: Step, oid: Id)
    requires WellFormed(j) && Allowed(j, s) && LinkCounts(j, oid)
    ensures LinkCounts(Commit(j, s), oid)
  {
    hide WellFormed, CheckFact, CheckCommand, CheckStopLink, Total, Select, Confirmed;
    if s.AddFact? {
      forall g | g in j.facts && IsEffect(g) && IsEffect(s.fact) ensures g.requestId != s.fact.requestId {
        EffectIsFirst(j, s.fact, g);
      }
      AmendmentCounts(j, s.fact, oid);
    }
    if s.AddRequest? {
      NewRequestUnconfirmed(j, s.request);
      TotalAppend(One(ConfirmedAmend(j.facts, oid)), j.requests, s.request);
    }
  }

  lemma NewRequestUnconfirmed(j: Journal, r: Request)
    requires WellFormed(j) && Admissible(j, r)
    ensures !Confirmed(j.facts, r.requestId)
  {
    hide WellFormed, Admissible;
    UntouchedRequest(j, r);
    assert forall f :: f in j.facts ==> !ShowsEffect(f, r.requestId);
  }

  lemma SerialisedKept(j: Journal, s: Step)
    requires WellFormed(j) && Allowed(j, s) && Serialised(j)
    ensures Serialised(Commit(j, s))
  {
    hide WellFormed, Allowed, Commit, OneAtATime, ConfirmedOnce, AmendmentsLower, LinkCounts;
    OneAtATimeKept(j, s);
    ConfirmedOnceKept(j, s);
    AmendmentsLowerKept(j, s);
    forall oid ensures LinkCounts(Commit(j, s), oid) { LinkCountsKept(j, s, oid); }
  }

  /* ----- changes follow evidence ----- */

  ghost predicate Evidenced(facts: seq<Fact>, r: Request) { Status(facts, r).positiveEvidence }

  /** Whatever order has a change has been accepted or executed at the broker. */
  ghost predicate ChangesFollowEvidence(j: Journal) {
    forall x, r :: x in j.requests && r in j.requests && x.command.IsChange() && r.command.New? && r.orderId == x.orderId ==>
      Evidenced(j.facts, r)
  }

  lemma ObservedIsEvidenced(j: Journal, r: Request, f: Fact)
    requires AllCorrelated(j) && ChangesFollowEvidence(j)
    requires r in j.requests && r.command.New? && f in j.facts && Observes(f, r.orderId)
    ensures Evidenced(j.facts, r)
  {
    hide LastBoundary;
    if f.Fill? {
      assert HasFill(j.facts, r.orderId);
    } else {
      assert Correlated(j, f);
      var x :| x in j.requests && Matches(f, x);
    }
  }

  /** An order with an active quantity shows evidence of its own. */
  lemma ActiveIsEvidenced(j: Journal, r: Request)
    requires WellFormed(j) && ChangesFollowEvidence(j) && r in j.requests && r.command.New?
    requires View(j.facts, r).active.Some? && View(j.facts, r).active.value > 0
    ensures Evidenced(j.facts, r)
  {
    hide WellFormed, ChangesFollowEvidence, Tied, Revived, CancelledToZero, Total, Latest, Select, Gather, Exposure;
    var obs := Observations(j.facts, r.orderId);
    if |obs| > 0 {
      assert obs[0] in obs;
      CorrelatedIn(j);
      ObservedIsEvidenced(j, r, obs[0]);
    }
  }

  lemma CorrelatedIn(j: Journal)
    requires WellFormed(j)
    ensures AllCorrelated(j)
  {
  }

  lemma NewChangeFollows(j: Journal, x: Request, r: Request)
    requires WellFormed(j) && ChangesFollowEvidence(j) && Admissible(j, x) && x.command.IsChange()
    requires r in j.requests && r.command.New? && r.orderId == x.orderId
    ensures Evidenced(j.facts, r)
  {
    hide WellFormed, ChangesFollowEvidence, View, Evidenced, CheckStopLink;
    Lookup(j, r);
    ActiveIsEvidenced(j, r);
  }

  lemma ChangesFollowEvidenceKept(j: Journal, s: Step)
    requires WellFormed(j) && Allowed(j, s) && ChangesFollowEvidence(j)
    ensures ChangesFollowEvidence(Commit(j, s))
  {
    hide WellFormed, CheckFact, Admissible, Evidenced, AppliedVersion;
    var k := Commit(j, s);
    forall x, r | x in k.requests && r in k.requests && x.command.IsChange() && r.command.New? && r.orderId == x.orderId
      ensures Evidenced(k.facts, r)
    {
      if r !in j.requests {
        NewOrderUnchanged(j, r, x);
      } else {
        if x !in j.requests { NewChangeFollows(j, x, r); }
        EvidenceStays(j.facts, k.facts, r);
      }
    }
  }

  lemma EvidenceStays(facts: seq<Fact>, later: seq<Fact>, r: Request)
    requires facts <= later
    ensures Evidenced(facts, r) ==> Evidenced(later, r)
  {
    hide Status;
    EvidenceMonotone(facts, later, r);
  }

  lemma NewOrderUnchanged(j: Journal, r: Request, x: Request)
    requires Admissible(j, r) && r.command.New? && x in j.requests
    ensures x.orderId != r.orderId
  {
  }
}
