/** Request status projected from unique facts, with contradictory evidence retained
    (execution/outcomes.py). */
module Outcomes {
  import opened Basics
  import opened Models

  /** The transport strings; the four observed boundaries keep their own value. */
  datatype Phase = IntentPersisted | Observed(state: Boundary) | NotSent | RejectedByBroker | Acked

  datatype Effect = PENDING | UNKNOWN_EFFECT | CONFIRMED | REFUSED

  datatype RequestStatus = RequestStatus(
    transport: Phase, effect: Option<Effect>, conflict: bool,
    positiveEvidence: bool, failed: bool, rejected: bool)
  {
    predicate Unresolved() {
      || conflict
      || (transport.IntentPersisted? && positiveEvidence)
      || transport.Observed?
      || (transport.Acked? && effect in {Some(PENDING), Some(UNKNOWN_EFFECT)})
    }

    predicate EffectSettled() {
      !conflict && effect in {Some(CONFIRMED), Some(REFUSED)}
    }
  }

  predicate ShowsAcceptance(f: Fact, rid: Id) {
    (f.Ack? || f.Amended? || f.Cancelled? || f.EffectRejected?) && f.requestId == rid
  }

  predicate ShowsEffect(f: Fact, rid: Id) { (f.Amended? || f.Cancelled?) && f.requestId == rid }

  predicate HasAcceptance(facts: seq<Fact>, rid: Id) { exists f :: f in facts && ShowsAcceptance(f, rid) }
  predicate Confirmed(facts: seq<Fact>, rid: Id) { exists f :: f in facts && ShowsEffect(f, rid) }
  predicate EffectRefused(facts: seq<Fact>, rid: Id) { exists f :: f in facts && f.EffectRejected? && f.requestId == rid }
  predicate Failed(facts: seq<Fact>, rid: Id) { exists f :: f in facts && f.SendFailed? && f.requestId == rid }
  predicate Refused(facts: seq<Fact>, rid: Id) { exists f :: f in facts && f.Rejected? && f.requestId == rid }
  predicate HasFill(facts: seq<Fact>, oid: Id) { exists f :: f in facts && f.Fill? && f.orderId == oid }

  /** The last local boundary observed for the request, in journal order. */
  function LastBoundary(facts: seq<Fact>, rid: Id): Option<Boundary> {
    if |facts| == 0 then None
    else
      var f := facts[|facts| - 1];
      if f.Transport? && f.requestId == rid then Some(f.state) else LastBoundary(facts[..|facts| - 1], rid)
  }

  /** What the journal knows about one request. */
  datatype Evidence = Evidence(
    accepted: bool, confirmed: bool, effectRefused: bool, failed: bool, refused: bool,
    executed: bool, boundary: Option<Boundary>)

  function Gather(facts: seq<Fact>, r: Request): Evidence {
    Evidence(
      HasAcceptance(facts, r.requestId), Confirmed(facts, r.requestId), EffectRefused(facts, r.requestId),
      Failed(facts, r.requestId), Refused(facts, r.requestId),
      !r.command.IsChange() && HasFill(facts, r.orderId), LastBoundary(facts, r.requestId))
  }

  /** The status computed from the evidence, branch by branch as the source decides it. */
  function Judge(e: Evidence, changed: bool): RequestStatus {
    var transport :=
      if e.accepted then Acked
      else if e.refused then RejectedByBroker
      else if e.failed then NotSent
      else if e.boundary.Some? then Observed(e.boundary.value)
      else IntentPersisted;
    var effect :=
      if !changed then None
      else if e.confirmed then Some(CONFIRMED)
      else if e.failed || e.refused || e.effectRefused then Some(REFUSED)
      else if transport == Observed(UNKNOWN) || transport == Observed(RECONCILING) then Some(UNKNOWN_EFFECT)
      else Some(PENDING);
    var conflict :=
      || ((e.failed || e.refused) && (e.accepted || e.executed))
      || (e.failed && e.refused)
      || (e.confirmed && e.effectRefused);
    RequestStatus(transport, effect, conflict, e.accepted || e.executed, e.failed, e.refused)
  }

  function Status(facts: seq<Fact>, r: Request): RequestStatus {
    Judge(Gather(facts, r), r.command.IsChange())
  }

  /** The evidence after one more fact. */
  function Absorb(e: Evidence, f: Fact, r: Request): Evidence {
    Evidence(
      e.accepted || ShowsAcceptance(f, r.requestId),
      e.confirmed || ShowsEffect(f, r.requestId),
      e.effectRefused || (f.EffectRejected? && f.requestId == r.requestId),
      e.failed || (f.SendFailed? && f.requestId == r.requestId),
      e.refused || (f.Rejected? && f.requestId == r.requestId),
      e.executed || (!r.command.IsChange() && f.Fill? && f.orderId == r.orderId),
      if f.Transport? && f.requestId == r.requestId then Some(f.state) else e.boundary)
  }

  lemma GatherAppend(facts: seq<Fact>, f: Fact, r: Request)
    ensures Gather(facts + [f], r) == Absorb(Gather(facts, r), f, r)
  {
    assert (facts + [f])[..|facts|] == facts;
    assert forall g :: g in facts + [f] <==> g in facts || g == f;
    assert f in facts + [f];
    assert forall g :: g in facts ==> g in facts + [f];
  }

  /** More evidence: flags only rise, an observed boundary may move but never vanishes. */
  ghost predicate Rises(e: Evidence, d: Evidence) {
    && (e.accepted ==> d.accepted) && (e.confirmed ==> d.confirmed) && (e.effectRefused ==> d.effectRefused)
    && (e.failed ==> d.failed) && (e.refused ==> d.refused) && (e.executed ==> d.executed)
    && (e.boundary.Some? ==> d.boundary.Some?)
  }

  lemma AbsorbRises(start: Evidence, e: Evidence, f: Fact, r: Request)
    requires Rises(start, e)
    ensures Rises(start, Absorb(e, f, r))
  {
  }

  lemma {:induction false} GatherRises(facts: seq<Fact>, more: seq<Fact>, r: Request)
    ensures Rises(Gather(facts, r), Gather(facts + more, r))
  {
    if |more| == 0 {
      assert facts + more == facts;
    } else {
      var n := |more| - 1;
      var sofar := facts + more[..n];
      GatherRises(facts, more[..n], r);
      GatherAppend(sofar, more[n], r);
      AbsorbRises(Gather(facts, r), Gather(sofar, r), more[n], r);
      assert facts + more == sofar + [more[n]];
    }
  }

  function Rank(p: Phase): nat {
    match p
    case IntentPersisted => 0
    case Observed(_) => 1
    case NotSent => 2
    case RejectedByBroker => 3
    case Acked => 4
  }

  /** Evidence is never undone by whatever arrives later: transport never falls back, a conflict,
      positive evidence, a failure or a rejection never clears, a confirmed effect stays confirmed,
      and a settled effect becomes unsettled only by raising a conflict. */
  lemma EvidenceMonotone(facts: seq<Fact>, later: seq<Fact>, r: Request)
    requires facts <= later
    ensures var s, t := Status(facts, r), Status(later, r);
            && Rank(s.transport) <= Rank(t.transport)
            && (s.conflict ==> t.conflict)
            && (s.positiveEvidence ==> t.positiveEvidence)
            && (s.failed ==> t.failed) && (s.rejected ==> t.rejected)
            && (s.effect == Some(CONFIRMED) ==> t.effect == Some(CONFIRMED))
            && (s.EffectSettled() ==> t.EffectSettled() || t.conflict)
  {
    GatherRises(facts, later[|facts|..], r);
    assert facts + later[|facts|..] == later;
  }

  /** Evidence about other requests and other orders does not move a request. */
  predicate Concerns(f: Fact, r: Request) {
    (f.NamesRequest() && f.requestId == r.requestId) || (f.Fill? && !r.command.IsChange() && f.orderId == r.orderId)
  }

  lemma UnconcernedStatus(facts: seq<Fact>, f: Fact, r: Request)
    requires !Concerns(f, r)
    ensures Gather(facts + [f], r) == Gather(facts, r)
  {
    GatherAppend(facts, f, r);
  }

  /** A request that no fact concerns is still an unclaimed intention. */
  lemma UntouchedStatus(facts: seq<Fact>, r: Request)
    requires forall f :: f in facts ==> !Concerns(f, r)
    ensures Gather(facts, r) == Evidence(false, false, false, false, false, false, None)
  {
    NoBoundary(facts, r);
  }

  lemma {:induction false} NoBoundary(facts: seq<Fact>, r: Request)
    requires forall f :: f in facts ==> !Concerns(f, r)
    ensures LastBoundary(facts, r.requestId) == None
  {
    if |facts| > 0 {
      assert facts[|facts| - 1] in facts;
      NoBoundary(facts[..|facts| - 1], r);
    }
  }

  lemma {:induction false} BoundaryWitness(facts: seq<Fact>, rid: Id)
    ensures LastBoundary(facts, rid).Some? <==> exists f :: f in facts && f.Transport? && f.requestId == rid
  {
    if |facts| > 0 {
      var n := |facts| - 1;
      BoundaryWitness(facts[..n], rid);
      assert facts == facts[..n] + [facts[n]];
    }
  }

  /** Everything but the boundary is a set-like property of the facts. */
  lemma GatherPermuted(facts: seq<Fact>, shuffled: seq<Fact>, r: Request)
    requires multiset(facts) == multiset(shuffled)
    ensures var e, d := Gather(facts, r), Gather(shuffled, r);
            && d == e.(boundary := d.boundary)
            && (e.boundary.Some? <==> d.boundary.Some?)
  {
    SameMembers(facts, shuffled);
    BoundaryWitness(facts, r.requestId);
    BoundaryWitness(shuffled, r.requestId);
  }

  lemma SameMembers<T>(s: seq<T>, t: seq<T>)
    requires multiset(s) == multiset(t)
    ensures forall x :: x in s <==> x in t
  {
    assert forall x :: x in s <==> x in multiset(s);
    assert forall x :: x in t <==> x in multiset(t);
  }
}
