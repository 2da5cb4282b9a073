/** Quantities do not depend on the order in which unique facts arrived. */
module Arrival {
  import opened Basics
  import opened Models
  import opened Outcomes
  import opened Projection

  function One<T>(p: T -> bool): T -> int { x => if p(x) then 1 else 0 }

  lemma {:induction false} SelectSize<T>(p: T -> bool, s: seq<T>)
    ensures |Select(p, s)| == Total(One(p), s)
  {
    if |s| > 0 { SelectSize(p, s[..|s| - 1]); }
  }

  /** All that quantities read of a status is unaffected by arrival order. */
  ghost predicate SameVerdict(a: RequestStatus, b: RequestStatus) {
    && a.conflict == b.conflict && a.positiveEvidence == b.positiveEvidence
    && a.failed == b.failed && a.rejected == b.rejected
    && a.transport.Acked? == b.transport.Acked? && a.transport.Observed? == b.transport.Observed?
    && a.transport.IntentPersisted? == b.transport.IntentPersisted?
    && a.EffectSettled() == b.EffectSettled() && a.Unresolved() == b.Unresolved()
  }

  lemma JudgeIgnoresBoundary(e: Evidence, b: Option<Boundary>, changed: bool)
    requires e.boundary.Some? <==> b.Some?
    ensures SameVerdict(Judge(e, changed), Judge(e.(boundary := b), changed))
  {
  }

  lemma StatusPermuted(facts: seq<Fact>, shuffled: seq<Fact>, r: Request)
    requires multiset(facts) == multiset(shuffled)
    ensures SameVerdict(Status(facts, r), Status(shuffled, r))
  {
    hide Gather, Judge;
    GatherPermuted(facts, shuffled, r);
    JudgeIgnoresBoundary(Gather(facts, r), Gather(shuffled, r).boundary, r.command.IsChange());
  }

  lemma ContradictionsPermuted(facts: seq<Fact>, shuffled: seq<Fact>, oid: Id)
    requires multiset(facts) == multiset(shuffled)
    ensures Tied(facts, oid) <==> Tied(shuffled, oid)
    ensures Revived(facts, oid) <==> Revived(shuffled, oid)
    ensures CancelledToZero(facts, oid) <==> CancelledToZero(shuffled, oid)
  {
    SameMembers(facts, shuffled);
  }

  lemma QuantitiesPermuted(facts: seq<Fact>, shuffled: seq<Fact>, oid: Id)
    requires multiset(facts) == multiset(shuffled)
    ensures Total(FilledBy(oid), facts) == Total(FilledBy(oid), shuffled)
    ensures Total(CancelledBy(oid), facts) == Total(CancelledBy(oid), shuffled)
    ensures Total(AmendedBy(oid), facts) == Total(AmendedBy(oid), shuffled)
    ensures |Select(AmendOf(oid), facts)| == |Select(AmendOf(oid), shuffled)|
  {
    TotalPermuted(FilledBy(oid), facts, shuffled);
    TotalPermuted(CancelledBy(oid), facts, shuffled);
    TotalPermuted(AmendedBy(oid), facts, shuffled);
    SelectSize(AmendOf(oid), facts);
    SelectSize(AmendOf(oid), shuffled);
    TotalPermuted(One(AmendOf(oid)), facts, shuffled);
  }

  /** Without a tie, any observation of highest version says what remains. */
  lemma LatestPermuted(facts: seq<Fact>, shuffled: seq<Fact>, oid: Id)
    requires multiset(facts) == multiset(shuffled)
    ensures |Observations(facts, oid)| == 0 <==> |Observations(shuffled, oid)| == 0
    ensures |Observations(facts, oid)| > 0 && !Tied(facts, oid) ==>
              Latest(Observations(facts, oid)).remaining == Latest(Observations(shuffled, oid)).remaining
  {
    SameMembers(facts, shuffled);
    var a, b := Observations(facts, oid), Observations(shuffled, oid);
    assert forall f :: f in a <==> f in b;
    if |a| > 0 { assert a[0] in b; }
    if |b| > 0 { assert b[0] in a; }
    if |a| > 0 && !Tied(facts, oid) {
      var m, n := Latest(a), Latest(b);
      assert m in b && n in a;
      assert m.version == n.version;
    }
  }

  /** An order's projection is the same for every arrival order in all fields but active and gap,
      and in those too when no two observations tie on a version with different remainders. */
  lemma OrderIgnoresArrival(facts: seq<Fact>, shuffled: seq<Fact>, r: Request)
    requires r.command.New? && multiset(facts) == multiset(shuffled)
    ensures var a, b := View(facts, r), View(shuffled, r);
            && a == b.(active := a.active, gap := a.gap)
            && (!Tied(facts, r.orderId) ==> a == b)
  {
    hide Status, Gather, Judge, Tied, Revived, CancelledToZero, Total, Latest, Select;
    StatusPermuted(facts, shuffled, r);
    ContradictionsPermuted(facts, shuffled, r.orderId);
    QuantitiesPermuted(facts, shuffled, r.orderId);
    LatestPermuted(facts, shuffled, r.orderId);
  }

  lemma RequestIgnoresArrival(j: Journal, k: Journal, symbol: string, r: Request)
    requires multiset(j.facts) == multiset(k.facts) && j.requests == k.requests
    ensures ManagedBy(j, symbol)(r) == ManagedBy(k, symbol)(r)
    ensures ReservedBy(j, symbol)(r) == ReservedBy(k, symbol)(r)
    ensures Alarms(j, r) == Alarms(k, r)
    ensures SellUnclear(j.facts, r) == SellUnclear(k.facts, r)
  {
    hide View, Status, Initial;
    StatusPermuted(j.facts, k.facts, r);
    if r.command.New? {
      OrderIgnoresArrival(j.facts, k.facts, r);
      var i := Initial(j.requests, r.orderId);
      if i.Some? { OrderIgnoresArrival(j.facts, k.facts, i.value); }
    }
  }

  lemma UnexplainedPermuted(facts: seq<Fact>, shuffled: seq<Fact>, symbol: string)
    requires multiset(facts) == multiset(shuffled)
    ensures Unexplained(facts, symbol) <==> Unexplained(shuffled, symbol)
  {
    SameMembers(facts, shuffled);
    assert OpenDiscrepancy(facts, symbol) <==> OpenDiscrepancy(shuffled, symbol);
    assert OpenQuarantine(facts, symbol) <==> OpenQuarantine(shuffled, symbol);
  }

  /** The whole portfolio is the same for every arrival order of the facts. */
  lemma PortfolioIgnoresArrival(j: Journal, shuffled: seq<Fact>, symbol: string)
    requires multiset(j.facts) == multiset(shuffled)
    ensures PortfolioOf(j.(facts := shuffled), symbol) == PortfolioOf(j, symbol)
  {
    hide Unexplained, Total, ManagedBy, ReservedBy, Alarms, SellUnclear;
    var k := j.(facts := shuffled);
    forall r
      ensures ManagedBy(j, symbol)(r) == ManagedBy(k, symbol)(r)
      ensures ReservedBy(j, symbol)(r) == ReservedBy(k, symbol)(r)
      ensures Alarms(j, r) == Alarms(k, r)
      ensures SellUnclear(j.facts, r) == SellUnclear(k.facts, r)
    {
      RequestIgnoresArrival(j, k, symbol, r);
    }
    TotalEq(ManagedBy(j, symbol), ManagedBy(k, symbol), j.requests);
    TotalEq(ReservedBy(j, symbol), ReservedBy(k, symbol), j.requests);
    UnexplainedPermuted(j.facts, shuffled, symbol);
  }
}
