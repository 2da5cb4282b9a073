/** Closing a discrepancy leaves its symbol at the quantity that was observed. */
module Reconciliation {
  import opened Basics
  import opened Models
  import opened Outcomes
  import opened Projection
  import opened Validation
  import opened Steps
  import opened Oversell
  import opened Dispatch

  lemma ClosureFindsQuiet(j: Journal, f: Fact)
    requires f.Reconciled? && CheckFact(j, f).Ok?
    ensures forall r :: r in j.requests && r.command.symbol == f.symbol ==> !KeepsOpen(j, r)
    ensures Managed(j, f.symbol) == f.observedManaged
  {
    hide KeepsOpen, Managed, Reserved, Discrepant, AnySellUnclear, LastControl;
  }

  lemma UnconcernedView(facts: seq<Fact>, f: Fact, r: Request)
    requires r.command.New? && !f.IsObservation() && !Concerns(f, r)
    ensures View(facts + [f], r) == View(facts, r)
  {
    hide Gather, Judge, Tied, Revived, CancelledToZero, Total, Latest, Select, Observations;
    UnconcernedStatus(facts, f, r);
    OthersKeepTotals(facts, [f], r.orderId);
    OthersKeepSigns(facts, [f], r.orderId);
  }

  lemma ClosureIsQuiet(j: Journal, f: Fact, symbol: string, r: Request)
    requires f.Reconciled? && r in j.requests
    ensures var k := Commit(j, AddFact(f, []));
            && Status(k.facts, r) == Status(j.facts, r)
            && ManagedBy(k, symbol)(r) == ManagedBy(j, symbol)(r)
            && (Alarms(k, r) <==> Alarms(j, r)) && (SellUnclear(k.facts, r) <==> SellUnclear(j.facts, r))
  {
    hide View, Gather, Judge, Initial;
    CommitFact(j, f);
    UnconcernedStatus(j.facts, f, r);
    if r.command.New? {
      UnconcernedView(j.facts, f, r);
      var i := Initial(j.requests, r.orderId);
      if i.Some? { UnconcernedView(j.facts, f, i.value); }
    }
  }

  lemma ResolvedIsCalm(j: Journal, r: Request)
    requires r in j.requests && !KeepsOpen(j, r)
    ensures !Alarms(j, r)
  {
    hide View, Gather;
  }

  /** Closing a discrepancy finds the symbol at the observed quantity, leaves it there without any
      contradicted order, and review remains only for what is still unexplained or uncertain. */
  lemma ClosureSettles(j: Journal, f: Fact)
    requires WellFormed(j) && NeverOversold(j) && f.Reconciled? && Allowed(j, AddFact(f, []))
    ensures var k := Commit(j, AddFact(f, []));
            && Managed(k, f.symbol) == f.observedManaged && !AnyAlarm(k, f.symbol)
            && (PortfolioOf(k, f.symbol).reconciliationRequired
                <==> Unexplained(k.facts, f.symbol) || AnySellUnclear(k, f.symbol))
  {
    hide WellFormed, NeverOversold, CheckFact, Managed, ManagedBy, Alarms, SellUnclear, KeepsOpen, Status, Unexplained,
         AnySellUnclear, PortfolioOf, Total;
    var k := Commit(j, AddFact(f, []));
    ClosureFindsQuiet(j, f);
    forall r | r in j.requests && r.command.symbol == f.symbol ensures !Alarms(k, r) {
      ResolvedIsCalm(j, r);
      ClosureIsQuiet(j, f, f.symbol, r);
    }
    ManagedStays(j, f);
    WellFormedKept(j, AddFact(f, []));
    CoverKept(j, AddFact(f, []));
    ArithmeticAlarmsAreContradictions(k, f.symbol);
  }

  lemma ManagedStays(j: Journal, f: Fact)
    requires f.Reconciled?
    ensures Managed(Commit(j, AddFact(f, [])), f.symbol) == Managed(j, f.symbol)
  {
    hide ManagedBy, Alarms, SellUnclear, Status, Total;
    var k := Commit(j, AddFact(f, []));
    forall r | r in j.requests ensures ManagedBy(k, f.symbol)(r) == ManagedBy(j, f.symbol)(r) {
      ClosureIsQuiet(j, f, f.symbol, r);
    }
    TotalEq(ManagedBy(k, f.symbol), ManagedBy(j, f.symbol), j.requests);
  }
}
