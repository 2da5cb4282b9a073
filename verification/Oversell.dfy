/** No symbol ever promises to sell more than it manages, short of contradictory evidence. */
module Oversell {
  import opened Basics
  import opened Models
  import opened Outcomes
  import opened Projection
  import opened Validation
  import opened Steps

  /** Sell orders of the symbol carry no conflict and are not executed beyond their quantity. */
  ghost predicate Clean(j: Journal, symbol: string) {
    forall r :: r in j.requests && r.command.New? && r.command.side.Sell? && r.command.symbol == symbol ==>
      !Status(j.facts, r).conflict && 0 <= Exposure(j.facts, r)
  }

  /** Shares a sell order has sold or still reserves. */
  function Committed(facts: seq<Fact>, r: Request): int
    requires r.command.New?
  {
    Total(FilledBy(r.orderId), facts) + if Void(Status(facts, r)) then 0 else NonNegative(Exposure(facts, r))
  }

  function CommittedBy(facts: seq<Fact>, symbol: string): Request -> int {
    (r: Request) =>
      if r.command.New? && r.command.symbol == symbol && r.command.side.Sell? then Committed(facts, r) else 0
  }

  function BoughtBy(facts: seq<Fact>, symbol: string): Request -> int {
    (r: Request) =>
      if r.command.New? && r.command.symbol == symbol && r.command.side.Buy?
      then Total(FilledBy(r.orderId), facts) else 0
  }

  ghost predicate Covered(j: Journal, symbol: string) {
    Total(CommittedBy(j.facts, symbol), j.requests)
      <= Total(AllocatedTo(symbol), j.allocations) + Total(BoughtBy(j.facts, symbol), j.requests)
  }

  /** The invariant of every run. */
  ghost predicate NeverOversold(j: Journal) {
    forall symbol :: Clean(j, symbol) ==> Covered(j, symbol)
  }

  lemma {:induction false} FillsAreQuantities(facts: seq<Fact>, oid: Id)
    ensures 0 <= Total(FilledBy(oid), facts)
    ensures !HasFill(facts, oid) ==> Total(FilledBy(oid), facts) == 0
  {
    TotalNonNegative(FilledBy(oid), facts);
    if !HasFill(facts, oid) { TotalZero(FilledBy(oid), facts); }
  }

  lemma RequestBalance(j: Journal, symbol: string, r: Request)
    requires WellFormed(j) && r in j.requests
    ensures ManagedBy(j, symbol)(r) - ReservedBy(j, symbol)(r)
         == BoughtBy(j.facts, symbol)(r) - CommittedBy(j.facts, symbol)(r)
  {
    hide Status, Observations, Latest, Tied, Revived, CancelledToZero, WellFormed, Initial, Total, Select;
    Lookup(j, r);
  }

  /** Managed minus reserved is all that came in minus all that is committed to leave. */
  lemma PositionBalance(j: Journal, symbol: string)
    requires WellFormed(j)
    ensures Managed(j, symbol) - Reserved(j, symbol)
         == Total(AllocatedTo(symbol), j.allocations)
          + Total(BoughtBy(j.facts, symbol), j.requests) - Total(CommittedBy(j.facts, symbol), j.requests)
  {
    hide WellFormed, ManagedBy, ReservedBy, BoughtBy, CommittedBy, Total;
    forall r | r in j.requests
      ensures ManagedBy(j, symbol)(r) - ReservedBy(j, symbol)(r)
           == BoughtBy(j.facts, symbol)(r) - CommittedBy(j.facts, symbol)(r)
    {
      RequestBalance(j, symbol, r);
    }
    TotalBalance(ManagedBy(j, symbol), ReservedBy(j, symbol),
                 BoughtBy(j.facts, symbol), CommittedBy(j.facts, symbol), j.requests);
  }

  lemma CheckedAmendmentLowers(j: Journal, f: Fact)
    requires WellFormed(j) && CheckFact(j, f).Ok? && f.Amended?
    ensures f.qtyDelta <= 0
  {
    hide CheckFact, DistinctRequests, DistinctEvents, AllCorrelated;
    CheckedFactCorrelates(j, f);
    var r :| r in j.requests && Matches(f, r);
    assert Placed(j, r);
  }

  /** Exposure only falls, and conflicts only appear: what spoils a symbol spoils it for good. */
  lemma ExposureFalls(j: Journal, f: Fact, r: Request)
    requires WellFormed(j) && CheckFact(j, f).Ok? && r.command.New?
    ensures Exposure(j.facts + [f], r) <= Exposure(j.facts, r)
    ensures Exposure(j.facts + [f], r) + Total(FilledBy(r.orderId), j.facts + [f])
         <= Exposure(j.facts, r) + Total(FilledBy(r.orderId), j.facts)
    ensures Total(FilledBy(r.orderId), j.facts) <= Total(FilledBy(r.orderId), j.facts + [f])
  {
    hide CheckFact, WellFormed, Total;
    if f.Amended? { CheckedAmendmentLowers(j, f); }
    TotalAppend(AmendedBy(r.orderId), j.facts, f);
    TotalAppend(FilledBy(r.orderId), j.facts, f);
    TotalAppend(CancelledBy(r.orderId), j.facts, f);
  }

  lemma CommittedFalls(j: Journal, f: Fact, r: Request)
    requires WellFormed(j) && CheckFact(j, f).Ok? && r.command.New?
    requires !Status(j.facts + [f], r).conflict && 0 <= Exposure(j.facts + [f], r)
    ensures Committed(j.facts + [f], r) <= Committed(j.facts, r)
  {
    hide CheckFact, WellFormed, Total, Exposure;
    var later := j.facts + [f];
    ExposureFalls(j, f, r);
    FillsAreQuantities(j.facts, r.orderId);
    FillsAreQuantities(later, r.orderId);
    VoidIsFinal(j.facts, later, r);
  }

  /** A void order has sold nothing, and stops being void only by becoming contradictory. */
  lemma VoidIsFinal(facts: seq<Fact>, later: seq<Fact>, r: Request)
    requires facts <= later && r.command.New?
    ensures Void(Status(facts, r)) ==> !HasFill(facts, r.orderId)
    ensures Void(Status(facts, r)) ==> Void(Status(later, r)) || Status(later, r).conflict
  {
    hide HasAcceptance, Confirmed, EffectRefused, Failed, Refused, HasFill, LastBoundary;
    GatherRises(facts, later[|facts|..], r);
    assert facts + later[|facts|..] == later;
  }

  lemma StaysSpoiled(j: Journal, s: Step, symbol: string)
    requires WellFormed(j) && Allowed(j, s) && Clean(Commit(j, s), symbol)
    ensures Clean(j, symbol)
  {
    hide CheckFact, WellFormed, Exposure, Status, Admissible;
    var k := Commit(j, s);
    forall r | r in j.requests && r.command.New? && r.command.side.Sell? && r.command.symbol == symbol
      ensures !Status(j.facts, r).conflict && 0 <= Exposure(j.facts, r)
    {
      assert r in k.requests;
      EvidenceMonotone(j.facts, k.facts, r);
      if s.AddFact? { ExposureFalls(j, s.fact, r); }
    }
  }

  lemma FactKeepsCover(j: Journal, s: Step, symbol: string)
    requires WellFormed(j) && Allowed(j, s) && s.AddFact?
    requires Covered(j, symbol) && Clean(Commit(j, s), symbol)
    ensures Covered(Commit(j, s), symbol)
  {
    hide CheckFact, WellFormed, Exposure, Status, Committed, Total, FilledBy;
    var k := Commit(j, s);
    forall r | r in j.requests
      ensures CommittedBy(k.facts, symbol)(r) <= CommittedBy(j.facts, symbol)(r)
      ensures BoughtBy(j.facts, symbol)(r) <= BoughtBy(k.facts, symbol)(r)
    {
      if r.command.New? {
        if r.command.side.Sell? && r.command.symbol == symbol { CommittedFalls(j, s.fact, r); }
        ExposureFalls(j, s.fact, r);
      }
    }
    TotalLe(CommittedBy(k.facts, symbol), CommittedBy(j.facts, symbol), j.requests);
    TotalLe(BoughtBy(j.facts, symbol), BoughtBy(k.facts, symbol), j.requests);
  }

  /** A new order has committed exactly its own quantity. */
  lemma NewOrderCommits(j: Journal, r: Request)
    requires WellFormed(j) && Admissible(j, r) && r.command.New?
    ensures Committed(j.facts, r) == r.command.qty
    ensures Total(FilledBy(r.orderId), j.facts) == 0
  {
    hide WellFormed, Admissible, Gather;
    UntouchedRequest(j, r);
    UntouchedStatus(j.facts, r);
    assert forall f :: f in j.facts ==> !Observes(f, r.orderId);
    TotalZero(AmendedBy(r.orderId), j.facts);
    TotalZero(FilledBy(r.orderId), j.facts);
    TotalZero(CancelledBy(r.orderId), j.facts);
  }

  lemma SellFits(j: Journal, r: Request)
    requires WellFormed(j) && Admissible(j, r) && r.command.New? && r.command.side.Sell?
    ensures r.command.qty <= Managed(j, r.command.symbol) - Reserved(j, r.command.symbol)
  {
    hide WellFormed, Managed, Reserved, Discrepant, AnySellUnclear, LastControl, CheckStopLink;
  }

  lemma RequestKeepsCover(j: Journal, s: Step, symbol: string)
    requires WellFormed(j) && Allowed(j, s) && s.AddRequest? && Covered(j, symbol)
    ensures Covered(Commit(j, s), symbol)
  {
    hide WellFormed, Admissible, Committed, Total, FilledBy, Managed, Reserved;
    var r := s.request;
    TotalAppend(CommittedBy(j.facts, symbol), j.requests, r);
    TotalAppend(BoughtBy(j.facts, symbol), j.requests, r);
    if r.command.New? {
      NewOrderCommits(j, r);
      if r.command.side.Sell? {
        SellFits(j, r);
        PositionBalance(j, r.command.symbol);
      }
    }
  }

  lemma CoverKept(j: Journal, s: Step)
    requires WellFormed(j) && Allowed(j, s) && NeverOversold(j)
    ensures NeverOversold(Commit(j, s))
  {
    hide WellFormed, Clean, Admissible, CheckFact, Total, CommittedBy, BoughtBy;
    var k := Commit(j, s);
    forall symbol | Clean(k, symbol) ensures Covered(k, symbol) {
      StaysSpoiled(j, s, symbol);
      if s.AddFact? { FactKeepsCover(j, s, symbol); }
      if s.AddRequest? { RequestKeepsCover(j, s, symbol); }
      if s.AddAllocation? { TotalAppend(AllocatedTo(symbol), j.allocations, s.allocation); }
    }
  }

  /** The reservation of a clean symbol fits its managed shares. */
  lemma ReservationFits(j: Journal, symbol: string)
    requires WellFormed(j) && NeverOversold(j) && Clean(j, symbol)
    ensures 0 <= Reserved(j, symbol) <= Managed(j, symbol)
  {
    hide WellFormed, Clean, Total, ManagedBy, CommittedBy, BoughtBy, View, Initial;
    PositionBalance(j, symbol);
    TotalNonNegative(ReservedBy(j, symbol), j.requests);
  }

  /** A spoiled symbol raises an alarm of its own. */
  lemma SpoiledAlarms(j: Journal, symbol: string)
    requires WellFormed(j) && !Clean(j, symbol)
    ensures AnyAlarm(j, symbol)
  {
    hide WellFormed, Status, Total, Observations, Latest, Tied, Revived, CancelledToZero, Initial, Exposure, Select;
    var r :| r in j.requests && r.command.New? && r.command.side.Sell? && r.command.symbol == symbol
             && !(!Status(j.facts, r).conflict && 0 <= Exposure(j.facts, r));
    Lookup(j, r);
    assert Alarms(j, r);
  }

  /** The two arithmetic alarms of a portfolio never speak alone: review of a symbol is required
      exactly when there is a discrepancy, a contradictory order or an uncertain sell. */
  lemma ArithmeticAlarmsAreContradictions(j: Journal, symbol: string)
    requires WellFormed(j) && NeverOversold(j)
    ensures PortfolioOf(j, symbol).reconciliationRequired
       <==> Discrepant(j, symbol) || AnySellUnclear(j, symbol)
  {
    hide WellFormed, NeverOversold, Clean, AnyAlarm, Unexplained, AnySellUnclear, Managed, Reserved, LastControl;
    if Clean(j, symbol) { ReservationFits(j, symbol); } else { SpoiledAlarms(j, symbol); }
  }
}
