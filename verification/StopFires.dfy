/** When a quote must latch a stop, told in shares, assignments and prices. */
module StopFires {
  import opened Basics
  import opened Ownership
  import opened Models
  import opened Outcomes
  import opened Projection
  import opened Validation
  import opened Steps
  import opened StopEvaluation
  import opened LedgerSpec
  import opened Oversell
  import opened ConfigChain
  import opened StopSignals
  import opened Runs
  import opened Meaning

  /* ----- shares under one rule ----- */

  /** An execution of an order of the symbol. */
  ghost predicate FillOfOrder(j: Journal, symbol: string, f: Fact, r: Request) {
    f in j.facts && f.Fill? && r in j.requests && r.command.New? && r.command.symbol == symbol && r.orderId == f.orderId
  }

  ghost predicate Assigned(j: Journal, symbol: string, f: Fact, version: int) {
    f.Fill? && exists a :: a in j.assignments && a.fillEventId == f.eventId && a.symbol == symbol && a.qty == f.qty
                           && a.ruleVersion == version
  }

  /** All the shares of the symbol were bought, and all under this one bound rule. */
  ghost predicate Protects(j: Journal, symbol: string, b: StopBinding) {
    && b in j.bindings && b.symbol == symbol
    && (forall a :: a in j.allocations && a.symbol == symbol ==> a.qty == 0)
    && (exists f, r :: FillOfOrder(j, symbol, f, r) && r.command.side.Buy?)
    && forall f, r :: FillOfOrder(j, symbol, f, r) && r.command.side.Buy? ==> Assigned(j, symbol, f, b.version)
  }

  /** Shares are there to be sold, and nothing about them waits for an explanation. */
  ghost predicate MaySell(j: Journal, symbol: string) { Calm(j, symbol) && Reserved(j, symbol) < Managed(j, symbol) }

  ghost predicate BuyFillIn(j: Journal, symbol: string, f: Fact) {
    exists r :: FillOfOrder(j, symbol, f, r) && r.command.side.Buy?
  }

  lemma BuyFillsAre(j: Journal, symbol: string)
    ensures forall f :: f in Select(OrderFillOf(j, symbol, true), j.facts) <==> BuyFillIn(j, symbol, f)
  {
    SelectMember(OrderFillOf(j, symbol, true), j.facts);
  }

  lemma RuleIsAssigned(j: Journal, symbol: string, f: Fact, version: int)
    requires AssignmentsStand(j) && f.Fill?
    ensures RuleOf(j, f, symbol).Some? && RuleOf(j, f, symbol).value == version <==> Assigned(j, symbol, f, version)
  {
    var found := First(AssignmentOf(f, symbol), j.assignments);
    if Assigned(j, symbol, f, version) {
      var a :| a in j.assignments && a.fillEventId == f.eventId && a.symbol == symbol && a.qty == f.qty && a.ruleVersion == version;
      assert AssignmentOf(f, symbol)(a);
      var b := found.value;
      var m :| 0 <= m < |j.assignments| && j.assignments[m] == a;
      var n :| 0 <= n < |j.assignments| && j.assignments[n] == b;
      assert a.fillEventId == b.fillEventId;
    }
  }

  lemma RuleIsBound(j: Journal, symbol: string, version: Positive)
    requires DistinctBindings(j.bindings)
    ensures forall b :: b in j.bindings && b.symbol == symbol && b.version == version ==>
              First(BindingOf(symbol, version), j.bindings) == Some(b)
  {
    forall b | b in j.bindings && b.symbol == symbol && b.version == version
      ensures First(BindingOf(symbol, version), j.bindings) == Some(b)
    {
      forall c | c in j.bindings && BindingOf(symbol, version)(c) ensures c == b {}
      FirstOnly(BindingOf(symbol, version), j.bindings, b);
    }
  }

  /** The confirmed holdings are the managed shares, under the rule that protects them. */
  lemma HoldingsMean(j: Journal, symbol: string, b: StopBinding)
    requires Invariant(j) && MaySell(j, symbol) && b in j.bindings && b.symbol == symbol
    ensures Protects(j, symbol, b) <==> ConfirmedHoldings(j, symbol) == Some(Holding(Managed(j, symbol), b.version, None))
  {
    hide Invariant, Calm, Managed, Reserved, PortfolioOf, RuleOf, OrderFillOf, BuyFillIn, Assigned, AssignmentsStand;
    Parts(j);
    PositionMeans(j, symbol);
    BuyFillsAre(j, symbol);
    RuleIsBound(j, symbol, b.version);
    var fills := Select(OrderFillOf(j, symbol, true), j.facts);
    SelectMember(OrderFillOf(j, symbol, true), j.facts);
    HasMember(fills);
    forall f | f in fills
      ensures f.Fill? && (RuleOf(j, f, symbol).Some? && RuleOf(j, f, symbol).value == b.version <==> Assigned(j, symbol, f, b.version))
    {
      BuyFillIsFill(j, symbol, f);
      RuleIsAssigned(j, symbol, f, b.version);
    }
    ProtectsOf(j, symbol, b);
  }

  lemma BuyFillIsFill(j: Journal, symbol: string, f: Fact)
    requires BuyFillIn(j, symbol, f)
    ensures f.Fill?
  {
  }

  lemma ProtectsOf(j: Journal, symbol: string, b: StopBinding)
    ensures Protects(j, symbol, b)
       <==> b in j.bindings && b.symbol == symbol && (forall a :: a in j.allocations && a.symbol == symbol ==> a.qty == 0)
            && (exists f :: BuyFillIn(j, symbol, f)) && forall f :: BuyFillIn(j, symbol, f) ==> Assigned(j, symbol, f, b.version)
  {
    hide Assigned, FillOfOrder;
    if exists f, r :: FillOfOrder(j, symbol, f, r) && r.command.side.Buy? {
      var f, r :| FillOfOrder(j, symbol, f, r) && r.command.side.Buy?;
      assert BuyFillIn(j, symbol, f);
    }
  }

  lemma Parts(j: Journal)
    requires Invariant(j)
    ensures WellFormed(j) && NeverOversold(j) && Chained(j) && AssignmentsStand(j) && DistinctBindings(j.bindings)
    ensures DistinctRequests(j) && AllPlaced(j) && DistinctEvents(j)
  {
  }

  /* ----- what the shares cost ----- */

  /** Nothing of the symbol was sold, and the price of every execution is known. */
  ghost predicate AllPriced(j: Journal, symbol: string) {
    forall f, r :: FillOfOrder(j, symbol, f, r) ==> f.price.Some? && r.command.side.Buy?
  }

  function FilledIn(facts: seq<Fact>, symbol: string): Request -> int {
    (r: Request) => if r.command.New? && r.command.symbol == symbol then Total(FilledBy(r.orderId), facts) else 0
  }

  /** Executions counted order by order are the executions counted one by one. */
  lemma {:induction false} ExecutionsCounted(j: Journal, symbol: string, facts: seq<Fact>)
    requires DistinctRequests(j) && AllPlaced(j)
    ensures Total(FilledIn(facts, symbol), j.requests) == Total(QtyOfFill(), Select(OrderFillOf(j, symbol, false), facts))
  {
    hide AllPlaced, OrderFillOf, Total;
    if |facts| == 0 {
      NothingFilled(j, symbol, facts);
    } else {
      var n := |facts| - 1;
      ExecutionsCounted(j, symbol, facts[..n]);
      assert facts == facts[..n] + [facts[n]];
      ExecutionCounted(j, symbol, facts[..n], facts[n]);
      SelectAppend(OrderFillOf(j, symbol, false), facts[..n], facts[n]);
      var counted := Select(OrderFillOf(j, symbol, false), facts[..n]);
      assert counted + [] == counted;
      if OrderFillOf(j, symbol, false)(facts[n]) {
        TotalAppend(QtyOfFill(), counted, facts[n]);
      }
    }
  }

  lemma NothingFilled(j: Journal, symbol: string, facts: seq<Fact>)
    requires |facts| == 0
    ensures Total(FilledIn(facts, symbol), j.requests) == 0
    ensures Total(QtyOfFill(), Select(OrderFillOf(j, symbol, false), facts)) == 0
  {
    TotalZero(FilledIn(facts, symbol), j.requests);
  }

  lemma FilledInAppend(facts: seq<Fact>, f: Fact, symbol: string, r: Request)
    ensures FilledIn(facts + [f], symbol)(r)
         == FilledIn(facts, symbol)(r)
            + if r.command.New? && r.command.symbol == symbol && f.Fill? && f.orderId == r.orderId then f.qty else 0
  {
    hide Total;
    TotalAppend(FilledBy(r.orderId), facts, f);
  }

  lemma ExecutionCounted(j: Journal, symbol: string, facts: seq<Fact>, f: Fact)
    requires DistinctRequests(j) && AllPlaced(j)
    ensures Total(FilledIn(facts + [f], symbol), j.requests)
         == Total(FilledIn(facts, symbol), j.requests) + if OrderFillOf(j, symbol, false)(f) then QtyOfFill()(f) else 0
  {
    hide Total, FilledIn, AllPlaced;
    var w, v := FilledIn(facts, symbol), FilledIn(facts + [f], symbol);
    if OrderFillOf(j, symbol, false)(f) {
      var r :| r in j.requests && r.command.New? && r.command.symbol == symbol && r.orderId == f.orderId;
      var i :| 0 <= i < |j.requests| && j.requests[i] == r;
      forall k | 0 <= k < |j.requests| && k != i ensures v(j.requests[k]) == w(j.requests[k]) {
        if j.requests[k].command.New? && j.requests[k].orderId == f.orderId { OneOpener(j, r, j.requests[k]); }
        FilledInAppend(facts, f, symbol, j.requests[k]);
      }
      FilledInAppend(facts, f, symbol, r);
      TotalFlip(w, v, j.requests, i);
    } else {
      forall r | r in j.requests ensures v(r) == w(r) { FilledInAppend(facts, f, symbol, r); }
      TotalEq(v, w, j.requests);
    }
  }

  lemma OneOpener(j: Journal, r: Request, x: Request)
    requires AllPlaced(j) && r in j.requests && x in j.requests && r.command.New? && x.command.New? && r.orderId == x.orderId
    ensures r == x
  {
    assert Placed(j, r);
  }

  lemma UnsoldManaged(j: Journal, symbol: string, r: Request)
    requires WellFormed(j) && AllPriced(j, symbol) && r in j.requests
    ensures ManagedBy(j, symbol)(r) == FilledIn(j.facts, symbol)(r)
  {
    hide WellFormed, Status, Observations, Latest, Tied, Revived, CancelledToZero, Initial, Select, Total, Exposure;
    Lookup(j, r);
    FillsAreQuantities(j.facts, r.orderId);
    forall f | f in j.facts && f.Fill? && f.orderId == r.orderId && r.command.New? && r.command.symbol == symbol
      ensures r.command.side.Buy?
    {
      assert FillOfOrder(j, symbol, f, r);
    }
  }

  /** Of a protected symbol of which nothing was sold, the shares paid for are the shares managed. */
  lemma PaidIsManaged(j: Journal, symbol: string)
    requires WellFormed(j) && AllPriced(j, symbol) && forall a :: a in j.allocations && a.symbol == symbol ==> a.qty == 0
    ensures Total(QtyOfFill(), Select(OrderFillOf(j, symbol, false), j.facts)) == Managed(j, symbol)
  {
    hide WellFormed, ManagedBy, FilledIn, Select, OrderFillOf, Total, AllPriced;
    TotalZero(AllocatedTo(symbol), j.allocations);
    forall r | r in j.requests ensures ManagedBy(j, symbol)(r) == FilledIn(j.facts, symbol)(r) { UnsoldManaged(j, symbol, r); }
    TotalEq(ManagedBy(j, symbol), FilledIn(j.facts, symbol), j.requests);
    Distinct(j);
    ExecutionsCounted(j, symbol, j.facts);
  }

  lemma Distinct(j: Journal)
    requires WellFormed(j)
    ensures DistinctRequests(j) && AllPlaced(j)
  {
  }

  /** The money paid for the executions of the symbol. */
  function Paid(j: Journal, symbol: string): real { Sum(PaidFor(), Select(OrderFillOf(j, symbol, false), j.facts)) }

  lemma PricedMeans(j: Journal, symbol: string)
    requires AllPlaced(j)
    ensures AllPriced(j, symbol)
       <==> forall f :: f in Select(OrderFillOf(j, symbol, false), j.facts) ==> f.Fill? && f.price.Some? && !IsSold(j, f)
  {
    var fills := Select(OrderFillOf(j, symbol, false), j.facts);
    SelectMember(OrderFillOf(j, symbol, false), j.facts);
    if AllPriced(j, symbol) {
      forall f | f in fills ensures f.Fill? && f.price.Some? && !IsSold(j, f) {
        assert OrderFillOf(j, symbol, false)(f);
        var r :| r in j.requests && r.command.New? && r.command.symbol == symbol && r.orderId == f.orderId;
        assert FillOfOrder(j, symbol, f, r);
        forall x | x in j.requests && x.command.New? && x.orderId == f.orderId ensures x.command.side.Buy? { OneOpener(j, r, x); }
      }
    } else {
      var f, r :| FillOfOrder(j, symbol, f, r) && !(f.price.Some? && r.command.side.Buy?);
      assert f in fills;
    }
  }

  /** A protected symbol has a confirmed cost exactly when nothing was sold and every price is known; it is
      what was paid for the managed shares.  The source's own comparison of the two quantities never fails. */
  lemma CostMeans(j: Journal, symbol: string, b: StopBinding)
    requires Invariant(j) && MaySell(j, symbol) && Protects(j, symbol, b)
    ensures var basis := ConfirmedCostBasis(j, symbol);
            && (basis.Some? <==> AllPriced(j, symbol))
            && (basis.Some? ==>
                  && basis.value.qty == Managed(j, symbol) && basis.value.ruleVersion == b.version
                  && basis.value.averageCost.Some?
                  && basis.value.averageCost.value * Managed(j, symbol) as real == Paid(j, symbol))
  {
    hide Invariant, MaySell, Managed, OrderFillOf, AllPriced, Protects, ConfirmedHoldings, QtyOfFill, PaidFor, IsSold;
    Parts(j);
    assert b in j.bindings && b.symbol == symbol && Managed(j, symbol) > 0
           && forall a :: a in j.allocations && a.symbol == symbol ==> a.qty == 0 by { Unfold(j, symbol, b); }
    HoldingsMean(j, symbol, b);
    PricedMeans(j, symbol);
    SelectMember(OrderFillOf(j, symbol, false), j.facts);
    FillsAreFills(j, symbol, Select(OrderFillOf(j, symbol, false), j.facts));
    if AllPriced(j, symbol) { PaidIsManaged(j, symbol); }
  }

  lemma Unfold(j: Journal, symbol: string, b: StopBinding)
    requires MaySell(j, symbol) && Protects(j, symbol, b)
    ensures b in j.bindings && b.symbol == symbol && forall a :: a in j.allocations && a.symbol == symbol ==> a.qty == 0
    ensures Managed(j, symbol) > 0
  {
    hide Calm, Managed, Reserved;
    NothingOwed(j, symbol);
  }

  /* ----- when a stop fires ----- */

  /** The price is at or below the bound price or, for a cost rule, the average price paid less the drop. */
  ghost predicate Reached(j: Journal, symbol: string, b: StopBinding, price: real) {
    if b.kind.PriceAtOrBelow? then price <= b.threshold
    else AllPriced(j, symbol) && price * Managed(j, symbol) as real <= Paid(j, symbol) * (1.0 - b.threshold)
  }

  /** A quote of this symbol that is neither of the future nor too old. */
  ghost predicate Usable(symbol: string, q: Quote, t: ObserveAt) {
    q.symbol == symbol && q.receivedAt <= t.now <= q.receivedAt + t.maxAgeSeconds * 1_000_000
  }

  /** Received after, and evaluated no earlier than, the last quote of the symbol. */
  ghost predicate Advances(j: Journal, symbol: string, q: Quote, t: ObserveAt) {
    symbol in j.quotes ==> j.quotes[symbol].receivedAt < q.receivedAt && j.quotes[symbol].evaluatedAt <= t.now
  }

  ghost predicate Unlatched(j: Journal, symbol: string) { forall l :: l in j.latches ==> l.symbol != symbol }

  /** The latch that the quote must leave. */
  ghost predicate Retains(l: StopLatch, b: StopBinding, q: Quote) {
    && l.symbol == b.symbol && l.ruleVersion == b.version && l.kind == b.kind
    && l.quotePrice == q.price && l.quoteReceivedAt == q.receivedAt
  }

  lemma Proportion(price: real, average: real, managed: real, paid: real, share: real)
    requires managed > 0.0 && average * managed == paid
    ensures price <= average * share <==> price * managed <= paid * share
  {
    assert (average * share) * managed == paid * share;
  }

  /** What the holding read for the evaluation is: the shares, and their cost where it is known. */
  ghost predicate Reads(j: Journal, symbol: string, b: StopBinding, h: Holding) {
    && h.qty == Managed(j, symbol) && h.ruleVersion == b.version
    && (h.averageCost.Some? <==> AllPriced(j, symbol))
    && (h.averageCost.Some? ==> h.averageCost.value * Managed(j, symbol) as real == Paid(j, symbol))
  }

  lemma TriggersIff(j: Journal, symbol: string, b: StopBinding, h: Holding, q: Quote, t: ObserveAt)
    requires Managed(j, symbol) > 0 && (Reads(j, symbol, b, h) || (b.kind.PriceAtOrBelow? && h.qty == Managed(j, symbol)))
    ensures EvaluateStop(symbol, h, q, b, t).Triggered? <==> Usable(symbol, q, t) && Reached(j, symbol, b, q.price)
  {
    hide Managed, AllPriced, Paid;
    if b.kind.AverageCostDrop? && h.averageCost.Some? {
      Proportion(q.price, h.averageCost.value, Managed(j, symbol) as real, Paid(j, symbol), 1.0 - b.threshold);
    }
  }

  /** Of a symbol that may be sold the evaluation uses exactly the binding that protects it. */
  lemma EvaluationReads(j: Journal, symbol: string, b: StopBinding, q: Quote, t: ObserveAt)
    requires Invariant(j) && MaySell(j, symbol) && Protects(j, symbol, b)
    ensures exists h :: Reads(j, symbol, b, h) && EvaluateQuote(j, symbol, q, t) == (EvaluateStop(symbol, h, q, b, t), Some(b))
  {
    hide Invariant, Managed, Reserved, Calm, PortfolioOf, ConfirmedHoldings, ConfirmedCostBasis, Protects, AllPriced, Paid, EvaluateStop;
    Parts(j);
    PositionMeans(j, symbol);
    Unfold(j, symbol, b);
    RuleIsBound(j, symbol, b.version);
    HoldingsMean(j, symbol, b);
    CostMeans(j, symbol, b);
    var basis := ConfirmedCostBasis(j, symbol);
    var h := if basis.Some? then basis.value else ConfirmedHoldings(j, symbol).value;
    assert Reads(j, symbol, b, h);
  }

  /** And nothing else is evaluated. */
  lemma NothingReads(j: Journal, symbol: string, q: Quote, t: ObserveAt)
    requires Invariant(j) && EvaluateQuote(j, symbol, q, t).0.Triggered?
    ensures MaySell(j, symbol) && exists b :: Protects(j, symbol, b)
  {
    hide Invariant, Managed, Reserved, Calm, PortfolioOf, ConfirmedHoldings, ConfirmedCostBasis, Protects, EvaluateStop;
    Parts(j);
    PositionMeans(j, symbol);
    BasisIsHoldings(j, symbol);
    var h := ConfirmedHoldings(j, symbol);
    HeldIsBound(j, symbol);
    var b := First(BindingOf(symbol, h.value.ruleVersion), j.bindings).value;
    HoldingsMean(j, symbol, b);
  }

  lemma BasisIsHoldings(j: Journal, symbol: string)
    ensures ConfirmedCostBasis(j, symbol).Some? ==>
              && ConfirmedHoldings(j, symbol).Some?
              && ConfirmedHoldings(j, symbol).value == ConfirmedCostBasis(j, symbol).value.(averageCost := None)
  {
    hide RuleOf, PortfolioOf, OrderFillOf, PaidFor, QtyOfFill;
  }

  lemma HeldIsBound(j: Journal, symbol: string)
    ensures var h := ConfirmedHoldings(j, symbol);
            h.Some? ==> First(BindingOf(symbol, h.value.ruleVersion), j.bindings).Some?
                        && h.value == Holding(Managed(j, symbol), h.value.ruleVersion, None)
  {
    hide RuleOf, OrderFillOf, Managed, Reserved, Discrepant, AnySellUnclear, LastControl;
  }

  /** A quote latches a stop if and only if the session is reviewed, the quote is usable and later than any
      before it, there is no latch yet, shares may be sold, and they were all bought under one bound rule
      whose price, or whose drop from the average price paid, it has reached.  The latch names that rule and
      that quote, and the answer carries it. */
  lemma QuoteFiresIff(s: Session, symbol: string, q: Quote, t: ObserveAt)
    requires Invariant(s.journal)
    ensures var j, o := s.journal, ProcessQuote(s, symbol, q, t);
            && (o.session.journal.latches != j.latches
                <==> s.ready && Usable(symbol, q, t) && Advances(j, symbol, q, t) && Unlatched(j, symbol) && MaySell(j, symbol)
                     && exists b :: Protects(j, symbol, b) && Reached(j, symbol, b, q.price))
            && forall b :: Protects(j, symbol, b) && o.session.journal.latches != j.latches ==>
                 exists l :: && Retains(l, b, q) && o.session.journal.latches == j.latches + [l]
                             && o.result.Ok? && o.result.value.accepted && o.result.value.latch == Some(l)
  {
    hide Invariant, EvaluateQuote, MaySell, Protects, Reached;
    var j, o := s.journal, ProcessQuote(s, symbol, q, t);
    assert QuoteRejection(j, symbol, q, t).None? <==> Usable(symbol, q, t) && Advances(j, symbol, q, t) && Unlatched(j, symbol);
    FiresOnlyOn(j, symbol, q, t);
    forall b | Protects(j, symbol, b) && MaySell(j, symbol)
      ensures EvaluateQuote(j, symbol, q, t).1 == Some(b)
      ensures EvaluateQuote(j, symbol, q, t).0.Triggered? <==> Usable(symbol, q, t) && Reached(j, symbol, b, q.price)
    {
      EvaluatesIff(j, symbol, b, q, t);
    }
    if o.session.journal.latches != j.latches {
      var l := LatchFrom(symbol, EvaluateQuote(j, symbol, q, t).1.value, q);
      assert o.session.journal.latches == j.latches + [l];
      forall b | Protects(j, symbol, b) ensures Retains(l, b, q) { SymbolOf(j, symbol, b); }
    }
  }

  lemma SymbolOf(j: Journal, symbol: string, b: StopBinding)
    requires Protects(j, symbol, b)
    ensures b.symbol == symbol
  {
  }

  lemma FiresOnlyOn(j: Journal, symbol: string, q: Quote, t: ObserveAt)
    requires Invariant(j)
    ensures EvaluateQuote(j, symbol, q, t).0.Triggered? ==> MaySell(j, symbol) && exists b :: Protects(j, symbol, b)
  {
    hide Invariant, EvaluateQuote, MaySell, Protects;
    if EvaluateQuote(j, symbol, q, t).0.Triggered? { NothingReads(j, symbol, q, t); }
  }

  lemma EvaluatesIff(j: Journal, symbol: string, b: StopBinding, q: Quote, t: ObserveAt)
    requires Invariant(j) && MaySell(j, symbol) && Protects(j, symbol, b)
    ensures EvaluateQuote(j, symbol, q, t).1 == Some(b)
    ensures EvaluateQuote(j, symbol, q, t).0.Triggered? <==> Usable(symbol, q, t) && Reached(j, symbol, b, q.price)
  {
    hide Invariant, EvaluateQuote, MaySell, Protects, Reached, Reads, Managed, EvaluateStop, Usable;
    Unfold(j, symbol, b);
    EvaluationReads(j, symbol, b, q, t);
    var h :| Reads(j, symbol, b, h) && EvaluateQuote(j, symbol, q, t) == (EvaluateStop(symbol, h, q, b, t), Some(b));
    TriggersIff(j, symbol, b, h, q, t);
  }

  function Held(j: Journal, kind: RuleKind, symbol: string): Option<Holding> {
    if kind.PriceAtOrBelow? then ConfirmedHoldings(j, symbol) else ConfirmedCostBasis(j, symbol)
  }

  /** What a direct path reads, if anything, are the shares under the rule that protects them. */
  lemma HeldMeans(j: Journal, kind: RuleKind, symbol: string) returns (b: StopBinding)
    requires Invariant(j) && MaySell(j, symbol) && Held(j, kind, symbol).Some?
    ensures var h := Held(j, kind, symbol).value;
            && First(BindingOf(symbol, h.ruleVersion), j.bindings) == Some(b)
            && Protects(j, symbol, b) && h.qty == Managed(j, symbol) && (kind.AverageCostDrop? ==> Reads(j, symbol, b, h))
  {
    hide Invariant, Managed, MaySell, ConfirmedHoldings, ConfirmedCostBasis, Protects, AllPriced, Paid;
    BasisIsHoldings(j, symbol);
    HeldIsBound(j, symbol);
    var h := ConfirmedHoldings(j, symbol).value;
    b := First(BindingOf(symbol, h.ruleVersion), j.bindings).value;
    HoldingsMean(j, symbol, b);
    CostMeans(j, symbol, b);
  }

  lemma ProtectedIsHeld(j: Journal, kind: RuleKind, symbol: string, b: StopBinding)
    requires Invariant(j) && MaySell(j, symbol) && Protects(j, symbol, b)
    ensures Held(j, kind, symbol).None? <==> kind.AverageCostDrop? && !AllPriced(j, symbol)
    ensures Held(j, kind, symbol).Some? ==> First(BindingOf(symbol, Held(j, kind, symbol).value.ruleVersion), j.bindings) == Some(b)
  {
    hide Invariant, Managed, MaySell, ConfirmedHoldings, ConfirmedCostBasis, Protects, AllPriced, Paid;
    Parts(j);
    Unfold(j, symbol, b);
    RuleIsBound(j, symbol, b.version);
    HoldingsMean(j, symbol, b);
    CostMeans(j, symbol, b);
  }

  ghost predicate Latches(j: Journal, kind: RuleKind, symbol: string, quote: Option<Quote>, t: ObserveAt, b: StopBinding) {
    && quote.Some? && MaySell(j, symbol) && Held(j, kind, symbol).Some?
    && First(BindingOf(symbol, Held(j, kind, symbol).value.ruleVersion), j.bindings) == Some(b) && b.kind == kind
    && EvaluateStop(symbol, Held(j, kind, symbol).value, quote.value, b, t).Triggered?
  }

  lemma LatchesIff(j: Journal, kind: RuleKind, symbol: string, quote: Option<Quote>, t: ObserveAt, b: StopBinding)
    requires Invariant(j)
    ensures Latches(j, kind, symbol, quote, t, b)
       <==> quote.Some? && MaySell(j, symbol) && Protects(j, symbol, b) && b.kind == kind
            && Usable(symbol, quote.value, t) && Reached(j, symbol, b, quote.value.price)
  {
    hide Invariant, Managed, MaySell, Protects, AllPriced, Paid, EvaluateStop, Held, First, Usable, Reads;
    if MaySell(j, symbol) && quote.Some? {
      if Held(j, kind, symbol).Some? {
        var c := HeldMeans(j, kind, symbol);
        if Protects(j, symbol, b) { ProtectedIsHeld(j, kind, symbol, b); }
        Unfold(j, symbol, c);
        if b == c && b.kind == kind { TriggersIff(j, symbol, b, Held(j, kind, symbol).value, quote.value, t); }
      } else if Protects(j, symbol, b) {
        ProtectedIsHeld(j, kind, symbol, b);
      }
    }
  }

  lemma LatchOutcome(s: Session, kind: RuleKind, symbol: string, quote: Option<Quote>, t: ObserveAt)
    requires Invariant(s.journal)
    ensures var j, o := s.journal, LatchStop(s, kind, symbol, quote, t);
            if s.ready && Unlatched(j, symbol) && exists b :: Latches(j, kind, symbol, quote, t, b)
            then exists b :: && Latches(j, kind, symbol, quote, t, b) && o.session.journal.latches == j.latches + [LatchFrom(symbol, b, quote.value)]
                             && o.result == Ok(Some(LatchFrom(symbol, b, quote.value)))
            else o.session.journal == j
  {
    hide Invariant, Calm, Managed, Reserved, ConfirmedHoldings, ConfirmedCostBasis, PortfolioOf, EvaluateStop;
    Parts(s.journal);
    PositionMeans(s.journal, symbol);
    NothingOwed(s.journal, symbol);
    var j := s.journal;
    if LatchStop(s, kind, symbol, quote, t).session.journal != j {
      var b := First(BindingOf(symbol, Held(j, kind, symbol).value.ruleVersion), j.bindings).value;
      assert Latches(j, kind, symbol, quote, t, b);
    }
  }

  /** Either direct path latches on the same condition under a rule of its own kind, whatever the cursor. */
  lemma LatchFiresIff(s: Session, kind: RuleKind, symbol: string, quote: Option<Quote>, t: ObserveAt)
    requires Invariant(s.journal)
    ensures var j, o := s.journal, LatchStop(s, kind, symbol, quote, t);
            && (o.session.journal.latches != j.latches
                <==> s.ready && quote.Some? && Usable(symbol, quote.value, t) && Unlatched(j, symbol) && MaySell(j, symbol)
                     && exists b :: Protects(j, symbol, b) && b.kind == kind && Reached(j, symbol, b, quote.value.price))
            && forall b :: Protects(j, symbol, b) && o.session.journal.latches != j.latches ==>
                 exists l :: && Retains(l, b, quote.value) && o.session.journal.latches == j.latches + [l]
                             && o.result == Ok(Some(l))
  {
    hide Invariant, MaySell, Protects, Reached, LatchStop, Usable, Unlatched, Latches;
    var j, o := s.journal, LatchStop(s, kind, symbol, quote, t);
    LatchOutcome(s, kind, symbol, quote, t);
    forall b ensures Latches(j, kind, symbol, quote, t, b)
                <==> quote.Some? && MaySell(j, symbol) && Protects(j, symbol, b) && b.kind == kind
                     && Usable(symbol, quote.value, t) && Reached(j, symbol, b, quote.value.price)
    {
      LatchesIff(j, kind, symbol, quote, t, b);
    }
    if o.session.journal.latches != j.latches {
      var c :| Latches(j, kind, symbol, quote, t, c) && o.session.journal.latches == j.latches + [LatchFrom(symbol, c, quote.value)]
               && o.result == Ok(Some(LatchFrom(symbol, c, quote.value)));
      forall b | Protects(j, symbol, b) ensures Retains(LatchFrom(symbol, c, quote.value), b, quote.value) {
        SymbolOf(j, symbol, b);
        OneProtector(j, symbol, b, c);
      }
    }
  }

  /** One rule at most protects a symbol. */
  lemma OneProtector(j: Journal, symbol: string, b: StopBinding, c: StopBinding)
    requires Invariant(j) && MaySell(j, symbol) && Protects(j, symbol, b) && Protects(j, symbol, c)
    ensures b == c
  {
    hide Invariant, MaySell, Protects, ConfirmedHoldings, Managed;
    SymbolOf(j, symbol, b);
    SymbolOf(j, symbol, c);
    ProtectedIsHeld(j, PriceAtOrBelow, symbol, b);
    ProtectedIsHeld(j, PriceAtOrBelow, symbol, c);
  }

  /** A quote is taken if and only if the session is reviewed, the quote is usable and later than any before it,
      and the symbol has no latch; then it is the symbol's last quote, and besides it at most a latch is new. */
  lemma QuoteTakenIff(s: Session, symbol: string, q: Quote, t: ObserveAt)
    ensures var j, o := s.journal, ProcessQuote(s, symbol, q, t);
            var taken := s.ready && Usable(symbol, q, t) && Advances(j, symbol, q, t) && Unlatched(j, symbol);
            && (o.result.Ok? && o.result.value.accepted <==> taken)
            && (!taken ==> o.session == s)
            && (taken ==> o.session == s.(journal := j.(quotes := j.quotes[symbol := QuoteCheckpoint(q.price, q.receivedAt, t.now)],
                                                        latches := o.session.journal.latches)))
  {
    hide EvaluateQuote;
    var j := s.journal;
    assert QuoteRejection(j, symbol, q, t).None? <==> Usable(symbol, q, t) && Advances(j, symbol, q, t) && Unlatched(j, symbol);
  }

  /** A latch once retained is the answer to every quote and to the direct path of its own kind; nothing changes. */
  lemma RetainedAnswers(s: Session, kind: RuleKind, symbol: string, q: Quote, t: ObserveAt, l: StopLatch)
    requires OneLatchPerSymbol(s.journal) && l in s.journal.latches && l.symbol == symbol && s.ready
    ensures LatchStop(s, kind, symbol, Some(q), t) == Outcome(Ok(if l.kind == kind then Some(l) else None), s)
    ensures Usable(symbol, q, t) && Advances(s.journal, symbol, q, t) ==>
              ProcessQuote(s, symbol, q, t) == Outcome(Ok(StopInput(false, Unavailable("STOP_ALREADY_LATCHED"), Some(l))), s)
  {
    hide EvaluateQuote;
    forall x | x in s.journal.latches && LatchOf(symbol)(x) ensures x == l {
      var m :| 0 <= m < |s.journal.latches| && s.journal.latches[m] == x;
      var n :| 0 <= n < |s.journal.latches| && s.journal.latches[n] == l;
    }
    FirstOnly(LatchOf(symbol), s.journal.latches, l);
  }
}
