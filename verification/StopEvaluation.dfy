/** Stop observations over confirmed holdings (contracts/stop_evaluation.py and the stop
    projections of execution/projection.py and execution/ledger.py). */
module StopEvaluation {
  import opened Basics
  import opened Models
  import opened Projection

  const MICROSECONDS := 1_000_000

  datatype Quote = Quote(symbol: string, price: real, receivedAt: int)
  datatype ObserveAt = ObserveAt(now: int, maxAgeSeconds: Positive)
  datatype Verdict = Triggered | NotTriggered | Unavailable(reason: string)
  datatype Candidate = Candidate(unreserved: nat) | Blocked(reason: string) | NoCandidate(reason: string)

  /** Confirmed shares, with the exact average cost when every price is known. */
  datatype Holding = Holding(qty: int, ruleVersion: Positive, averageCost: Option<real>)

  predicate IsFresh(q: Quote, t: ObserveAt) {
    0 <= t.now - q.receivedAt <= t.maxAgeSeconds * MICROSECONDS
  }

  function EvaluateStop(symbol: string, h: Holding, quote: Quote, b: StopBinding, t: ObserveAt): Verdict {
    if h.qty == 0 then Unavailable("NO_MANAGED_POSITION")
    else if quote.symbol != symbol then Unavailable("QUOTE_MISSING_OR_WRONG_SYMBOL")
    else if !IsFresh(quote, t) then Unavailable("QUOTE_NOT_FRESH")
    else if b.kind.AverageCostDrop? && h.averageCost.None? then Unavailable("AVERAGE_COST_MISSING")
    else
      var threshold := if b.kind.PriceAtOrBelow? then b.threshold else h.averageCost.value * (1.0 - b.threshold);
      if quote.price <= threshold then Triggered else NotTriggered
  }

  /* ----- which rule protects the holdings ----- */

  function OrderFillOf(j: Journal, symbol: string, buysOnly: bool): Fact -> bool {
    (f: Fact) => f.Fill? && exists r :: r in j.requests && r.command.New? && r.command.symbol == symbol
                                        && r.orderId == f.orderId && (buysOnly ==> r.command.side.Buy?)
  }

  function AssignmentOf(f: Fact, symbol: string): StopAssignment -> bool
    requires f.Fill?
  {
    (a: StopAssignment) => a.fillEventId == f.eventId && a.symbol == symbol && a.qty == f.qty
  }

  function BindingOf(symbol: string, version: Positive): StopBinding -> bool {
    (b: StopBinding) => b.symbol == symbol && b.version == version
  }

  /** The revision assigned to one buy fill. */
  function RuleOf(j: Journal, f: Fact, symbol: string): Option<Positive>
    requires f.Fill?
  {
    match First(AssignmentOf(f, symbol), j.assignments)
    case Some(a) => Some(a.ruleVersion)
    case None => None
  }

  /** Managed shares all bought under one bound rule, starting holdings excluded. */
  function ConfirmedHoldings(j: Journal, symbol: string): Option<Holding> {
    var fills := Select(OrderFillOf(j, symbol, true), j.facts);
    SelectMember(OrderFillOf(j, symbol, true), j.facts);
    if (exists a :: a in j.allocations && a.symbol == symbol && a.qty > 0) || |fills| == 0 then None
    else
      assert fills[0] in fills;
      var rule := RuleOf(j, fills[0], symbol);
      if rule.None? || (exists f :: f in fills && f.Fill? && RuleOf(j, f, symbol) != rule) then None
      else if First(BindingOf(symbol, rule.value), j.bindings).None? then None
      else
        var position := PortfolioOf(j, symbol);
        if position.managed <= 0 || position.reconciliationRequired then None
        else Some(Holding(position.managed, rule.value, None))
  }

  function PaidFor(): Fact -> real { (f: Fact) => if f.Fill? && f.price.Some? then f.price.value * (f.qty as real) else 0.0 }
  function QtyOfFill(): Fact -> int { (f: Fact) => if f.Fill? then f.qty else 0 }

  function Sum(w: Fact -> real, s: seq<Fact>): real {
    if |s| == 0 then 0.0 else Sum(w, s[..|s| - 1]) + w(s[|s| - 1])
  }

  predicate IsSold(j: Journal, f: Fact)
    requires f.Fill?
  {
    exists r :: r in j.requests && r.command.New? && r.orderId == f.orderId && r.command.side.Sell?
  }

  /** The holdings with their average cost, when nothing was sold and every price is known. */
  function ConfirmedCostBasis(j: Journal, symbol: string): Option<Holding> {
    var h := ConfirmedHoldings(j, symbol);
    var fills := Select(OrderFillOf(j, symbol, false), j.facts);
    SelectMember(OrderFillOf(j, symbol, false), j.facts);
    if h.None? then None
    else if exists f :: f in fills && f.Fill? && (f.price.None? || IsSold(j, f)) then None
    else
      var qty := Total(QtyOfFill(), fills);
      if qty != h.value.qty || qty == 0 then None
      else Some(h.value.(averageCost := Some(Sum(PaidFor(), fills) / (qty as real))))
  }

  /** The evaluation of a quote against the assigned rule, with the binding it used. */
  function EvaluateQuote(j: Journal, symbol: string, quote: Quote, t: ObserveAt): (Verdict, Option<StopBinding>) {
    var position := PortfolioOf(j, symbol);
    if position.reconciliationRequired || position.sellUncertain then (Unavailable("SELL_EVIDENCE_UNRESOLVED"), None)
    else if position.Available() == 0 then (Unavailable("NO_UNRESERVED_MANAGED_POSITION"), None)
    else
      var basis := ConfirmedCostBasis(j, symbol);
      var held := if basis.Some? then basis else ConfirmedHoldings(j, symbol);
      if held.None? then (Unavailable("STOP_RULE_EVIDENCE_INCOMPLETE"), None)
      else
        match First(BindingOf(symbol, held.value.ruleVersion), j.bindings)
        case None => (Unavailable("STOP_RULE_EVIDENCE_INCOMPLETE"), None)
        case Some(b) => (EvaluateStop(symbol, held.value, quote, b, t), Some(b))
  }

  /* ----- what a cost basis means ----- */

  ghost predicate PricedWithin(f: Fact, lo: real, hi: real) { f.Fill? && f.price.Some? && lo <= f.price.value <= hi }

  lemma PaidForWithin(f: Fact, lo: real, hi: real)
    requires PricedWithin(f, lo, hi)
    ensures lo * QtyOfFill()(f) as real <= PaidFor()(f) <= hi * QtyOfFill()(f) as real
  {
  }

  lemma {:induction false} PaidWithin(fills: seq<Fact>, lo: real, hi: real)
    requires forall f :: f in fills ==> PricedWithin(f, lo, hi)
    ensures lo * Total(QtyOfFill(), fills) as real <= Sum(PaidFor(), fills) <= hi * Total(QtyOfFill(), fills) as real
  {
    hide PricedWithin, PaidFor, QtyOfFill;
    if |fills| > 0 {
      var n := |fills| - 1;
      PaidWithin(fills[..n], lo, hi);
      assert fills[n] in fills;
      PaidForWithin(fills[n], lo, hi);
      var a, b := Total(QtyOfFill(), fills[..n]) as real, QtyOfFill()(fills[n]) as real;
      assert Total(QtyOfFill(), fills) as real == a + b;
      assert lo * (a + b) == lo * a + lo * b && hi * (a + b) == hi * a + hi * b;
    }
  }

  /** A confirmed cost lies between the lowest and the highest price paid, and is of all the managed
      shares. */
  lemma CostIsAMean(j: Journal, symbol: string, lo: real, hi: real)
    requires ConfirmedCostBasis(j, symbol).Some?
    requires forall f :: f in j.facts && OrderFillOf(j, symbol, false)(f) && f.Fill? && f.price.Some? ==> lo <= f.price.value <= hi
    ensures var h := ConfirmedCostBasis(j, symbol).value;
            && h.averageCost.Some? && lo <= h.averageCost.value <= hi
            && h.qty == Managed(j, symbol) == Total(QtyOfFill(), Select(OrderFillOf(j, symbol, false), j.facts))
  {
    hide Managed, Reserved, Discrepant, AnySellUnclear, LastControl, OrderFillOf, PaidFor, QtyOfFill, RuleOf, IsSold;
    var fills := Select(OrderFillOf(j, symbol, false), j.facts);
    SelectMember(OrderFillOf(j, symbol, false), j.facts);
    FillsAreFills(j, symbol, fills);
    PaidWithin(fills, lo, hi);
    var qty := Total(QtyOfFill(), fills);
    Quotient(Sum(PaidFor(), fills), qty as real, lo, hi);
  }

  lemma FillsAreFills(j: Journal, symbol: string, fills: seq<Fact>)
    requires forall f :: f in fills ==> OrderFillOf(j, symbol, false)(f)
    ensures forall f :: f in fills ==> f.Fill?
  {
  }

  lemma Quotient(paid: real, qty: real, lo: real, hi: real)
    requires qty > 0.0 && lo * qty <= paid <= hi * qty
    ensures lo <= paid / qty <= hi
  {
  }

  /** A fill of a buy of the symbol, at a known price. */
  ghost predicate PaidBuy(j: Journal, symbol: string, f: Fact) {
    f.Fill? && f.price.Some? && OrderFillOf(j, symbol, true)(f)
  }

  lemma PaidForLess(f: Fact, k: real, c: real)
    requires f.Fill? && f.price.Some? && f.price.value * k < c
    ensures k * PaidFor()(f) < c * QtyOfFill()(f) as real
  {
    var q := f.qty as real;
    assert (f.price.value * k) * q < c * q;
    assert k * (f.price.value * q) == (f.price.value * k) * q;
  }

  lemma {:induction false} PaidLess(fills: seq<Fact>, k: real, c: real)
    requires |fills| > 0 && forall f :: f in fills ==> f.Fill? && f.price.Some? && f.price.value * k < c
    ensures k * Sum(PaidFor(), fills) < c * Total(QtyOfFill(), fills) as real
  {
    hide PaidFor, QtyOfFill;
    var n := |fills| - 1;
    assert fills[n] in fills;
    PaidForLess(fills[n], k, c);
    var a, b := Total(QtyOfFill(), fills[..n]) as real, QtyOfFill()(fills[n]) as real;
    assert Total(QtyOfFill(), fills) as real == a + b;
    assert c * (a + b) == c * a + c * b;
    assert k * (Sum(PaidFor(), fills[..n]) + PaidFor()(fills[n])) == k * Sum(PaidFor(), fills[..n]) + k * PaidFor()(fills[n]);
    if n > 0 { PaidLess(fills[..n], k, c); }
  }

  lemma FractionLess(paid: real, qty: real, k: real, c: real)
    requires qty > 0.0 && k * paid < c * qty
    ensures (paid / qty) * k < c
  {
    assert ((paid / qty) * k) * qty == k * paid;
  }

  /** What holds of a confirmed average cost in proportion holds of some price paid. */
  lemma SomeBuyPaidIt(j: Journal, symbol: string, k: real, c: real)
    requires ConfirmedCostBasis(j, symbol).Some? && ConfirmedCostBasis(j, symbol).value.averageCost.Some?
    requires c <= ConfirmedCostBasis(j, symbol).value.averageCost.value * k
    ensures exists f :: f in j.facts && PaidBuy(j, symbol, f) && c <= f.price.value * k
  {
    hide ConfirmedHoldings, PaidFor, QtyOfFill;
    var fills := Select(OrderFillOf(j, symbol, false), j.facts);
    SelectMember(OrderFillOf(j, symbol, false), j.facts);
    forall f | f in fills ensures f in j.facts && PaidBuy(j, symbol, f) {
      assert OrderFillOf(j, symbol, false)(f);
    }
    var qty := Total(QtyOfFill(), fills);
    if forall f :: f in fills ==> f.price.value * k < c {
      HasQuantity(fills);
      PaidLess(fills, k, c);
      FillsWeigh(fills);
      FractionLess(Sum(PaidFor(), fills), qty as real, k, c);
    }
  }

  lemma HasQuantity(fills: seq<Fact>)
    ensures Total(QtyOfFill(), fills) != 0 ==> |fills| > 0
  {
  }

  lemma FillsWeigh(fills: seq<Fact>)
    ensures 0 <= Total(QtyOfFill(), fills)
  {
    TotalNonNegative(QtyOfFill(), fills);
  }
}
