/** What the progress shown of a protected slice means: with anything unexplained about its symbol it is
    blocked; otherwise its executions and refusals say where it stands. */
module SliceProgress {
  import opened Basics
  import opened Models
  import opened Outcomes
  import opened Projection
  import opened Validation
  import opened Steps
  import opened StopObligations
  import opened Oversell
  import opened ChangeSerialisation
  import opened Runs
  import opened Meaning

  /** The slice and the stop sell it was recorded with. */
  ghost predicate SliceOf(j: Journal, o: StopObligation, r: Request) {
    o in j.obligations && r in j.requests && ObligationsOf(r) == [o]
  }

  ghost predicate Executed(j: Journal, o: StopObligation) { Total(FilledBy(o.orderId), j.facts) == o.qty }

  /** The stop sell failed, was rejected, or was cancelled to nothing. */
  ghost predicate Ended(j: Journal, o: StopObligation, r: Request) {
    (exists f :: f in j.facts && Negative(f, r)) || exists f :: f in j.facts && f.Cancelled? && f.orderId == o.orderId && f.remaining == 0
  }

  lemma {:induction false} AmendmentsNeverAdd(j: Journal, oid: Id, facts: seq<Fact>)
    requires AmendmentsLower(j) && facts <= j.facts
    ensures Total(AmendedBy(oid), facts) <= 0
  {
    if |facts| > 0 {
      assert facts[|facts| - 1] in j.facts;
      AmendmentsNeverAdd(j, oid, facts[..|facts| - 1]);
    }
  }

  lemma CalmOrder(j: Journal, r: Request)
    requires WellFormed(j) && r in j.requests && r.command.New? && r.command.side.Sell? && r.decision.Accepted?
    requires Calm(j, r.command.symbol)
    ensures !View(j.facts, r).reconciliationRequired && !Status(j.facts, r).conflict && !Status(j.facts, r).transport.Observed?
  {
    hide WellFormed, View, Status, InDoubt;
    Lookup(j, r);
    ObservedIsDoubt(j.facts, r);
    assert Alarms(j, r) <==> View(j.facts, r).reconciliationRequired || Status(j.facts, r).conflict;
  }

  /** Of an order without a contradiction: its quantities are within bounds, and once it is executed, refused
      or cancelled to nothing it reserves nothing. */
  lemma QuietOrder(facts: seq<Fact>, r: Request)
    requires r.command.New? && r.command.side.Sell? && !View(facts, r).reconciliationRequired
    requires Total(AmendedBy(r.orderId), facts) <= 0
    ensures View(facts, r).filled == Total(FilledBy(r.orderId), facts) <= r.command.qty
    ensures View(facts, r).filled == r.command.qty || View(facts, r).terminalCancel || Void(Status(facts, r)) ==>
              View(facts, r).reserved == 0
    ensures View(facts, r).terminalCancel <==> CancelledToZero(facts, r.orderId)
  {
    hide Status, Observations, Latest, Tied, Revived, CancelledToZero, Total, Select;
    CancelsWeigh(facts, r.orderId);
  }

  lemma CancelsWeigh(facts: seq<Fact>, oid: Id)
    ensures 0 <= Total(CancelledBy(oid), facts)
  {
    TotalNonNegative(CancelledBy(oid), facts);
  }

  lemma RefusedIsVoid(facts: seq<Fact>, r: Request)
    requires !Status(facts, r).conflict && (Status(facts, r).failed || Status(facts, r).rejected)
    ensures Void(Status(facts, r))
  {
  }

  lemma ViewFields(facts: seq<Fact>, r: Request)
    requires r.command.New?
    ensures View(facts, r).rejected == Status(facts, r).rejected && View(facts, r).submissionFailed == Status(facts, r).failed
  {
    hide Status, Observations, Latest, Tied, Revived, CancelledToZero, Total, Select, Exposure;
  }

  lemma SliceParts(j: Journal, o: StopObligation, r: Request)
    requires Invariant(j) && SliceOf(j, o, r)
    ensures WellFormed(j) && Paired(j) && NeverOversold(j) && AmendmentsLower(j)
    ensures r.command.New? && r.command.side.Sell? && r.decision.Accepted? && r.command.symbol == o.symbol
    ensures o == StopObligation(r.requestId, r.orderId, r.command.symbol, r.command.qty, o.ruleVersion)
    ensures First(Names(o.requestId), j.requests) == Some(r) && OrderOf(j, o.orderId) == Ok(View(j.facts, r))
    ensures Consistent(j, o.symbol, o, r, View(j.facts, r)) <==> View(j.facts, r).filled <= o.qty
  {
    hide DistinctRequests, View, Consistent, Paired, NeverOversold;
    assert Placed(j, r);
    OnlyOverfillIsInconsistent(j, o);
  }

  /** While anything about its symbol waits for an explanation every slice is blocked.  On a calm symbol none
      is: it is fulfilled when its executions make up the slice, else under review when its stop sell failed,
      was rejected or was cancelled to nothing, else pending; and a slice that is over reserves nothing. */
  lemma SliceMeans(j: Journal, o: StopObligation, r: Request)
    requires Invariant(j) && SliceOf(j, o, r)
    ensures var v := ViewOf(j, o.symbol, o);
            && v.requestId == r.requestId && v.orderId == r.orderId && v.initialQty == r.command.qty
            && v.filledQty == Total(FilledBy(o.orderId), j.facts)
            && v.unfilledQty == (if v.filledQty <= o.qty then o.qty - v.filledQty else 0)
            && (v.state.BlockedEvidence? <==> !Calm(j, o.symbol))
            && (v.state.Fulfilled? <==> Calm(j, o.symbol) && Executed(j, o))
            && (v.state.ReviewRequired? <==> Calm(j, o.symbol) && !Executed(j, o) && Ended(j, o, r))
            && (v.state.Pending? <==> Calm(j, o.symbol) && !Executed(j, o) && !Ended(j, o, r))
            && (v.state.Fulfilled? || v.state.ReviewRequired? ==> v.reservedQty == 0)
  {
    hide Invariant, WellFormed, Paired, NeverOversold, Calm, View, Status, PortfolioOf, Total, Consistent, Negative, LastReason;
    SliceParts(j, o, r);
    PositionMeans(j, o.symbol);
    AmendmentsNeverAdd(j, o.orderId, j.facts);
    ViewFields(j.facts, r);
    IntentIsUntouched(j.facts, r);
    FilledIsTotal(j.facts, r);
    if Calm(j, o.symbol) {
      CalmOrder(j, r);
      QuietOrder(j.facts, r);
      if Status(j.facts, r).failed || Status(j.facts, r).rejected { RefusedIsVoid(j.facts, r); }
    }
  }

  lemma FilledIsTotal(facts: seq<Fact>, r: Request)
    requires r.command.New?
    ensures View(facts, r).filled == Total(FilledBy(r.orderId), facts)
  {
    hide Status, Observations, Latest, Tied, Revived, CancelledToZero, Total, Select, Exposure;
  }

  /** The last refusal of a request gives the reason. */
  lemma {:induction false} LastRefusalSpeaks(facts: seq<Fact>, rid: Id, i: nat)
    requires i < |facts| && NegativeFor(rid)(facts[i]) && forall k :: i < k < |facts| ==> !NegativeFor(rid)(facts[k])
    ensures LastReason(facts, rid) == Some(facts[i].reason)
  {
    hide Select;
    var n := |facts| - 1;
    assert facts == facts[..n] + [facts[n]];
    SelectAppend(NegativeFor(rid), facts[..n], facts[n]);
    if i < n { LastRefusalSpeaks(facts[..n], rid, i); }
  }
}
