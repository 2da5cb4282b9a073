/** A symbol reserved to its last share stays so until evidence arrives, and until then neither a drain
    nor a liquidation finds anything to do. */
module Idleness {
  import opened Basics
  import opened Models
  import opened Ownership
  import opened Outcomes
  import opened Projection
  import opened Validation
  import opened Steps
  import opened StopEvaluation
  import opened LedgerSpec
  import opened DispatchSpec
  import opened StopObligations
  import StopSignals
  import opened Oversell
  import opened Runs
  import opened Worlds
  import opened Dispatch
  import opened Drain
  import opened Liquidation
  import opened Refinement
  import opened Reconciliation

  /** The symbol has orders, and all it manages is reserved. */
  ghost predicate Full(j: Journal, symbol: string) {
    && (exists r :: r in j.requests && r.command.symbol == symbol)
    && Reserved(j, symbol) == Managed(j, symbol)
  }

  /** Evidence that moves no quantity: local boundaries and records about a symbol. */
  predicate IsStill(f: Fact) {
    f.Transport? || f.Discrepancy? || f.Reconciled? || f.QuarantinedFill? || f.QuarantineReleased?
  }

  /* ----- what a step does to a full symbol ----- */

  lemma StillView(facts: seq<Fact>, f: Fact, r: Request)
    requires r.command.New? && IsStill(f)
    ensures View(facts + [f], r) == View(facts, r)
  {
    hide View;
    if f.Transport? { TransportsKeepView(facts, [f], r); } else { UnconcernedView(facts, f, r); }
  }

  lemma StillFactKeeps(j: Journal, f: Fact, given: seq<StopAssignment>, symbol: string)
    requires IsStill(f)
    ensures var k := Commit(j, AddFact(f, given));
            Managed(k, symbol) == Managed(j, symbol) && Reserved(k, symbol) == Reserved(j, symbol)
  {
    hide View, Total, IsStill;
    var k := Commit(j, AddFact(f, given));
    forall x | x in j.requests
      ensures ManagedBy(k, symbol)(x) == ManagedBy(j, symbol)(x) && ReservedBy(k, symbol)(x) == ReservedBy(j, symbol)(x)
    {
      if x.command.New? {
        StillView(j.facts, f, x);
        var i := Initial(j.requests, x.orderId);
        if i.Some? { StillView(j.facts, f, i.value); }
      }
    }
    TotalEq(ManagedBy(k, symbol), ManagedBy(j, symbol), j.requests);
    TotalEq(ReservedBy(k, symbol), ReservedBy(j, symbol), j.requests);
  }

  /** A full symbol admits no sell; any other request neither holds nor reserves anything of it. */
  lemma RequestKeepsFull(j: Journal, r: Request, symbol: string)
    requires WellFormed(j) && Admissible(j, r) && Full(j, symbol)
    ensures Full(Commit(j, AddRequest(r)), symbol)
  {
    hide WellFormed, Admissible, Snapshot, Total, View;
    var k := Commit(j, AddRequest(r));
    forall x | x in j.requests
      ensures ManagedBy(k, symbol)(x) == ManagedBy(j, symbol)(x) && ReservedBy(k, symbol)(x) == ReservedBy(j, symbol)(x)
    {
      if x.command.New? { OldSnapshotsStay(j, r, x); }
    }
    TotalEq(ManagedBy(k, symbol), ManagedBy(j, symbol), j.requests);
    TotalEq(ReservedBy(k, symbol), ReservedBy(j, symbol), j.requests);
    TotalAppend(ManagedBy(k, symbol), j.requests, r);
    TotalAppend(ReservedBy(k, symbol), j.requests, r);
    if r.command.New? {
      FreshSnapshot(j, r);
      FreshView(j, r);
      if r.command.side.Sell? { SellFits(j, r); }
    }
  }

  lemma AllocationKeepsFull(j: Journal, a: Allocation, symbol: string)
    requires Full(j, symbol) && Allowed(j, AddAllocation(a))
    ensures Full(Commit(j, AddAllocation(a)), symbol)
  {
    hide Total, ManagedBy, ReservedBy;
    var k := Commit(j, AddAllocation(a));
    SameQuantities(j, k, symbol);
    TotalAppend(AllocatedTo(symbol), j.allocations, a);
  }

  /** Positions are made of requests, facts and allocations. */
  lemma SameQuantities(j: Journal, k: Journal, symbol: string)
    requires k.requests == j.requests && k.facts == j.facts
    ensures Total(ManagedBy(k, symbol), k.requests) == Total(ManagedBy(j, symbol), j.requests)
    ensures Reserved(k, symbol) == Reserved(j, symbol)
  {
    hide View, Total;
    TotalEq(ManagedBy(k, symbol), ManagedBy(j, symbol), j.requests);
    TotalEq(ReservedBy(k, symbol), ReservedBy(j, symbol), j.requests);
  }

  lemma StepKeepsFull(j: Journal, s: Step, symbol: string)
    requires WellFormed(j) && Allowed(j, s) && Full(j, symbol) && (s.AddFact? ==> IsStill(s.fact))
    ensures Full(Commit(j, s), symbol)
  {
    hide WellFormed, CheckFact, Admissible, AppliedVersion, MeetsRule, Total, ManagedBy, IsStill;
    var k := Commit(j, s);
    match s
    case AddRequest(r) => RequestKeepsFull(j, r, symbol);
    case AddFact(f, given) => StillFactKeeps(j, f, given, symbol);
    case AddAllocation(a) => AllocationKeepsFull(j, a, symbol);
    case _ => SameQuantities(j, k, symbol);
  }

  /* ----- runs ----- */

  /** Of the facts that k has beyond j none moves a quantity. */
  ghost predicate OnlyStill(j: Journal, k: Journal) {
    forall i :: |j.facts| <= i < |k.facts| ==> IsStill(k.facts[i])
  }

  lemma {:induction false} StepsKeepFull(j: Journal, steps: seq<Step>, symbol: string)
    requires Invariant(j) && AllAllowed(j, steps) && Full(j, symbol) && OnlyStill(j, CommitAll(j, steps))
    ensures Full(CommitAll(j, steps), symbol) && Grows(j, CommitAll(j, steps))
  {
    hide Invariant, Allowed, Full, IsStill;
    if |steps| > 0 {
      var n := |steps| - 1;
      var mid := CommitAll(j, steps[..n]);
      StepsKeep(j, steps[..n]);
      FollowsGrows(j, mid);
      assert mid.facts <= Commit(mid, steps[n]).facts;
      StepsKeepFull(j, steps[..n], symbol);
      GoodIsWellFormed(mid);
      if steps[n].AddFact? { assert Commit(mid, steps[n]).facts[|mid.facts|] == steps[n].fact; }
      StepKeepsFull(mid, steps[n], symbol);
    }
  }

  lemma FollowsGrows(j: Journal, k: Journal)
    requires StopSignals.Follows(j, k)
    ensures Grows(j, k)
  {
  }

  /** Operations that bring no evidence about quantities; crashes, claims, calls, recoveries and controls
      are among them. */
  predicate BringsNothing(op: Op) {
    (op.DoIngest? ==> IsStill(op.fact)) && !op.DoDiscard? && !op.DoReprocess?
  }

  lemma BroughtNothing(w: World, op: Op)
    requires BringsNothing(op)
    ensures OnlyStill(w.Journal(), Perform(w, op).Journal())
  {
    hide CheckFact, CheckSubmission, First, AssignmentsFor, QuoteRejection, EvaluateQuote, RecoveryFacts, Claimable, StopMayGo,
         CheckFreshness, BuyMayGo, PortfolioOf, ConfirmedHoldings, ConfirmedCostBasis, EvaluateStop, ExistingApplication,
         CheckApplyVersion, AppliedVersion, Status, ReviewedSymbols;
    if op.DoRecover? && |op.eids| == |w.Journal().requests| {
      var j := w.Journal();
      RecoveryFactIds(j.facts, j.requests, op.eids);
      var ts := RecoveryFacts(j.facts, j.requests, op.eids);
      assert forall i :: 0 <= i < |ts| ==> ts[i] in ts;
    }
  }

  lemma OpKeepsFull(w: World, op: Op, symbol: string)
    requires Invariant(w.Journal()) && Worlds.Fresh(w, op) && Full(w.Journal(), symbol) && BringsNothing(op)
    ensures Full(Perform(w, op).Journal(), symbol)
  {
    hide Invariant, Worlds.Fresh, Perform, Full, AllAllowed, CommitAll, BringsNothing, OnlyStill;
    GoodIsWellFormed(w.Journal());
    PerformReaches(w, op);
    BroughtNothing(w, op);
    var steps :| AllAllowed(w.Journal(), steps) && CommitAll(w.Journal(), steps) == Perform(w, op).Journal();
    StepsKeepFull(w.Journal(), steps, symbol);
  }

  lemma {:induction false} RunKeepsFull(w: World, ops: seq<Op>, symbol: string)
    requires Invariant(w.Journal()) && Legal(w, ops) && Full(w.Journal(), symbol)
    requires forall op :: op in ops ==> BringsNothing(op)
    ensures Full(RunAll(w, ops).Journal(), symbol)
  {
    hide Invariant, Worlds.Fresh, Perform, Full, BringsNothing, StopSignals.Follows;
    if |ops| > 0 {
      var n := |ops| - 1;
      assert ops[n] in ops;
      RunKeepsFull(w, ops[..n], symbol);
      RunIsGood(w, ops[..n]);
      OpKeepsFull(RunAll(w, ops[..n]), ops[n], symbol);
    }
  }

  function DeskOf(w: World): Desk { Desk(w.session, w.calls) }

  lemma FullIsIdle(d: Desk, symbol: string, market: MarketSession, seen: Journal, now: int, ids: Supply)
    requires Full(d.session.journal, symbol)
    ensures DispatchSpec.Drain(d, symbol, market, now, ids) == Draining(Ok(None), d)
    ensures LiquidateOne(d, seen, symbol, now, ids) == Draining(Ok(None), d)
  {
    hide Managed, Reserved, Discrepant, AnySellUnclear, LastControl, DrainIntent, Place, FailedSell;
    FullyReservedIsIdle(d, symbol, market, now, ids);
  }

  /** What a drain or a liquidation that acted leaves behind: a good, full journal. */
  lemma PlacedIsFull(d: Desk, c: Command, ids: Supply, symbol: string)
    requires c.symbol == symbol
    requires Reserved(Drained(d, c, ids).session.journal, symbol) == Managed(Drained(d, c, ids).session.journal, symbol)
    ensures Full(Drained(d, c, ids).session.journal, symbol)
  {
    hide Managed, Reserved, Commit;
    var r := RequestFor(c, ids.requestId, ids.orderId);
    AcknowledgedKeeps(Commit(d.session.journal, AddRequest(r)), r, ids);
    RequestIsLast(d.session.journal, r);
  }

  lemma RequestIsLast(j: Journal, r: Request)
    ensures r in Commit(j, AddRequest(r)).requests
  {
  }

  lemma AcknowledgedKeeps(j: Journal, r: Request, ids: Supply)
    ensures Acknowledged(j, r, ids).requests == j.requests
  {
  }

  /** After a drain that acted, and any legal run that brings no evidence about quantities, every drain
      of the symbol returns nothing and leaves everything as it is. */
  lemma DrainedStaysIdle(d: Desk, symbol: string, market: MarketSession, now: int, ids: Supply,
                         ops: seq<Op>, market': MarketSession, now': int, ids': Supply)
    requires Invariant(d.session.journal) && FreshSupply(d.session.journal, ids)
    requires DrainIntent(d.session, symbol, market).Some?
    requires First(KeyIs(DrainIntent(d.session, symbol, market).value.key), d.session.journal.requests).None?
    requires Legal(Idle(DispatchSpec.Drain(d, symbol, market, now, ids).desk), ops) && forall op :: op in ops ==> BringsNothing(op)
    ensures var w := Idle(DispatchSpec.Drain(d, symbol, market, now, ids).desk);
            var later := DeskOf(RunAll(w, ops));
            DispatchSpec.Drain(later, symbol, market', now', ids') == Draining(Ok(None), later)
  {
    hide Invariant, DispatchSpec.Drain, DrainIntent, Drained, Managed, Reserved, FreshSupply, RunAll, Legal, BringsNothing, Full, RunsTo;
    var first := DispatchSpec.Drain(d, symbol, market, now, ids).desk;
    var c := DrainIntent(d.session, symbol, market).value;
    DrainCovers(d, symbol, market, now, ids);
    IntentNames(d.session, symbol, market);
    PlacedIsFull(d, c, ids, symbol);
    DrainIsRun(d, symbol, market, now, ids);
    RunsStayGood(Idle(d), Idle(first));
    RunKeepsFull(Idle(first), ops, symbol);
    FullIsIdle(DeskOf(RunAll(Idle(first), ops)), symbol, market', EMPTY, now', ids');
  }

  lemma IntentNames(s: Session, symbol: string, market: MarketSession)
    requires DrainIntent(s, symbol, market).Some?
    ensures DrainIntent(s, symbol, market).value.symbol == symbol
  {
    hide Views, FailedSell, LastControl, LatchedCandidate, Digits, AppliedVersion;
  }

  /** The same of a liquidation that acted. */
  lemma LiquidatedStaysIdle(d: Desk, seen: Journal, symbol: string, now: int, ids: Supply,
                            ops: seq<Op>, seen': Journal, now': int, ids': Supply)
    requires Invariant(d.session.journal) && FreshSupply(d.session.journal, ids) && MayLiquidate(d, seen, symbol)
    requires Legal(Idle(LiquidateOne(d, seen, symbol, now, ids).desk), ops) && forall op :: op in ops ==> BringsNothing(op)
    ensures var w := Idle(LiquidateOne(d, seen, symbol, now, ids).desk);
            var later := DeskOf(RunAll(w, ops));
            LiquidateOne(later, seen', symbol, now', ids') == Draining(Ok(None), later)
  {
    hide Invariant, LiquidateOne, LiquidationCommand, Drained, Managed, Reserved, PortfolioOf, FreshSupply, RunAll, Legal,
         BringsNothing, Full, RunsTo;
    var first := LiquidateOne(d, seen, symbol, now, ids).desk;
    var c := LiquidationCommand(seen, symbol, PortfolioOf(d.session.journal, symbol).Available());
    LiquidationCovers(d, seen, symbol, now, ids);
    LiquidationNames(seen, symbol, PortfolioOf(d.session.journal, symbol).Available());
    PlacedIsFull(d, c, ids, symbol);
    LiquidateOneIsRun(d, seen, symbol, now, ids);
    RunsStayGood(Idle(d), Idle(first));
    RunKeepsFull(Idle(first), ops, symbol);
    FullIsIdle(DeskOf(RunAll(Idle(first), ops)), symbol, REGULAR, seen', now', ids');
  }

  lemma LiquidationNames(seen: Journal, symbol: string, qty: Positive)
    ensures LiquidationCommand(seen, symbol, qty).symbol == symbol
  {
  }
}
