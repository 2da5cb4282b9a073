/** The last control set for a symbol stands until the next one, and while it stops entries the symbol
    gains no buy. */
module Controls {
  import opened Basics
  import opened Models
  import opened Ownership
  import opened Outcomes
  import opened Projection
  import opened Validation
  import opened Steps
  import opened StopEvaluation
  import opened LedgerSpec
  import opened DispatchSpec
  import opened StopSignals
  import opened Runs
  import opened Worlds
  import opened Meaning
  import opened StopFires
  import opened Admission
  import opened Claims
  import opened Origins
  import opened PlacementKeys

  lemma EvidenceSetsNoControl(w: World, op: Op)
    requires TakesEvidence(op)
    ensures Perform(w, op).Journal().controls == w.Journal().controls
  {
    hide CheckFact, First, AssignmentsFor, LinkedFill;
  }

  lemma QuotesSetNoControl(w: World, op: Op)
    requires TakesQuotes(op)
    ensures Perform(w, op).Journal().controls == w.Journal().controls
  {
    hide QuoteRejection, EvaluateQuote, PortfolioOf, ConfirmedHoldings, ConfirmedCostBasis, EvaluateStop, First;
  }

  lemma OthersSetNoControl(w: World, op: Op)
    requires !op.DoControl? && !TakesEvidence(op) && !TakesQuotes(op)
    ensures Perform(w, op).Journal().controls == w.Journal().controls
  {
    hide CheckSubmission, RecoveryFacts, Claimable, StopMayGo, CheckFreshness, BuyMayGo, ExistingApplication, CheckApplyVersion,
         AppliedVersion, Status, ReviewedSymbols, PortfolioOf, First;
  }

  lemma OnlyControlsControl(w: World, op: Op)
    requires !op.DoControl?
    ensures Perform(w, op).Journal().controls == w.Journal().controls
  {
    hide Perform, TakesEvidence, TakesQuotes;
    if TakesEvidence(op) {
      EvidenceSetsNoControl(w, op);
    } else if TakesQuotes(op) {
      QuotesSetNoControl(w, op);
    } else {
      OthersSetNoControl(w, op);
    }
  }

  lemma SameControls(j: Journal, k: Journal, symbol: string)
    requires j.controls == k.controls
    ensures Stopped(j, symbol) <==> Stopped(k, symbol)
    ensures Liquidating(j, symbol) <==> Liquidating(k, symbol)
  {
  }

  predicate Leaves(op: Op, symbol: string) { op.DoControl? ==> op.control.symbol != symbol }

  lemma OpKeepsControl(w: World, op: Op, symbol: string)
    requires Leaves(op, symbol)
    ensures Stopped(Perform(w, op).Journal(), symbol) <==> Stopped(w.Journal(), symbol)
    ensures Liquidating(Perform(w, op).Journal(), symbol) <==> Liquidating(w.Journal(), symbol)
  {
    hide Stopped, Liquidating;
    if op.DoControl? {
      hide Commit;
      ControlTakenIff(w.session, op.control, symbol);
    } else {
      OnlyControlsControl(w, op);
      SameControls(w.Journal(), Perform(w, op).Journal(), symbol);
    }
  }

  ghost predicate BuyOf(j: Journal, r: Request, symbol: string) {
    r in j.requests && r.command.New? && r.command.side.Buy? && r.command.symbol == symbol
  }

  /** The symbol has no buy in k that it had not in j. */
  ghost predicate NoNewBuy(j: Journal, k: Journal, symbol: string) { forall r :: BuyOf(k, r, symbol) ==> r in j.requests }

  lemma StoppedOpBuysNothing(w: World, op: Op, symbol: string)
    requires Invariant(w.Journal()) && Stopped(w.Journal(), symbol)
    ensures NoNewBuy(w.Journal(), Perform(w, op).Journal(), symbol)
  {
    hide Invariant, Perform, Stopped, Submit, LinkStands, Current, Calm;
    forall r | BuyOf(Perform(w, op).Journal(), r, symbol)
      ensures r in w.Journal().requests
    {
      if r !in w.Journal().requests {
        RequestMaker(w, op, r);
        SubmitTakenIff(w.session, r.command, op.now, op.rid, op.oid);
      }
    }
  }

  /** Until the symbol's next control a stopped symbol gains no buy and none of its buys is claimed, in every
      run, crashes included; and a control is never lost. */
  lemma {:induction false} StoppedBuysNothing(w: World, ops: seq<Op>, symbol: string)
    requires Invariant(w.Journal()) && Legal(w, ops) && forall op :: op in ops ==> Leaves(op, symbol)
    ensures var after := RunAll(w, ops).Journal();
            && (Stopped(after, symbol) <==> Stopped(w.Journal(), symbol))
            && (Liquidating(after, symbol) <==> Liquidating(w.Journal(), symbol))
            && (Stopped(w.Journal(), symbol) ==> NoNewBuy(w.Journal(), after, symbol))
    ensures var after := RunAll(w, ops);
            forall r, market, now, eid :: Stopped(w.Journal(), symbol) && BuyOf(after.Journal(), r, symbol) ==>
              Claim(after.session, r.requestId, market, now, eid).result != Ok(true)
  {
    hide Invariant, Perform, Worlds.Fresh, Stopped, Liquidating, Leaves, Claim, Follows, Untouched, Calm, Current;
    RunIsGood(w, ops);
    if |ops| > 0 {
      var n := |ops| - 1;
      assert ops[n] in ops;
      StoppedBuysNothing(w, ops[..n], symbol);
      RunIsGood(w, ops[..n]);
      OpKeepsControl(RunAll(w, ops[..n]), ops[n], symbol);
      if Stopped(w.Journal(), symbol) { StoppedOpBuysNothing(RunAll(w, ops[..n]), ops[n], symbol); }
    }
    var after := RunAll(w, ops);
    forall r, market, now, eid | Stopped(w.Journal(), symbol) && BuyOf(after.Journal(), r, symbol)
      ensures Claim(after.session, r.requestId, market, now, eid).result != Ok(true)
    {
      ClaimedIff(after.session, r, market, now, eid);
    }
  }
}
