/** Where the entries of a run's journal come from: the operation that brought each of them, and the
    world it found. */
module Origins {
  import opened Basics
  import opened Models
  import opened Outcomes
  import opened Projection
  import opened Validation
  import opened Steps
  import opened StopEvaluation
  import opened LedgerSpec
  import opened DispatchSpec
  import opened StopSignals
  import opened Runs
  import opened Worlds
  import opened Theorems
  import opened PlacementKeys
  import Idleness

  /** What a run brought about, one of its operations did. */
  lemma {:induction false} TurningPoint(w: World, ops: seq<Op>, p: World -> bool) returns (k: nat)
    requires !p(w) && p(RunAll(w, ops))
    ensures k < |ops| && !p(RunAll(w, ops[..k])) && p(Perform(RunAll(w, ops[..k]), ops[k]))
    ensures RunAll(w, ops[..k + 1]) == Perform(RunAll(w, ops[..k]), ops[k])
  {
    hide Perform;
    var n := |ops| - 1;
    if p(RunAll(w, ops[..n])) {
      k := TurningPoint(w, ops[..n], p);
      assert ops[..n][..k] == ops[..k] && ops[..n][..k + 1] == ops[..k + 1];
    } else {
      k := n;
      assert ops[..n + 1] == ops;
    }
  }

  /** The world in which operation k of a run acts. */
  function Before(ops: seq<Op>, k: nat): World
    requires k <= |ops|
  {
    RunAll(START, ops[..k])
  }

  lemma LaterThan(ops: seq<Op>, k: nat)
    requires Legal(START, ops) && k <= |ops|
    ensures Legal(START, ops[..k]) && Invariant(Before(ops, k).Journal())
    ensures Legal(Before(ops, k), ops[k..]) && RunAll(Before(ops, k), ops[k..]) == RunAll(START, ops)
    ensures Grows(Before(ops, k).Journal(), RunAll(START, ops).Journal())
  {
    hide Invariant, Follows, RunAll, Legal, Grows;
    LegalFront(START, ops, k);
    RunInvariant(ops[..k]);
    RunIsGood(Before(ops, k), ops[k..]);
    Idleness.FollowsGrows(Before(ops, k).Journal(), RunAll(START, ops).Journal());
  }

  lemma LegalAt(ops: seq<Op>, k: nat)
    requires Legal(START, ops) && k < |ops|
    ensures Worlds.Fresh(Before(ops, k), ops[k]) && Before(ops, k + 1) == Perform(Before(ops, k), ops[k])
  {
    hide Invariant, Perform, Worlds.Fresh, RunAll, Legal, Grows;
    LegalFront(START, ops, k + 1);
    assert ops[..k + 1] == ops[..k] + [ops[k]];
    OneMore(START, ops[..k], ops[k]);
  }

  /** The submission that made a request: in a reviewed session and under a key of its own. */
  ghost predicate MadeBy(w: World, op: Op, r: Request) {
    && op.DoSubmit? && r.command == op.order && r.requestId == op.rid && w.session.ready
    && (forall x :: x in w.Journal().requests ==> x.command.key != r.command.key)
    && Submit(w.session, op.order, op.now, op.rid, op.oid).result == Ok(Submission(r, true))
  }

  lemma RequestMaker(w: World, op: Op, r: Request)
    requires r !in w.Journal().requests && r in Perform(w, op).Journal().requests
    ensures MadeBy(w, op, r)
  {
    hide CheckFreshness, CheckStopLink, CheckCommand;
    if !op.DoSubmit? { OnlySubmitAddsRequests(w, op); }
  }

  /** Every request of a run was made by one of its submissions. */
  lemma RequestOrigin(ops: seq<Op>, r: Request) returns (k: nat)
    requires Legal(START, ops) && r in RunAll(START, ops).Journal().requests
    ensures k < |ops| && MadeBy(Before(ops, k), ops[k], r)
  {
    hide Perform, MadeBy, RunAll, Legal;
    k := TurningPoint(START, ops, (w: World) => r in w.Journal().requests);
    RequestMaker(Before(ops, k), ops[k], r);
  }

  /* ----- evidence ----- */

  /** The operation that journals a fact: an ingested one, the retirement of an intention, the halves of a
      reprocessing, a claim, or a recovery. */
  ghost predicate Brings(w: World, op: Op, f: Fact) {
    match op
    case DoIngest(g) => f == g && Ingest(w.session, g).result == Ok(true)
    case DoDiscard(rid, reason, _) => f == DiscardFact(rid, reason)
    case DoReprocess(qid, proof, _) => f == ReleaseFact(qid, proof) || LinkedFill(w.Journal(), qid) == Ok(f)
    case DoClaim(rid, market, now, eid) =>
      f == Transport(eid, rid, SENDING) && Claim(w.session, rid, market, now, eid).result == Ok(true)
    case DoRecover(_) => f.Transport? && !f.state.SENDING?
    case _ => false
  }

  lemma EvidenceBrings(w: World, op: Op, f: Fact)
    requires TakesEvidence(op) && f !in w.Journal().facts && f in Perform(w, op).Journal().facts
    ensures Brings(w, op, f)
  {
    hide CheckFact, First, AssignmentsFor, LinkedFill;
  }

  lemma QuotesBringNone(w: World, op: Op)
    requires TakesQuotes(op)
    ensures Perform(w, op).Journal().facts == w.Journal().facts
  {
    hide QuoteRejection, EvaluateQuote, PortfolioOf, ConfirmedHoldings, ConfirmedCostBasis, EvaluateStop, First;
  }

  lemma {:induction false} RecoveryBrings(facts: seq<Fact>, requests: seq<Request>, eids: seq<Id>)
    requires |eids| == |requests|
    ensures forall f :: f in RecoveryFacts(facts, requests, eids) ==> f.Transport? && !f.state.SENDING?
  {
    hide Status;
    if |requests| > 0 { RecoveryBrings(facts, requests[..|requests| - 1], eids[..|requests| - 1]); }
  }

  lemma OthersBring(w: World, op: Op, f: Fact)
    requires !TakesEvidence(op) && !TakesQuotes(op) && f !in w.Journal().facts && f in Perform(w, op).Journal().facts
    ensures Brings(w, op, f)
  {
    hide RecoveryFacts, Claimable, StopMayGo, CheckFreshness, BuyMayGo, ExistingApplication, CheckApplyVersion,
         AppliedVersion, Status, ReviewedSymbols, PortfolioOf, First, CheckSubmission;
    if op.DoRecover? && |op.eids| == |w.Journal().requests| { RecoveryBrings(w.Journal().facts, w.Journal().requests, op.eids); }
  }

  lemma FactBringer(w: World, op: Op, f: Fact)
    requires f !in w.Journal().facts && f in Perform(w, op).Journal().facts
    ensures Brings(w, op, f)
  {
    hide Perform, Brings, TakesEvidence, TakesQuotes;
    if TakesEvidence(op) {
      EvidenceBrings(w, op, f);
    } else if TakesQuotes(op) {
      QuotesBringNone(w, op);
    } else {
      OthersBring(w, op, f);
    }
  }

  /** Every fact of a run was brought by one of its operations. */
  lemma FactOrigin(ops: seq<Op>, f: Fact) returns (k: nat)
    requires Legal(START, ops) && f in RunAll(START, ops).Journal().facts
    ensures k < |ops| && Brings(Before(ops, k), ops[k], f)
    ensures f !in Before(ops, k).Journal().facts && f in Before(ops, k + 1).Journal().facts
  {
    hide Perform, Brings, RunAll, Legal;
    k := TurningPoint(START, ops, (w: World) => f in w.Journal().facts);
    FactBringer(Before(ops, k), ops[k], f);
  }
}
