/** When a session opens, and what stays shut until it does. */
module Readiness {
  import opened Basics
  import opened Models
  import opened Ownership
  import opened Outcomes
  import opened Projection
  import opened Validation
  import opened Steps
  import opened StopEvaluation
  import opened LedgerSpec
  import opened DispatchSpec
  import opened Oversell
  import opened StopSignals
  import opened Runs
  import opened Worlds
  import opened Theorems
  import opened Meaning
  import opened Origins

  /** Every request is accounted for, and no symbol waits for an explanation. */
  ghost predicate AtRest(j: Journal) {
    && (forall r :: r in j.requests ==> Resolved(j.facts, r))
    && forall symbol :: Calm(j, symbol)
  }

  ghost predicate Resolved(facts: seq<Fact>, r: Request) {
    !Clashing(facts, r) && !InDoubt(facts, r) && !Untraced(facts, r) && !Unanswered(facts, r)
  }

  /** A symbol that the review does not look at has nothing to review. */
  lemma UnseenIsQuiet(j: Journal, symbol: string)
    requires symbol !in ReviewedSymbols(j)
    ensures !PortfolioOf(j, symbol).reconciliationRequired
  {
    hide Alarms, SellUnclear, View, Initial;
    TotalZero(AllocatedTo(symbol), j.allocations);
    TotalZero(ManagedBy(j, symbol), j.requests);
    TotalZero(ReservedBy(j, symbol), j.requests);
  }

  /** A review opens the session if and only if it is of the current revision, every request is accounted
      for and no symbol whatever waits for an explanation.  It commits nothing. */
  lemma ApprovedIff(s: Session, revision: int)
    requires Invariant(s.journal)
    ensures var o := Approve(s, revision);
            && (o.result.Ok? <==> revision == s.journal.Revision() && AtRest(s.journal))
            && o.session == s.(ready := s.ready || o.result.Ok?)
  {
    hide Invariant, Status, PortfolioOf, Resolved, ReviewedSymbols, Calm;
    var j := s.journal;
    InvariantParts(j);
    forall r ensures Resolved(j.facts, r) <==> !Status(j.facts, r).Unresolved() { ResolvedMeans(j.facts, r); }
    forall symbol
      ensures Calm(j, symbol) <==> !PortfolioOf(j, symbol).reconciliationRequired
      ensures symbol !in ReviewedSymbols(j) ==> !PortfolioOf(j, symbol).reconciliationRequired
    {
      PositionMeans(j, symbol);
      if symbol !in ReviewedSymbols(j) { UnseenIsQuiet(j, symbol); }
    }
  }

  lemma ResolvedMeans(facts: seq<Fact>, r: Request)
    ensures Resolved(facts, r) <==> !Status(facts, r).Unresolved()
  {
    hide Clashing, InDoubt, Untraced, Unanswered, Status;
    UnresolvedMeans(facts, r);
  }

  /** Operations other than an approval never open a session. */
  lemma OthersDoNotOpen(w: World, op: Op)
    requires !op.DoApprove? && Perform(w, op).session.ready
    ensures w.session.ready
  {
    hide CheckFact, CheckSubmission, First, AssignmentsFor, QuoteRejection, EvaluateQuote, RecoveryFacts, Claimable, StopMayGo,
         CheckFreshness, BuyMayGo, PortfolioOf, ConfirmedHoldings, ConfirmedCostBasis, EvaluateStop, ExistingApplication,
         CheckApplyVersion, AppliedVersion, Commit, LinkedFill;
  }

  /** In every run a session opens only by a review of the current revision that found everything at rest. */
  lemma OpensOnlyAtRest(ops: seq<Op>, op: Op)
    requires Legal(START, ops) && !RunAll(START, ops).session.ready && Perform(RunAll(START, ops), op).session.ready
    ensures var j := RunAll(START, ops).Journal();
            op == DoApprove(j.Revision()) && AtRest(j) && Perform(RunAll(START, ops), op).Journal() == j
  {
    hide Invariant, RunAll, Legal, Approve, AtRest;
    RunInvariant(ops);
    if !op.DoApprove? { OthersDoNotOpen(RunAll(START, ops), op); }
    ApprovedIff(RunAll(START, ops).session, op.revision);
  }

  /* ----- a call in doubt ----- */

  lemma DoubtBetween(early: seq<Fact>, mid: seq<Fact>, late: seq<Fact>, r: Request)
    requires early <= mid <= late && InDoubt(early, r) && InDoubt(late, r)
    ensures InDoubt(mid, r)
  {
    var f :| f in early && About(f, r);
    assert f in mid;
  }

  lemma DoubtIsNotRest(j: Journal, r: Request)
    requires r in j.requests && InDoubt(j.facts, r)
    ensures !AtRest(j)
  {
    assert !Resolved(j.facts, r);
  }

  lemma FollowsFacts(j: Journal, k: Journal)
    requires Follows(j, k)
    ensures j.facts <= k.facts && j.requests <= k.requests
  {
  }

  lemma ShutOpKeeps(w: World, op: Op, r: Request)
    requires Invariant(w.Journal()) && !w.session.ready && w.armed == {}
    requires r in w.Journal().requests && InDoubt(w.Journal().facts, r)
    ensures var after := Perform(w, op);
            !after.session.ready && after.armed == {} && after.calls == w.calls && after.Journal().requests == w.Journal().requests
  {
    hide Invariant, Submit, Claim, InDoubt, AtRest, Ingest, Discard, Reprocess, ProcessQuote, LatchStop, ApplyInboxConfig,
         Allocate, SetControl, ApplyConfig, ApplyStopConfig, Approve, RecoveryFacts;
    DoubtIsNotRest(w.Journal(), r);
    ShutAddsNoRequest(w, op);
    match op
    case DoApprove(revision) => ApprovedIff(w.session, revision);
    case DoClaim(rid, market, now, eid) => ShutClaimsNothing(w.session, rid, market, now, eid);
    case DoRecover(_) =>
    case _ => if Perform(w, op).session.ready { OthersDoNotOpen(w, op); }
  }

  lemma ShutAddsNoRequest(w: World, op: Op)
    requires !w.session.ready
    ensures Perform(w, op).Journal().requests == w.Journal().requests
  {
    hide Submit, Claim, Ingest, Discard, Reprocess, ProcessQuote, LatchStop, ApplyInboxConfig, Allocate, SetControl, ApplyConfig,
         ApplyStopConfig, Approve, RecoveryFacts;
    if op.DoSubmit? {
      ShutTakesNothing(w.session, op.order, op.now, op.rid, op.oid);
    } else {
      PlacementKeys.OnlySubmitAddsRequests(w, op);
    }
  }

  lemma ShutTakesNothing(s: Session, c: Command, now: int, rid: Id, oid: Id)
    requires !s.ready
    ensures Submit(s, c, now, rid, oid).session == s
  {
  }

  lemma ShutClaimsNothing(s: Session, rid: Id, market: Option<MarketSession>, now: int, eid: Id)
    requires !s.ready
    ensures Claim(s, rid, market, now, eid).result != Ok(true)
  {
    hide Claimable, StopMayGo, First;
  }

  /** After a crash, as long as it is not known what became of one call: whatever is tried, no session opens,
      nothing is submitted and nothing is called. */
  lemma {:induction false} NothingTradesInDoubt(w: World, ops: seq<Op>, r: Request)
    requires Invariant(w.Journal()) && Legal(w, ops) && !w.session.ready && w.armed == {}
    requires r in w.Journal().requests && InDoubt(w.Journal().facts, r) && InDoubt(RunAll(w, ops).Journal().facts, r)
    ensures var after := RunAll(w, ops);
            && !after.session.ready && after.armed == {} && after.calls == w.calls
            && after.Journal().requests == w.Journal().requests
    ensures forall revision :: Approve(RunAll(w, ops).session, revision).result.Err?
  {
    hide Invariant, Perform, Worlds.Fresh, InDoubt, Follows, Approve, AtRest;
    RunIsGood(w, ops);
    if |ops| > 0 {
      var n := |ops| - 1;
      var mid := RunAll(w, ops[..n]);
      RunIsGood(w, ops[..n]);
      GoodIsWellFormed(mid.Journal());
      PerformReaches(mid, ops[n]);
      ReachedIsGood(mid.Journal(), Perform(mid, ops[n]).Journal());
      FollowsFacts(w.Journal(), mid.Journal());
      FollowsFacts(mid.Journal(), RunAll(w, ops).Journal());
      DoubtBetween(w.Journal().facts, mid.Journal().facts, RunAll(w, ops).Journal().facts, r);
      NothingTradesInDoubt(w, ops[..n], r);
      ShutOpKeeps(mid, ops[n], r);
    }
    DoubtIsNotRest(RunAll(w, ops).Journal(), r);
    forall revision ensures Approve(RunAll(w, ops).session, revision).result.Err? {
      ApprovedIff(RunAll(w, ops).session, revision);
    }
  }

  /* ----- reviews ----- */

  lemma RevisionIdentifies(j: Journal, k: Journal)
    requires Grows(j, k) && j.Revision() == k.Revision()
    ensures k == j.(quotes := k.quotes)
  {
    SameLength(j.requests, k.requests);
    SameLength(j.facts, k.facts);
    SameLength(j.allocations, k.allocations);
    SameLength(j.controls, k.controls);
    SameLength(j.configs, k.configs);
    SameLength(j.bindings, k.bindings);
    SameLength(j.assignments, k.assignments);
    SameLength(j.latches, k.latches);
    SameLength(j.obligations, k.obligations);
  }

  lemma SameLength<T>(s: seq<T>, t: seq<T>)
    requires s <= t
    ensures |s| == |t| ==> s == t
  {
  }

  /** A review, a retirement or a release decided on an earlier state of the run passes only if nothing was
      committed since, quote cursors apart. */
  lemma ReviewsAreCurrent(ops: seq<Op>, k: nat, rid: Id, reason: string, qid: Id, proof: string)
    requires Legal(START, ops) && k <= |ops|
    ensures var s, seen := RunAll(START, ops).session, Before(ops, k).Journal();
            var revision := seen.Revision();
            Approve(s, revision).result.Ok? || Discard(s, rid, reason, revision).result == Ok(true)
            || Reprocess(s, qid, proof, revision).result == Ok(true)
            ==> s.journal == seen.(quotes := s.journal.quotes)
  {
    hide RunAll, Legal, Grows, Approve, Discard, Reprocess;
    var s, seen := RunAll(START, ops).session, Before(ops, k).Journal();
    LaterThan(ops, k);
    ApprovalIsCurrent(s, seen.Revision());
    DiscardIsCurrent(s, rid, reason, seen.Revision());
    ReleaseIsCurrent(s, qid, proof, seen.Revision());
    if s.journal.Revision() == seen.Revision() { RevisionIdentifies(seen, s.journal); }
  }

  lemma ApprovalIsCurrent(s: Session, revision: int)
    ensures Approve(s, revision).result.Ok? ==> s.journal.Revision() == revision
  {
    hide Status, PortfolioOf, ReviewedSymbols;
  }

  lemma DiscardIsCurrent(s: Session, rid: Id, reason: string, revision: int)
    ensures Discard(s, rid, reason, revision).result == Ok(true) ==> s.journal.Revision() == revision
  {
    hide CheckFact, First;
  }

  lemma ReleaseIsCurrent(s: Session, qid: Id, proof: string, revision: int)
    ensures Reprocess(s, qid, proof, revision).result == Ok(true) ==> s.journal.Revision() == revision
  {
    hide CheckFact, First, LinkedFill, WithLinkedFill;
  }
}
