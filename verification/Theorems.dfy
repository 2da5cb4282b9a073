/** What the invariant means for every legal run from the empty journal: any operations in any order,
    replayed, refused, interrupted by crashes and restarts. */
module Theorems {
  import opened Basics
  import opened Models
  import opened Ownership
  import opened Settings
  import opened Outcomes
  import opened Projection
  import opened Validation
  import opened Steps
  import opened StopEvaluation
  import opened LedgerSpec
  import opened DispatchSpec
  import opened Oversell
  import opened StopObligations
  import opened ChangeSerialisation
  import opened Arrival
  import opened Delivery
  import opened ConfigChain
  import opened StopSignals
  import opened Runs
  import opened Worlds

  lemma RunInvariant(ops: seq<Op>)
    requires Legal(START, ops)
    ensures Invariant(RunAll(START, ops).Journal())
  {
    hide Invariant, Follows, RunAll, Legal;
    EmptyInvariant();
    RunIsGood(START, ops);
  }

  lemma InvariantParts(j: Journal)
    requires Invariant(j)
    ensures WellFormed(j) && NeverOversold(j) && Paired(j) && DistinctRequests(j) && DistinctEvents(j)
    ensures Serialised(j) && Chained(j) && OneLatchPerSymbol(j) && CountedOnce(j)
    ensures LatchesJustified(j) && AssignmentsStand(j) && ClosedOnce(j) && ChangesFollowEvidence(j) && AllCorrelated(j)
  {
  }

  lemma {:induction false} LegalFront(w: World, ops: seq<Op>, k: nat)
    requires Legal(w, ops) && k <= |ops|
    ensures Legal(w, ops[..k])
    ensures Legal(RunAll(w, ops[..k]), ops[k..]) && RunAll(RunAll(w, ops[..k]), ops[k..]) == RunAll(w, ops)
    decreases |ops|
  {
    hide Worlds.Fresh, Perform;
    if k == |ops| {
      assert ops[..k] == ops && ops[k..] == [];
    } else {
      var n := |ops| - 1;
      LegalFront(w, ops[..n], k);
      assert ops[..n][..k] == ops[..k];
      assert ops[k..][..|ops[k..]| - 1] == ops[..n][k..];
    }
  }

  /** A symbol without contradictory evidence never reserves more than it manages, and review of any
      symbol is asked for only on a discrepancy, a contradicted order or an uncertain sell. */
  lemma NoOversell(ops: seq<Op>, symbol: string)
    requires Legal(START, ops)
    ensures var j := RunAll(START, ops).Journal();
            && (Clean(j, symbol) ==> 0 <= Reserved(j, symbol) <= Managed(j, symbol))
            && (PortfolioOf(j, symbol).reconciliationRequired <==> Discrepant(j, symbol) || AnySellUnclear(j, symbol))
  {
    hide Invariant, WellFormed, NeverOversold, Clean, PortfolioOf, Discrepant, AnySellUnclear, RunAll, Legal;
    var j := RunAll(START, ops).Journal();
    RunInvariant(ops);
    InvariantParts(j);
    ArithmeticAlarmsAreContradictions(j, symbol);
    if Clean(j, symbol) { ReservationFits(j, symbol); }
  }

  lemma {:induction false} StepsStaySpoiled(j: Journal, steps: seq<Step>, symbol: string)
    requires Invariant(j) && AllAllowed(j, steps) && Clean(CommitAll(j, steps), symbol)
    ensures Clean(j, symbol)
  {
    hide Invariant, Allowed, Commit, Clean, Follows;
    if |steps| > 0 {
      var n := |steps| - 1;
      StepsKeep(j, steps[..n]);
      GoodIsWellFormed(CommitAll(j, steps[..n]));
      StaysSpoiled(CommitAll(j, steps[..n]), steps[n], symbol);
      StepsStaySpoiled(j, steps[..n], symbol);
    }
  }

  lemma OpStaysSpoiled(w: World, op: Op, symbol: string)
    requires Invariant(w.Journal()) && Worlds.Fresh(w, op) && Clean(Perform(w, op).Journal(), symbol)
    ensures Clean(w.Journal(), symbol)
  {
    hide Invariant, Worlds.Fresh, Perform, Clean, AllAllowed, CommitAll;
    GoodIsWellFormed(w.Journal());
    PerformReaches(w, op);
    var steps :| AllAllowed(w.Journal(), steps) && CommitAll(w.Journal(), steps) == Perform(w, op).Journal();
    StepsStaySpoiled(w.Journal(), steps, symbol);
  }

  /** What excuses a symbol from the bound is permanent: once spoiled it stays spoiled. */
  lemma {:induction false} SpoiledForGood(w: World, ops: seq<Op>, symbol: string)
    requires Invariant(w.Journal()) && Legal(w, ops) && !Clean(w.Journal(), symbol)
    ensures !Clean(RunAll(w, ops).Journal(), symbol)
  {
    hide Invariant, Worlds.Fresh, Perform, Clean, Follows;
    if |ops| > 0 {
      var n := |ops| - 1;
      SpoiledForGood(w, ops[..n], symbol);
      RunIsGood(w, ops[..n]);
      if Clean(RunAll(w, ops).Journal(), symbol) { OpStaysSpoiled(RunAll(w, ops[..n]), ops[n], symbol); }
    }
  }

  /** Stop sells and obligation records are one to one, no placeholder is ever shown, and records and
      evidence disagree only by an over-fill. */
  lemma ObligationsPair(ops: seq<Op>, symbol: string)
    requires Legal(START, ops)
    ensures var j := RunAll(START, ops).Journal();
            && j.obligations == AllObligations(j.requests)
            && Views(j, symbol) == ViewsFrom(j, symbol, j.obligations)
            && (forall o :: o in j.obligations ==> HasLatch(j, o))
            && forall o, r :: o in j.obligations && r in j.requests && ObligationsOf(r) == [o] ==>
                 (Consistent(j, o.symbol, o, r, View(j.facts, r)) <==> View(j.facts, r).filled <= o.qty)
  {
    hide Invariant, WellFormed, DistinctRequests, RunAll, Legal, View, Consistent, AllObligations, ViewsFrom;
    var j := RunAll(START, ops).Journal();
    RunInvariant(ops);
    InvariantParts(j);
    NothingUnpaired(j, symbol);
    forall o, r | o in j.obligations && r in j.requests && ObligationsOf(r) == [o]
      ensures Consistent(j, o.symbol, o, r, View(j.facts, r)) <==> View(j.facts, r).filled <= o.qty
    {
      OnlyOverfillIsInconsistent(j, o);
    }
  }

  /** An order has at most one change in flight, each change is confirmed at most once and never adds
      quantity, and the link version counts the confirmed amendments. */
  lemma ChangesSerialise(ops: seq<Op>, r: Request)
    requires Legal(START, ops)
    ensures var j := RunAll(START, ops).Journal();
            && OneAtATime(j) && ConfirmedOnce(j) && AmendmentsLower(j)
            && (r in j.requests && r.command.New? ==>
                  View(j.facts, r).linkVersion == 1 + Total(One(ConfirmedAmend(j.facts, r.orderId)), j.requests))
  {
    hide Invariant, RunAll, Legal, InFlight, Status, Total, Select, Observations, Latest, Tied, Revived, CancelledToZero;
    var j := RunAll(START, ops).Journal();
    RunInvariant(ops);
    InvariantParts(j);
    assert LinkCounts(j, r.orderId);
  }

  /** Once latched, a symbol gets no further buy and none of its buys is claimed any more, and the
      latch it has is the only one it ever gets. */
  lemma LatchIsFinal(ops: seq<Op>, k: nat, symbol: string)
    requires Legal(START, ops) && k <= |ops| && Latched(RunAll(START, ops[..k]).Journal(), symbol)
    ensures var j, w := RunAll(START, ops[..k]).Journal(), RunAll(START, ops);
            && Latched(w.Journal(), symbol) && OneLatchPerSymbol(w.Journal())
            && j.requests <= w.Journal().requests
            && (forall i :: |j.requests| <= i < |w.Journal().requests|
                            && w.Journal().requests[i].command.New? && w.Journal().requests[i].command.side.Buy? ==>
                  w.Journal().requests[i].command.symbol != symbol)
            && (forall r, market, now, eid :: r in w.Journal().requests && r.command.New? && r.command.side.Buy?
                                              && r.command.symbol == symbol ==>
                  Claim(w.session, r.requestId, market, now, eid).result != Ok(true))
  {
    hide Invariant, RunAll, Legal, Claim;
    var j, w := RunAll(START, ops[..k]).Journal(), RunAll(START, ops);
    LegalFront(START, ops, k);
    RunInvariant(ops[..k]);
    RunIsGood(RunAll(START, ops[..k]), ops[k..]);
    InvariantParts(w.Journal());
    var l :| l in j.latches && l.symbol == symbol;
    assert l in w.Journal().latches;
    forall r, market, now, eid | r in w.Journal().requests && r.command.New? && r.command.side.Buy? && r.command.symbol == symbol
      ensures Claim(w.session, r.requestId, market, now, eid).result != Ok(true)
    {
      LatchedBuyIsNotClaimed(w.session, r, market, now, eid);
    }
  }

  lemma LatchedBuyIsNotClaimed(s: Session, r: Request, market: Option<MarketSession>, now: int, eid: Id)
    requires WellFormed(s.journal) && r in s.journal.requests && r.command.New? && r.command.side.Buy?
    requires Latched(s.journal, r.command.symbol)
    ensures Claim(s, r.requestId, market, now, eid).result != Ok(true)
  {
    hide WellFormed, Claimable, StopMayGo, CheckFreshness, PortfolioOf, First;
    Lookup(s.journal, r);
  }

  /** Every latch names a bound rule of its kind: a price stop was retained at or below the price of that
      rule, a cost stop at or below what the rule leaves of a price that some buy of the symbol paid.
      Every stop assignment is of one buy fill, in full, to the rule bound to the revision of its order,
      and no fill is assigned twice. */
  lemma StopsStandOnEvidence(ops: seq<Op>)
    requires Legal(START, ops)
    ensures LatchesJustified(RunAll(START, ops).Journal()) && AssignmentsStand(RunAll(START, ops).Journal())
  {
    hide Invariant, RunAll, Legal;
    RunInvariant(ops);
    InvariantParts(RunAll(START, ops).Journal());
  }

  /** An order with an observation is not void, contradicted or not. */
  lemma ObservedIsNotVoid(ops: seq<Op>, r: Request, f: Fact)
    requires Legal(START, ops)
    requires var j := RunAll(START, ops).Journal();
             r in j.requests && r.command.New? && f in j.facts && Observes(f, r.orderId)
    ensures !Void(Status(RunAll(START, ops).Journal().facts, r))
  {
    hide Invariant, RunAll, Legal, AllCorrelated, ChangesFollowEvidence, Status;
    var j := RunAll(START, ops).Journal();
    RunInvariant(ops);
    InvariantParts(j);
    ObservedIsEvidenced(j, r, f);
  }

  /** In every run a truthful history of an order, delivered in part and in any order, is read exactly. */
  lemma DeliveryInRuns(ops: seq<Op>, r: Request, h: seq<Observation>, m: nat)
    requires Legal(START, ops)
    requires var j := RunAll(START, ops).Journal();
             && r in j.requests && r.command.New? && Truthful(h, r.command.qty, r.orderId) && Delivers(j.facts, h, r.orderId)
             && m < |h| && h[m] in j.facts && forall i :: m < i < |h| ==> h[i] !in j.facts
    ensures var facts := RunAll(START, ops).Journal().facts;
            var v, left := View(facts, r), Left(h, r.command.qty, |h|);
            && v.active == Some(h[m].remaining) && v.gap == Some(Missing(h, facts, m + 1))
            && (v.reconciliationRequired <==> Status(facts, r).conflict || Misses(h, facts, m + 1))
            && (r.command.side.Sell? ==> v.reserved == left + Missing(h, facts, |h|) && v.reserved >= left)
  {
    hide RunAll, Legal, View, Status, Void, Missing, Misses;
    var j := RunAll(START, ops).Journal();
    assert Lowers(h, r.command.qty, r.orderId, m);
    ObservedIsNotVoid(ops, r, h[m]);
    PartialDelivery(j.facts, r, h, m);
    MissingPositive(h, j.facts, r.command.qty, r.orderId, |h|);
  }

  /** Quotes accepted for a symbol over a run were received in strictly increasing and evaluated in
      non-decreasing order. */
  lemma QuotesAdvance(ops: seq<Op>, k: nat, symbol: string, q: Quote, t: ObserveAt)
    requires Legal(START, ops) && k <= |ops|
    ensures var earlier := RunAll(START, ops[..k]).Journal();
            var o := ProcessQuote(RunAll(START, ops).session, symbol, q, t);
            o.result.Ok? && o.result.value.accepted && symbol in earlier.quotes ==>
              earlier.quotes[symbol].receivedAt < q.receivedAt && earlier.quotes[symbol].evaluatedAt <= t.now
  {
    hide Invariant, RunAll, Legal, ProcessQuote, Follows;
    LegalFront(START, ops, k);
    RunInvariant(ops[..k]);
    RunIsGood(RunAll(START, ops[..k]), ops[k..]);
    AcceptedQuotesAdvance(RunAll(START, ops[..k]).Journal(), RunAll(START, ops).session, symbol, q, t);
  }

  /** A released quarantine has its source, one release and one derived fill of the source's quantity. */
  lemma QuarantineCountsOnce(ops: seq<Op>, f: Fact)
    requires Legal(START, ops) && f in RunAll(START, ops).Journal().facts && f.QuarantineReleased?
    ensures var j := RunAll(START, ops).Journal();
            exists q, d :: q in j.facts && d in j.facts && q.QuarantinedFill? && q.eventId == f.quarantineId
              && d.Fill? && d.eventId == f.fillId && d.qty == q.qty
              && (forall g :: g in j.facts && g.QuarantineReleased? && g.quarantineId == q.eventId ==> g == f)
              && (forall e :: e in j.facts && e.eventId == f.fillId ==> e == d)
  {
    hide Invariant, RunAll, Legal, WellFormed, NeverOversold, Paired, DistinctRequests, Serialised, Chained,
         OneLatchPerSymbol, LatchesJustified, AssignmentsStand, ClosedOnce, ChangesFollowEvidence, AllCorrelated;
    var j := RunAll(START, ops).Journal();
    RunInvariant(ops);
    InvariantParts(j);
    ReleasedOnce(j, f);
    assert Sourced(j, f);
    var q, d :| q in j.facts && d in j.facts && q.QuarantinedFill? && q.eventId == f.quarantineId && DerivedFrom(d, q);
    forall e | e in j.facts && e.eventId == f.fillId ensures e == d { SameEvent(j, e, d); }
  }

  /** A closed discrepancy is one of the same symbol, closed once, on complete query evidence of the
      quantity and the revision it was closed at. */
  lemma DiscrepanciesCloseOnce(ops: seq<Op>, f: Fact)
    requires Legal(START, ops) && f in RunAll(START, ops).Journal().facts && f.Reconciled?
    ensures var j := RunAll(START, ops).Journal();
            && (exists d :: d in j.facts && d.Discrepancy? && d.eventId == f.discrepancyId && d.symbol == f.symbol)
            && f.query.Complete() && f.query.observedManaged == f.observedManaged
            && f.query.revisionAtFinish == f.reviewedRevision
            && forall g :: g in j.facts && g.Reconciled? && g.discrepancyId == f.discrepancyId ==> g == f
  {
    hide Invariant, RunAll, Legal;
    var j := RunAll(START, ops).Journal();
    RunInvariant(ops);
    InvariantParts(j);
    var d :| d in j.facts && Closes(d, f);
  }

  /** The versions applied to a symbol strictly increase, and each bound rule belongs to exactly one. */
  lemma VersionsAdvance(ops: seq<Op>)
    requires Legal(START, ops)
    ensures var j := RunAll(START, ops).Journal();
            && Advancing(j.configs)
            && forall b :: b in j.bindings ==> exists i :: OnlyRevision(j, b, i)
  {
    hide Invariant, RunAll, Legal, OnlyRevision, Advancing;
    var j := RunAll(START, ops).Journal();
    RunInvariant(ops);
    InvariantParts(j);
    ChainedAdvance(j);
    forall b | b in j.bindings ensures exists i :: OnlyRevision(j, b, i) { BindingHasOneRevision(j, b); }
  }

  lemma ChainedAdvance(j: Journal)
    requires Chained(j)
    ensures Advancing(j.configs)
  {
  }

  /** The branch that reports an already bound version is never taken. */
  lemma NoVersionConflict(ops: seq<Op>, scope: Scope, c: ConfigCommand, digest: Digest)
    requires Legal(START, ops)
    ensures ApplyInboxConfig(RunAll(START, ops).session, scope, c, digest).result != Err("CONFLICT_CONFIG_APPLY_VERSION")
  {
    hide Invariant, RunAll, Legal, ApplyInboxConfig;
    RunInvariant(ops);
    InvariantParts(RunAll(START, ops).Journal());
    VersionConflictUnreachable(RunAll(START, ops).session, scope, c, digest);
  }
}
