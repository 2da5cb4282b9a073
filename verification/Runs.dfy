/** Runs of the whole ledger: any operations in any order, interrupted by crashes anywhere, and
    what holds in every journal they reach. */
module Runs {
  import opened Basics
  import opened Ownership
  import opened Models
  import opened Settings
  import opened Outcomes
  import opened Projection
  import opened Validation
  import opened Steps
  import opened StopEvaluation
  import opened LedgerSpec
  import opened DispatchSpec
  import opened Oversell
  import opened StopObligations
  import opened ChangeSerialisation
  import opened ConfigChain
  import opened StopSignals

  /* ----- sequences of committed steps ----- */

  function CommitAll(j: Journal, steps: seq<Step>): Journal {
    if |steps| == 0 then j else Commit(CommitAll(j, steps[..|steps| - 1]), steps[|steps| - 1])
  }

  ghost predicate AllAllowed(j: Journal, steps: seq<Step>) {
    |steps| == 0 ||
    (AllAllowed(j, steps[..|steps| - 1]) && Allowed(CommitAll(j, steps[..|steps| - 1]), steps[|steps| - 1]))
  }

  ghost predicate Reaches(j: Journal, k: Journal) {
    exists steps :: AllAllowed(j, steps) && CommitAll(j, steps) == k
  }

  /** Everything proved to hold after every step. */
  ghost predicate Invariant(j: Journal) {
    && WellFormed(j) && NeverOversold(j) && Paired(j) && Serialised(j)
    && Chained(j) && OneLatchPerSymbol(j) && CountedOnce(j) && LatchesJustified(j) && AssignmentsStand(j)
    && ClosedOnce(j) && ChangesFollowEvidence(j)
  }

  lemma InvariantKept(j: Journal, s: Step)
    requires Invariant(j) && Allowed(j, s)
    ensures Invariant(Commit(j, s))
  {
    hide Commit, Allowed, WellFormed, NeverOversold, Paired, Serialised, Chained, OneLatchPerSymbol, CountedOnce,
         LatchesJustified, AssignmentsStand, ClosedOnce, ChangesFollowEvidence;
    ChangesFollowEvidenceKept(j, s);
    ClosedOnceKept(j, s);
    LatchesJustifiedKept(j, s);
    AssignmentsStandKept(j, s);
    WellFormedKept(j, s);
    CoverKept(j, s);
    PairedKept(j, s);
    SerialisedKept(j, s);
    ChainedKept(j, s);
    OneLatchKept(j, s);
    CountedOnceKept(j, s);
  }

  lemma EmptyInvariant()
    ensures Invariant(EMPTY)
  {
    forall oid ensures LinkCounts(EMPTY, oid) {}
  }

  lemma {:induction false} StepsKeep(j: Journal, steps: seq<Step>)
    requires Invariant(j) && AllAllowed(j, steps)
    ensures Invariant(CommitAll(j, steps)) && Follows(j, CommitAll(j, steps))
  {
    hide Invariant, Allowed, Commit;
    if |steps| > 0 {
      var n := |steps| - 1;
      var mid := CommitAll(j, steps[..n]);
      StepsKeep(j, steps[..n]);
      InvariantKept(mid, steps[n]);
      FollowsStep(mid, steps[n]);
      FollowsTransitive(j, mid, Commit(mid, steps[n]));
    }
  }

  /** Every journal reached from a good one is good, and later than it. */
  lemma ReachedIsGood(j: Journal, k: Journal)
    requires Invariant(j) && Reaches(j, k)
    ensures Invariant(k) && Follows(j, k)
  {
    hide Invariant, Follows, AllAllowed, CommitAll;
    var steps :| AllAllowed(j, steps) && CommitAll(j, steps) == k;
    StepsKeep(j, steps);
  }

  lemma {:induction false} StepsCompose(j: Journal, a: seq<Step>, b: seq<Step>)
    requires AllAllowed(j, a) && AllAllowed(CommitAll(j, a), b)
    ensures AllAllowed(j, a + b) && CommitAll(j, a + b) == CommitAll(CommitAll(j, a), b)
  {
    hide Allowed, Commit;
    if |b| == 0 {
      assert a + b == a;
    } else {
      StepsCompose(j, a, b[..|b| - 1]);
      assert (a + b)[..|a + b| - 1] == a + b[..|b| - 1];
    }
  }

  lemma ReachesSelf(j: Journal)
    ensures Reaches(j, j)
  {
    assert AllAllowed(j, []) && CommitAll(j, []) == j;
  }

  lemma ReachesStep(j: Journal, s: Step)
    requires Allowed(j, s)
    ensures Reaches(j, Commit(j, s))
  {
    hide Allowed, Commit;
    var steps := [s];
    assert CommitAll(j, steps[..0]) == j;
    assert AllAllowed(j, steps) && CommitAll(j, steps) == Commit(j, s);
  }

  lemma ReachesTransitive(j: Journal, k: Journal, l: Journal)
    requires Reaches(j, k) && Reaches(k, l)
    ensures Reaches(j, l)
  {
    hide AllAllowed, CommitAll;
    var a :| AllAllowed(j, a) && CommitAll(j, a) == k;
    var b :| AllAllowed(k, b) && CommitAll(k, b) == l;
    StepsCompose(j, a, b);
  }

  /* ----- operations commit allowed steps ----- */

  lemma SubmitReaches(s: Session, c: Command, now: int, rid: Id, oid: Id)
    requires NewRequestId(s.journal, rid) && NewOrderId(s.journal, oid)
    ensures Reaches(s.journal, Submit(s, c, now, rid, oid).session.journal)
  {
    hide CheckFreshness, CheckCommand, CheckStopLink, Commit, Reaches;
    var o := Submit(s, c, now, rid, oid);
    if o.result.Ok? && o.result.value.created {
      ReachesStep(s.journal, AddRequest(RequestFor(c, rid, oid)));
    } else {
      ReachesSelf(s.journal);
    }
  }

  lemma AssignmentsAllowed(j: Journal, f: Fact)
    ensures Assigns(j, f, AssignmentsFor(j, f))
  {
    if |AssignmentsFor(j, f)| > 0 {
      var r := First(OpensBuy(f.orderId), j.requests).value;
      var b := First(BindingOf(r.command.symbol, r.command.configVersion), j.bindings).value;
      assert r in j.requests && b in j.bindings;
    }
  }

  lemma IngestReaches(s: Session, f: Fact)
    ensures Reaches(s.journal, Ingest(s, f).session.journal)
  {
    hide CheckFact, Commit, Reaches, AssignmentsFor, Assigns;
    AssignmentsAllowed(s.journal, f);
    if Ingest(s, f).result == Ok(true) {
      ReachesStep(s.journal, AddFact(f, AssignmentsFor(s.journal, f)));
    } else {
      ReachesSelf(s.journal);
    }
  }

  lemma DiscardReaches(s: Session, rid: Id, reason: string, revision: int)
    ensures Reaches(s.journal, Discard(s, rid, reason, revision).session.journal)
  {
    hide CheckFact, Commit, Reaches;
    if Discard(s, rid, reason, revision).result == Ok(true) {
      ReachesStep(s.journal, AddFact(DiscardFact(rid, reason), []));
    } else {
      ReachesSelf(s.journal);
    }
  }

  lemma LinkedFillReaches(s: Session, qid: Id)
    ensures Reaches(s.journal, WithLinkedFill(s, qid).session.journal)
    ensures forall f :: f in WithLinkedFill(s, qid).session.journal.facts ==>
              f in s.journal.facts || f.eventId == Uuid5(qid, "linked-fill")
  {
    hide CheckFact, Reaches, LinkedFill;
    var found := LinkedFill(s.journal, qid);
    if found.Ok? && Replayed(s.journal, found.value) == Ok(false) && CheckFact(s.journal, found.value).Ok? {
      ReachesStep(s.journal, AddFact(found.value, []));
    } else {
      ReachesSelf(s.journal);
    }
  }

  lemma ReprocessReaches(s: Session, qid: Id, proof: string, revision: int)
    ensures Reaches(s.journal, Reprocess(s, qid, proof, revision).session.journal)
  {
    hide CheckFact, Commit, Reaches, WithLinkedFill, LinkedFill;
    var o := Reprocess(s, qid, proof, revision);
    var mid := WithLinkedFill(s, qid).session.journal;
    LinkedFillReaches(s, qid);
    if o.result == Ok(true) {
      var release := ReleaseFact(qid, proof);
      assert release.eventId != Uuid5(qid, "linked-fill");
      ReachesStep(mid, AddFact(release, []));
      ReachesTransitive(s.journal, mid, o.session.journal);
    } else {
      ReachesSelf(s.journal);
    }
  }

  lemma ConfigReaches(s: Session, c: AppliedConfig, bound: seq<StopBinding>)
    requires Allowed(s.journal, AddConfig(c, bound))
    ensures Reaches(s.journal, After(s, AddConfig(c, bound)).journal)
  {
    hide Allowed, Commit, Reaches;
    ReachesStep(s.journal, AddConfig(c, bound));
  }

  lemma InboxReaches(s: Session, scope: Scope, c: ConfigCommand, digest: Digest)
    ensures Reaches(s.journal, ApplyInboxConfig(s, scope, c, digest).session.journal)
  {
    hide Reaches, AppliedVersion, Commit;
    var b := BindingFor(c);
    var applied := AppliedConfig(b.symbol, b.version, Some((c.commandId, digest)));
    ReachesSelf(s.journal);
    if digest == Sha256(c) && ExistingApplication(s.journal, c, digest) == Ok(None) && CheckApplyVersion(s.journal, c).Ok? {
      ConfigReaches(s, applied, [b]);
    }
  }

  lemma OnlyBasisHasCost(j: Journal, symbol: string)
    ensures ConfirmedHoldings(j, symbol).Some? ==> ConfirmedHoldings(j, symbol).value.averageCost.None?
    ensures ConfirmedCostBasis(j, symbol).Some? ==> ConfirmedCostBasis(j, symbol).value.averageCost.Some?
  {
    hide PortfolioOf, RuleOf, OrderFillOf, PaidFor, QtyOfFill;
  }

  /** A quote that triggers met the bound rule: for a cost stop, the confirmed cost of that journal. */
  lemma TriggeredMeetsRule(j: Journal, symbol: string, q: Quote, t: ObserveAt)
    ensures var (verdict, binding) := EvaluateQuote(j, symbol, q, t);
            verdict.Triggered? && binding.Some? ==> MeetsRule(j, LatchFrom(symbol, binding.value, q))
  {
    hide PortfolioOf, ConfirmedHoldings, ConfirmedCostBasis;
    var (verdict, binding) := EvaluateQuote(j, symbol, q, t);
    OnlyBasisHasCost(j, symbol);
    if verdict.Triggered? && binding.Some? {
      assert binding.value in j.bindings && Meets(j, LatchFrom(symbol, binding.value, q), binding.value);
    }
  }

  /** So does a quote that either direct latching path retains. */
  lemma LatchedMeetsRule(s: Session, kind: RuleKind, symbol: string, quote: Option<Quote>, t: ObserveAt)
    ensures var k := LatchStop(s, kind, symbol, quote, t).session.journal;
            k != s.journal ==> exists l :: MeetsRule(s.journal, l) && !Latched(s.journal, l.symbol)
                                           && k == Commit(s.journal, AddLatch(l))
  {
    hide ConfirmedHoldings, ConfirmedCostBasis, PortfolioOf, Commit;
    OnlyBasisHasCost(s.journal, symbol);
    if LatchStop(s, kind, symbol, quote, t).session.journal != s.journal {
      var held := if kind.PriceAtOrBelow? then ConfirmedHoldings(s.journal, symbol) else ConfirmedCostBasis(s.journal, symbol);
      var b := First(BindingOf(symbol, held.value.ruleVersion), s.journal.bindings).value;
      var l := LatchFrom(symbol, b, quote.value);
      assert b in s.journal.bindings && Meets(s.journal, l, b);
      assert MeetsRule(s.journal, l) && !Latched(s.journal, l.symbol);
    }
  }

  lemma QuoteReaches(s: Session, symbol: string, q: Quote, t: ObserveAt)
    ensures Reaches(s.journal, ProcessQuote(s, symbol, q, t).session.journal)
  {
    hide Reaches, EvaluateQuote, MeetsRule;
    var j := s.journal;
    ReachesSelf(j);
    if QuoteRejection(j, symbol, q, t).None? {
      var move := MoveCursor(symbol, QuoteCheckpoint(q.price, q.receivedAt, t.now));
      ReachesStep(j, move);
      var (verdict, binding) := EvaluateQuote(j, symbol, q, t);
      if verdict.Triggered? && binding.Some? {
        var l := LatchFrom(symbol, binding.value, q);
        TriggeredMeetsRule(j, symbol, q, t);
        var latched := Commit(j, AddLatch(l));
        ReachesStep(j, AddLatch(l));
        ReachesStep(latched, move);
        ReachesTransitive(j, latched, Commit(latched, move));
      }
    }
  }

  lemma LatchReaches(s: Session, kind: RuleKind, symbol: string, quote: Option<Quote>, t: ObserveAt)
    ensures Reaches(s.journal, LatchStop(s, kind, symbol, quote, t).session.journal)
  {
    hide Reaches, LatchStop, Commit, MeetsRule;
    var k := LatchStop(s, kind, symbol, quote, t).session.journal;
    LatchedMeetsRule(s, kind, symbol, quote, t);
    ReachesSelf(s.journal);
    if k != s.journal {
      var l :| MeetsRule(s.journal, l) && !Latched(s.journal, l.symbol) && k == Commit(s.journal, AddLatch(l));
      ReachesStep(s.journal, AddLatch(l));
    }
  }

  lemma ClaimReaches(s: Session, rid: Id, market: Option<MarketSession>, now: int, eid: Id)
    requires NewEventId(s.journal, eid)
    ensures Reaches(s.journal, Claim(s, rid, market, now, eid).session.journal)
  {
    hide Reaches, Commit, Status, StopMayGo, BuyMayGo, CheckFreshness;
    if Claim(s, rid, market, now, eid).result == Ok(true) {
      ReachesStep(s.journal, AddFact(Transport(eid, rid, SENDING), []));
    } else {
      ReachesSelf(s.journal);
    }
  }

  /* ----- recovery ----- */

  ghost predicate FreshIds(j: Journal, eids: seq<Id>) {
    && (forall i :: 0 <= i < |eids| ==> NewEventId(j, eids[i]))
    && (forall i, k :: 0 <= i < k < |eids| ==> eids[i] != eids[k])
  }

  lemma {:induction false} RecoveryFactIds(facts: seq<Fact>, requests: seq<Request>, eids: seq<Id>)
    requires |eids| == |requests|
    ensures forall f :: f in RecoveryFacts(facts, requests, eids) ==>
              f.Transport? && f.eventId in eids && exists r :: r in requests && r.requestId == f.requestId && NeedsRecovery(facts, r)
  {
    if |requests| > 0 {
      var n := |requests| - 1;
      RecoveryFactIds(facts, requests[..n], eids[..n]);
      assert requests == requests[..n] + [requests[n]];
      assert eids == eids[..n] + [eids[n]];
      forall f | f in RecoveryFacts(facts, requests, eids)
        ensures f.Transport? && f.eventId in eids
        ensures exists r :: r in requests && r.requestId == f.requestId && NeedsRecovery(facts, r)
      {
        if f in RecoveryFacts(facts, requests[..n], eids[..n]) {
          var r :| r in requests[..n] && r.requestId == f.requestId && NeedsRecovery(facts, r);
          assert r in requests;
        } else {
          assert requests[n] in requests;
        }
      }
    }
  }

  lemma {:induction false} RecoverReaches(j: Journal, requests: seq<Request>, eids: seq<Id>)
    requires WellFormed(j) && requests <= j.requests && |eids| == |requests| && FreshIds(j, eids)
    ensures Reaches(j, j.(facts := j.facts + RecoveryFacts(j.facts, requests, eids)))
  {
    hide WellFormed, Reaches, Status;
    if |requests| == 0 {
      assert j.facts + [] == j.facts;
      ReachesSelf(j);
    } else {
      var n := |requests| - 1;
      var before := RecoveryFacts(j.facts, requests[..n], eids[..n]);
      var mid := j.(facts := j.facts + before);
      RecoverReaches(j, requests[..n], eids[..n]);
      RecoveryFactIds(j.facts, requests[..n], eids[..n]);
      var r := requests[n];
      if NeedsRecovery(j.facts, r) {
        var f := RecoveryFact(j.facts, r, eids[n]);
        assert r in j.requests;
        Lookup(j, r);
        assert NewEventId(mid, f.eventId);
        assert Commit(mid, AddFact(f, [])) == j.(facts := j.facts + (before + [f])) by {
          assert j.facts + before + [f] == j.facts + (before + [f]);
          assert mid.assignments + [] == mid.assignments;
        }
        ReachesStep(mid, AddFact(f, []));
        ReachesTransitive(j, mid, Commit(mid, AddFact(f, [])));
      } else {
        assert before + [] == before;
      }
    }
  }
}
