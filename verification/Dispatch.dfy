/** Claim before send: each request is called at most once over all runs, restarts included, and
    recovery neither calls anything nor moves a quantity. */
module Dispatch {
  import opened Basics
  import opened Models
  import opened Outcomes
  import opened Projection
  import opened Validation
  import opened Steps
  import opened LedgerSpec
  import opened DispatchSpec
  import opened StopSignals
  import opened Runs
  import opened Worlds

  /** The committed claim of a request. */
  ghost predicate Claimed(facts: seq<Fact>, rid: Id) {
    exists f :: f in facts && f.Transport? && f.state.SENDING? && f.requestId == rid
  }

  /** Evidence that the request was never called. */
  ghost predicate ProvenUncalled(facts: seq<Fact>, rid: Id) {
    exists f :: f in facts && f.SendFailed? && f.proof.NotInvoked? && f.requestId == rid
  }

  ghost predicate ClaimsStand(facts: seq<Fact>, rids: set<Id>) {
    forall rid :: rid in rids ==> Claimed(facts, rid) && !ProvenUncalled(facts, rid)
  }

  /** The requests a world has claimed: called already, or about to be. */
  function Touched(w: World): set<Id> { w.armed + set rid | rid in w.calls }

  ghost predicate Dispatched(w: World) {
    && (forall i, k :: 0 <= i < k < |w.calls| ==> w.calls[i] != w.calls[k])
    && (forall i :: 0 <= i < |w.calls| ==> w.calls[i] !in w.armed)
    && ClaimsStand(w.Journal().facts, Touched(w))
  }

  lemma BoundaryBlocksProof(j: Journal, f: Fact)
    requires f.SendFailed? && f.proof.NotInvoked? && Claimed(j.facts, f.requestId)
    ensures CheckUnsent(j, f).Err?
  {
    hide HasAcceptance, Refused, Failed, HasFill, Confirmed, EffectRefused;
    BoundaryWitness(j.facts, f.requestId);
  }

  lemma ClaimStandsAfter(j: Journal, s: Step, rids: set<Id>)
    requires Allowed(j, s) && ClaimsStand(j.facts, rids)
    ensures ClaimsStand(Commit(j, s).facts, rids)
  {
    hide CheckUnsent, Admissible, CheckEffect, CheckRejection, CheckRelease, CheckReconciliation, AppliedVersion;
    var k := Commit(j, s);
    assert forall f :: f in j.facts ==> f in k.facts;
    forall rid | rid in rids ensures Claimed(k.facts, rid) && !ProvenUncalled(k.facts, rid) {
      if s.AddFact? && s.fact.SendFailed? && s.fact.proof.NotInvoked? && s.fact.requestId == rid {
        BoundaryBlocksProof(j, s.fact);
      }
    }
  }

  lemma {:induction false} ClaimsStandSteps(j: Journal, steps: seq<Step>, rids: set<Id>)
    requires AllAllowed(j, steps) && ClaimsStand(j.facts, rids)
    ensures ClaimsStand(CommitAll(j, steps).facts, rids)
  {
    hide Allowed, Commit, ClaimsStand;
    if |steps| > 0 {
      ClaimsStandSteps(j, steps[..|steps| - 1], rids);
      ClaimStandsAfter(CommitAll(j, steps[..|steps| - 1]), steps[|steps| - 1], rids);
    }
  }

  lemma ClaimsStandReached(j: Journal, k: Journal, rids: set<Id>)
    requires Reaches(j, k) && ClaimsStand(j.facts, rids)
    ensures ClaimsStand(k.facts, rids)
  {
    hide AllAllowed, CommitAll, ClaimsStand;
    var steps :| AllAllowed(j, steps) && CommitAll(j, steps) == k;
    ClaimsStandSteps(j, steps, rids);
  }

  /** A request that may be claimed has never been claimed, nor been proven uncalled. */
  lemma ClaimableIsUntouched(facts: seq<Fact>, r: Request)
    requires Status(facts, r).transport.IntentPersisted?
    ensures !Claimed(facts, r.requestId) && !ProvenUncalled(facts, r.requestId)
  {
    hide HasAcceptance, Refused, HasFill, Confirmed, EffectRefused;
    BoundaryWitness(facts, r.requestId);
  }

  lemma ClaimArms(w: World, rid: Id, market: Option<MarketSession>, now: int, eid: Id)
    requires Dispatched(w) && Claim(w.session, rid, market, now, eid).result == Ok(true)
    ensures Dispatched(Perform(w, DoClaim(rid, market, now, eid)))
    ensures rid !in Touched(w)
  {
    hide Status, StopMayGo, BuyMayGo, CheckFreshness, Commit;
    var j := w.Journal();
    var r := First(Names(rid), j.requests).value;
    ClaimableIsUntouched(j.facts, r);
    var claim := Transport(eid, rid, SENDING);
    var later := j.facts + [claim];
    assert Perform(w, DoClaim(rid, market, now, eid)).Journal() == Commit(j, AddFact(claim, []));
    CommitFact(j, claim);
    assert claim in later;
    assert forall f :: f in later <==> f in j.facts || f == claim;
    assert forall f :: f in j.facts ==> f in later;
  }

  lemma CommitFact(j: Journal, f: Fact)
    ensures Commit(j, AddFact(f, [])).facts == j.facts + [f]
  {
  }

  lemma PerformDispatches(w: World, op: Op)
    requires WellFormed(w.Journal()) && Fresh(w, op) && Dispatched(w)
    ensures Dispatched(Perform(w, op))
  {
    hide WellFormed, Fresh, Reaches, Submit, Ingest, Discard, Reprocess, ProcessQuote, LatchStop, Claim,
         ApplyInboxConfig, Allocate, SetControl, ApplyConfig, ApplyStopConfig, Approve, RecoveryFacts, ClaimsStand;
    PerformReaches(w, op);
    var after := Perform(w, op);
    ClaimsStandReached(w.Journal(), after.Journal(), Touched(w));
    match op
    case DoClaim(rid, market, now, eid) =>
      if Claim(w.session, rid, market, now, eid).result == Ok(true) { ClaimArms(w, rid, market, now, eid); }
    case DoCall(rid) => if rid in w.armed { assert Touched(after) == Touched(w); }
    case Crash => ClaimsOfFewer(w.Journal().facts, Touched(w), Touched(after));
    case _ =>
  }

  lemma ClaimsOfFewer(facts: seq<Fact>, more: set<Id>, fewer: set<Id>)
    requires ClaimsStand(facts, more) && fewer <= more
    ensures ClaimsStand(facts, fewer)
  {
  }

  lemma {:induction false} RunDispatches(w: World, ops: seq<Op>)
    requires Invariant(w.Journal()) && Legal(w, ops) && Dispatched(w)
    ensures Dispatched(RunAll(w, ops))
  {
    hide Invariant, Perform, Fresh, Dispatched, Follows;
    if |ops| > 0 {
      var n := |ops| - 1;
      RunDispatches(w, ops[..n]);
      RunIsGood(w, ops[..n]);
      GoodIsWellFormed(RunAll(w, ops[..n]).Journal());
      PerformDispatches(RunAll(w, ops[..n]), ops[n]);
    }
  }

  /** Over every run with crashes anywhere: no request is called twice, every call had its SENDING
      fact committed before, and no called request is ever proven uncalled. */
  lemma CalledAtMostOnce(ops: seq<Op>)
    requires Legal(START, ops)
    ensures var w := RunAll(START, ops);
            && (forall i, k :: 0 <= i < k < |w.calls| ==> w.calls[i] != w.calls[k])
            && (forall i :: 0 <= i < |w.calls| ==>
                  Claimed(w.Journal().facts, w.calls[i]) && !ProvenUncalled(w.Journal().facts, w.calls[i]))
  {
    hide Invariant, Claimed, ProvenUncalled, RunAll, Legal;
    EmptyInvariant();
    assert Touched(START) == {};
    RunDispatches(START, ops);
    var w := RunAll(START, ops);
    assert forall i :: 0 <= i < |w.calls| ==> w.calls[i] in Touched(w);
  }

  /* ----- recovery ----- */

  lemma BoundaryKeepsUnresolved(e: Evidence, b: Option<Boundary>, changed: bool)
    requires Judge(e, changed).Unresolved() && b.Some?
    ensures Judge(e.(boundary := b), changed).Unresolved()
  {
  }

  lemma BoundaryKeepsVerdict(e: Evidence, b: Option<Boundary>, changed: bool)
    ensures var s, t := Judge(e, changed), Judge(e.(boundary := b), changed);
            && s.failed == t.failed && s.rejected == t.rejected && s.conflict == t.conflict
            && s.positiveEvidence == t.positiveEvidence && (s.transport.Acked? <==> t.transport.Acked?)
  {
  }

  lemma {:induction false} TransportsGather(facts: seq<Fact>, ts: seq<Fact>, r: Request)
    requires forall f :: f in ts ==> f.Transport?
    ensures var e, d := Gather(facts, r), Gather(facts + ts, r);
            && d == e.(boundary := d.boundary)
            && ((forall f :: f in ts ==> f.requestId != r.requestId) ==> d == e)
            && ((exists f :: f in ts && f.requestId == r.requestId) ==> d.boundary.Some?)
  {
    if |ts| == 0 {
      assert facts + ts == facts;
    } else {
      var n := |ts| - 1;
      assert ts == ts[..n] + [ts[n]];
      assert facts + ts == (facts + ts[..n]) + [ts[n]];
      assert ts[n] in ts && ts[n].Transport?;
      TransportsGather(facts, ts[..n], r);
      GatherAppend(facts + ts[..n], ts[n], r);
      AbsorbTransport(Gather(facts + ts[..n], r), ts[n], r);
    }
  }

  lemma AbsorbTransport(e: Evidence, f: Fact, r: Request)
    requires f.Transport?
    ensures Absorb(e, f, r) == e.(boundary := if f.requestId == r.requestId then Some(f.state) else e.boundary)
  {
  }

  lemma {:induction false} OthersKeepTotals(facts: seq<Fact>, ts: seq<Fact>, oid: Id)
    requires forall f :: f in ts ==> !f.IsObservation()
    ensures Total(FilledBy(oid), facts + ts) == Total(FilledBy(oid), facts)
    ensures Total(CancelledBy(oid), facts + ts) == Total(CancelledBy(oid), facts)
    ensures Total(AmendedBy(oid), facts + ts) == Total(AmendedBy(oid), facts)
    ensures Observations(facts + ts, oid) == Observations(facts, oid)
    ensures |Select(AmendOf(oid), facts + ts)| == |Select(AmendOf(oid), facts)|
  {
    if |ts| == 0 {
      assert facts + ts == facts;
    } else {
      var n := |ts| - 1;
      assert ts[n] in ts;
      assert facts + ts == (facts + ts[..n]) + [ts[n]];
      OthersKeepTotals(facts, ts[..n], oid);
      var before := facts + ts[..n];
      TotalAppend(FilledBy(oid), before, ts[n]);
      TotalAppend(CancelledBy(oid), before, ts[n]);
      TotalAppend(AmendedBy(oid), before, ts[n]);
      SelectAppend(FillOf(oid), before, ts[n]);
      SelectAppend(CancelOf(oid), before, ts[n]);
      SelectAppend(AmendOf(oid), before, ts[n]);
    }
  }

  lemma OthersKeepSigns(facts: seq<Fact>, ts: seq<Fact>, oid: Id)
    requires forall f :: f in ts ==> !f.IsObservation()
    ensures Tied(facts + ts, oid) <==> Tied(facts, oid)
    ensures Revived(facts + ts, oid) <==> Revived(facts, oid)
    ensures CancelledToZero(facts + ts, oid) <==> CancelledToZero(facts, oid)
  {
    assert forall f :: f in facts ==> f in facts + ts;
    assert forall f :: f in facts + ts && Observes(f, oid) ==> f in facts;
    assert forall f :: f in facts + ts && CancelOf(oid)(f) ==> f in facts;
  }

  /** Boundary evidence leaves an order's projection exactly as it was. */
  lemma TransportsKeepView(facts: seq<Fact>, ts: seq<Fact>, r: Request)
    requires r.command.New? && forall f :: f in ts ==> f.Transport?
    ensures View(facts + ts, r) == View(facts, r)
  {
    hide Gather, Judge, Tied, Revived, CancelledToZero, Total, Latest, Select, Observations;
    TransportsGather(facts, ts, r);
    BoundaryKeepsVerdict(Gather(facts, r), Gather(facts + ts, r).boundary, r.command.IsChange());
    OthersKeepTotals(facts, ts, r.orderId);
    OthersKeepSigns(facts, ts, r.orderId);
  }

  lemma {:induction false} RecoveryFactExists(facts: seq<Fact>, requests: seq<Request>, eids: seq<Id>, r: Request)
    requires |eids| == |requests| && r in requests && NeedsRecovery(facts, r)
    ensures exists f :: f in RecoveryFacts(facts, requests, eids) && f.Transport? && f.requestId == r.requestId
  {
    var n := |requests| - 1;
    assert requests == requests[..n] + [requests[n]];
    if requests[n] == r {
      assert RecoveryFact(facts, r, eids[n]) in RecoveryFacts(facts, requests, eids);
    } else {
      RecoveryFactExists(facts, requests[..n], eids[..n], r);
      var f :| f in RecoveryFacts(facts, requests[..n], eids[..n]) && f.Transport? && f.requestId == r.requestId;
      assert f in RecoveryFacts(facts, requests, eids);
    }
  }

  lemma RecoveryKeepsUnresolved(j: Journal, eids: seq<Id>, r: Request)
    requires WellFormed(j) && |eids| == |j.requests| && r in j.requests
    ensures Status(Recover(j, eids).facts, r).Unresolved() <==> Status(j.facts, r).Unresolved()
  {
    hide WellFormed, Gather, Judge, RecoveryFacts;
    var ts := RecoveryFacts(j.facts, j.requests, eids);
    RecoveryFactIds(j.facts, j.requests, eids);
    TransportsGather(j.facts, ts, r);
    if NeedsRecovery(j.facts, r) {
      RecoveryFactExists(j.facts, j.requests, eids, r);
      BoundaryKeepsUnresolved(Gather(j.facts, r), Gather(j.facts + ts, r).boundary, r.command.IsChange());
    } else {
      forall f | f in ts ensures f.requestId != r.requestId {
        var x :| x in j.requests && x.requestId == f.requestId && NeedsRecovery(j.facts, x);
        WellFormedDistinct(j);
        if x.requestId == r.requestId { SameRequest(j, x, r); }
      }
    }
  }

  lemma WellFormedDistinct(j: Journal)
    requires WellFormed(j)
    ensures DistinctRequests(j) && DistinctEvents(j)
  {
  }

  lemma RecoveryKeepsSnapshot(j: Journal, eids: seq<Id>, symbol: string, r: Request)
    requires |eids| == |j.requests|
    ensures var k := Recover(j, eids);
            && (r.command.New? ==> Snapshot(k, r) == Snapshot(j, r))
            && ManagedBy(k, symbol)(r) == ManagedBy(j, symbol)(r) && ReservedBy(k, symbol)(r) == ReservedBy(j, symbol)(r)
  {
    hide View, RecoveryFacts, Initial;
    var ts := RecoveryFacts(j.facts, j.requests, eids);
    RecoveryFactIds(j.facts, j.requests, eids);
    if r.command.New? {
      TransportsKeepView(j.facts, ts, r);
      var i := Initial(j.requests, r.orderId);
      if i.Some? { TransportsKeepView(j.facts, ts, i.value); }
    }
  }

  /** Recovery leaves the unresolved requests unresolved, the resolved ones resolved, and every
      managed and reserved quantity where it was. */
  lemma RecoveryKeepsQuantities(j: Journal, eids: seq<Id>, symbol: string)
    requires WellFormed(j) && |eids| == |j.requests|
    ensures forall r :: r in j.requests ==>
              (Status(Recover(j, eids).facts, r).Unresolved() <==> Status(j.facts, r).Unresolved())
    ensures Managed(Recover(j, eids), symbol) == Managed(j, symbol)
    ensures Reserved(Recover(j, eids), symbol) == Reserved(j, symbol)
  {
    hide WellFormed, ManagedBy, ReservedBy, Total, Status, RecoveryFacts;
    var k := Recover(j, eids);
    forall r | r in j.requests
      ensures Status(k.facts, r).Unresolved() <==> Status(j.facts, r).Unresolved()
      ensures ManagedBy(k, symbol)(r) == ManagedBy(j, symbol)(r) && ReservedBy(k, symbol)(r) == ReservedBy(j, symbol)(r)
    {
      RecoveryKeepsUnresolved(j, eids, r);
      RecoveryKeepsSnapshot(j, eids, symbol, r);
    }
    TotalEq(ManagedBy(k, symbol), ManagedBy(j, symbol), j.requests);
    TotalEq(ReservedBy(k, symbol), ReservedBy(j, symbol), j.requests);
  }
}
