/** The single virtual dispatcher (execution/virtual.py): it claims in one transaction, records the
    call in its own list, and reports the call in another transaction. */
module Dispatcher {
  import opened Basics
  import opened Models
  import opened Outcomes
  import opened Ownership
  import opened Projection
  import opened Validation
  import opened Steps
  import opened LedgerSpec
  import opened LedgerFacade
  import opened StopObligations
  import opened DispatchSpec
  import opened Runs
  import opened Worlds
  import opened Drain
  import opened Refinement

  lemma UngrantedClaimIsIdle(s: Session, rid: Id, market: Option<MarketSession>, now: int, eid: Id)
    ensures Claim(s, rid, market, now, eid).result != Ok(true) ==> Claim(s, rid, market, now, eid).session == s
  {
    hide Claimable, StopMayGo, BuyMayGo, CheckFreshness, First;
  }

  lemma RefusedSubmissionIsIdle(s: Session, c: Command, now: int, rid: Id, oid: Id)
    ensures LedgerSpec.Submit(s, c, now, rid, oid).result.Err? ==> LedgerSpec.Submit(s, c, now, rid, oid).session == s
  {
    hide CheckSubmission, First;
  }

  lemma RefusedFactIsIdle(s: Session, f: Fact)
    ensures LedgerSpec.Ingest(s, f).result.Err? ==> LedgerSpec.Ingest(s, f).session == s
  {
    hide CheckFact, First;
  }

  /** Nothing is done after the first error. */
  lemma {:induction false} ErrorEnds(d: Desk, seen: Journal, symbols: seq<string>, now: int, supplies: seq<Supply>, i: nat)
    requires |supplies| == |symbols| && i <= |symbols|
    requires Liquidate(d, seen, symbols[..i], now, supplies[..i]).result.Err?
    ensures Liquidate(d, seen, symbols, now, supplies) == Liquidate(d, seen, symbols[..i], now, supplies[..i])
    decreases |symbols|
  {
    hide LiquidateOne;
    if i == |symbols| {
      assert symbols[..i] == symbols && supplies[..i] == supplies;
    } else {
      var n := |symbols| - 1;
      assert symbols[..n][..i] == symbols[..i] && supplies[..n][..i] == supplies[..i];
      ErrorEnds(d, seen, symbols[..n], now, supplies[..n], i);
    }
  }

  lemma FreshSendRuns(d: Desk, rid: Id, market: Option<MarketSession>, now: int, claimId: Id, sentId: Id)
    ensures NewEventId(d.session.journal, claimId) ==>
              RunsTo(Idle(d), Idle(DispatchSpec.Send(d, rid, market, now, claimId, sentId).desk))
  {
    hide NewEventId, RunsTo, DispatchSpec.Send;
    RunsToSelf(Idle(d));
    if NewEventId(d.session.journal, claimId) { SendIsRun(Idle(d), d, rid, market, now, claimId, sentId); }
  }

  lemma FreshDrainRuns(d: Desk, symbol: string, market: MarketSession, now: int, ids: Supply)
    ensures FreshSupply(d.session.journal, ids) ==> RunsTo(Idle(d), Idle(DispatchSpec.Drain(d, symbol, market, now, ids).desk))
  {
    hide FreshSupply, RunsTo, DispatchSpec.Drain;
    if FreshSupply(d.session.journal, ids) { DrainIsRun(d, symbol, market, now, ids); }
  }

  lemma FreshRecoveryRuns(d: Desk, eids: seq<Id>)
    requires |eids| == |d.session.journal.requests|
    ensures FreshIds(d.session.journal, eids) ==>
              RunsTo(Idle(d), Idle(d.(session := d.session.(journal := DispatchSpec.Recover(d.session.journal, eids)))))
  {
    hide FreshIds, RunsTo, RecoveryFacts;
    if FreshIds(d.session.journal, eids) { RecoverIsRun(d, eids); }
  }

  /** The identifiers of a processing are new when their turns come. */
  ghost predicate FreshProcessing(d: Desk, f: Fact, symbols: seq<string>, now: int, supplies: seq<Supply>)
    requires |supplies| == |symbols|
  {
    var s := LedgerSpec.Ingest(d.session, f).session;
    FreshTurns(d.(session := s), s.journal, symbols, now, supplies)
  }

  lemma FreshProcessRuns(d: Desk, f: Fact, symbols: seq<string>, now: int, supplies: seq<Supply>)
    requires |supplies| == |symbols|
    ensures FreshProcessing(d, f, symbols, now, supplies) ==>
              RunsTo(Idle(d), Idle(DispatchSpec.Process(d, f, symbols, now, supplies).desk))
  {
    hide FreshTurns, RunsTo, DispatchSpec.Process, LedgerSpec.Ingest;
    if FreshProcessing(d, f, symbols, now, supplies) { ProcessIsRun(d, f, symbols, now, supplies); }
  }

  class VirtualDispatcher {
    const ledger: Ledger
    var calls: seq<Id>

    ghost predicate Valid()
      reads this, ledger, ledger.lease
    {
      ledger.Valid()
    }

    ghost function Here(): Desk
      reads this, ledger, ledger.lease
    {
      Desk(ledger.Now(), calls)
    }

    constructor (ledger: Ledger)
      requires ledger.Valid()
      ensures Valid() && this.ledger == ledger && calls == []
    {
      this.ledger, this.calls := ledger, [];
    }

    /** The guards before a claim, then the committed SENDING fact. */
    method ClaimRequest(rid: Id, market: Option<MarketSession>, now: int, claimId: Id) returns (result: Result<bool>)
      requires Valid() && ledger.lease.held
      modifies ledger`journal
      ensures Outcome(result, ledger.Now()) == Claim(old(ledger.Now()), rid, market, now, claimId)
    {
      hide Status, PortfolioOf, Views, CheckFreshness, First;
      var journal := ledger.journal;
      var found := First(Names(rid), journal.requests);
      if found.None? { return Ok(false); }
      var request := found.value;
      var outcome := Status(journal.facts, request);
      if !request.decision.Accepted? || !outcome.transport.IntentPersisted? || outcome.positiveEvidence {
        return Ok(false);
      }
      var c := request.command;
      if IsStopKey(c.key) {
        if market != Some(REGULAR) || !c.New? || c.stopLatchVersion.None? { return Ok(false); }
        var obligations := ComputeViews(journal, c.symbol);
        var current := Select(ViewFor(rid), obligations);
        if |current| != 1 || !current[0].state.Pending? || exists v :: v in obligations && BlocksStops(v) {
          return Ok(false);
        }
      }
      var _ :- ledger.lease.RequireReady();
      var _ :- CheckFreshness(journal, c, now);
      if c.New? && c.side.Buy? {
        var position := ComputePortfolio(journal, c.symbol);
        if position.entryStopped || position.reconciliationRequired
           || exists l :: l in journal.latches && l.symbol == c.symbol {
          return Ok(false);
        }
      }
      assert journal.assignments + [] == journal.assignments;
      ledger.journal := journal.(facts := journal.facts + [Transport(claimId, rid, SENDING)]);
      result := Ok(true);
    }

    method Send(rid: Id, market: Option<MarketSession>, now: int, claimId: Id, sentId: Id) returns (result: Result<bool>)
      requires Valid()
      modifies ledger`journal, `calls
      ensures ledger.lease.held ==>
                Sending(result, Here()) == DispatchSpec.Send(old(Here()), rid, market, now, claimId, sentId)
      ensures !ledger.lease.held ==> result == Err(NOT_OWNED) && Here() == old(Here())
      ensures NewEventId(old(ledger.journal), claimId) ==> RunsTo(old(Idle(Here())), Idle(Here()))
    {
      hide Claim, LedgerSpec.Ingest, RunsTo, NewEventId;
      RunsToSelf(Idle(Here()));
      if !ledger.lease.held { return Err(NOT_OWNED); }
      UngrantedClaimIsIdle(ledger.Now(), rid, market, now, claimId);
      var claimed :- ClaimRequest(rid, market, now, claimId);
      if !claimed { return Ok(false); }
      FreshSendRuns(old(Here()), rid, market, now, claimId, sentId);
      calls := calls + [rid];
      var _ :- ledger.Ingest(Transport(sentId, rid, SENT));
      result := Ok(true);
    }

    method Acknowledge(rid: Id, ackId: Id) returns (result: Result<bool>)
      requires Valid()
      modifies ledger`journal
      ensures ledger.lease.held ==> Sending(result, Here()) == DispatchSpec.Acknowledge(old(Here()), rid, ackId)
      ensures !ledger.lease.held ==> result == Err(NOT_OWNED) && Here() == old(Here())
    {
      hide LedgerSpec.Ingest;
      result := ledger.Ingest(Ack(ackId, rid, "virtual-" + IdText(rid)));
    }

    method DrainVirtualStop(symbol: string, market: MarketSession, now: int, ids: Supply)
      returns (result: Result<Option<Request>>)
      requires Valid()
      modifies ledger`journal, `calls
      ensures ledger.lease.held ==>
                Draining(result, Here()) == DispatchSpec.Drain(old(Here()), symbol, market, now, ids)
      ensures !ledger.lease.held ==> Here() == old(Here()) && result == if market.REGULAR? then Err(NOT_OWNED) else Ok(None)
      ensures FreshSupply(old(ledger.journal), ids) ==> RunsTo(old(Idle(Here())), Idle(Here()))
    {
      hide LatchedCandidate, Status, Views, LastControl, AppliedVersion, First, Digits, IdText,
           LedgerSpec.Submit, DispatchSpec.Send, DispatchSpec.Acknowledge, FailedSell, RunsTo, FreshSupply;
      RunsToSelf(Idle(Here()));
      if market != REGULAR { return Ok(None); }
      if !ledger.lease.held { return Err(NOT_OWNED); }
      var journal := ledger.journal;
      var latch := First(LatchOf(symbol), journal.latches);
      if latch.None? || LastControl(journal.controls, symbol).liquidating { return Ok(None); }
      var obligations := ComputeViews(journal, symbol);
      if exists v :: v in obligations && BlocksStops(v) { return Ok(None); }
      if FailedSell(journal, symbol) { return Ok(None); }
      var candidate := LatchedCandidate(Session(journal, ledger.lease.ready), symbol);
      if !candidate.Candidate? || candidate.unreserved == 0 { return Ok(None); }
      var c: Command := New("virtual-stop:" + symbol + ":" + Digits(journal.Revision()), symbol, Sell,
                            AppliedVersion(journal.configs, symbol), None, candidate.unreserved, Market, None,
                            Some(latch.value.ruleVersion));
      assert Some(c) == DrainIntent(ledger.Now(), symbol, market);
      RefusedSubmissionIsIdle(ledger.Now(), c, now, ids.requestId, ids.orderId);
      var submitted := ledger.Submit(c, now, ids.requestId, ids.orderId);
      if submitted.Err? {
        return if submitted.code == "SELL_QUANTITY_UNAVAILABLE" || submitted.code == "STALE_CONFIG_VERSION"
               then Ok(None) else Err(submitted.code);
      }
      FreshDrainRuns(old(Here()), symbol, market, now, ids);
      var request := submitted.value.request;
      var sent :- Send(request.requestId, Some(market), now, ids.claimId, ids.sentId);
      if sent { var _ :- Acknowledge(request.requestId, ids.ackId); }
      result := Ok(Some(request));
    }

    /** Applies a fact, then places what its liquidating symbols still have to sell.  The symbols are
        those ever controlled, sorted, with fresh identifiers for each. */
    method Process(f: Fact, symbols: seq<string>, now: int, supplies: seq<Supply>) returns (result: Result<()>)
      requires Valid() && |supplies| == |symbols|
      requires forall x :: x in symbols <==> exists c :: c in ledger.journal.controls && c.symbol == x
      modifies ledger`journal, `calls
      ensures ledger.lease.held ==>
                Processing(result, Here()) == DispatchSpec.Process(old(Here()), f, symbols, now, supplies)
      ensures FreshProcessing(old(Here()), f, symbols, now, supplies) ==> RunsTo(old(Idle(Here())), Idle(Here()))
      ensures !ledger.lease.held ==> result == Err(NOT_OWNED) && Here() == old(Here())
    {
      hide Status, AppliedVersion, First, Digits, PortfolioOf, LedgerSpec.Ingest, FailedSell, LiquidateOne, RunsTo, FreshProcessing;
      RunsToSelf(Idle(Here()));
      RefusedFactIsIdle(ledger.Now(), f);
      var _ :- ledger.Ingest(f);
      FreshProcessRuns(old(Here()), f, symbols, now, supplies);
      var seen := ledger.journal;
      ghost var start := Here();
      var i := 0;
      while i < |symbols|
        invariant 0 <= i <= |symbols| && ledger.lease.held && Valid()
        invariant Processing(Ok(()), Here()) == Liquidate(start, seen, symbols[..i], now, supplies[..i])
      {
        assert symbols[..i + 1][..i] == symbols[..i] && supplies[..i + 1][..i] == supplies[..i];
        var one := LiquidateSymbol(seen, symbols[i], now, supplies[i]);
        if one.Err? {
          ErrorEnds(start, seen, symbols, now, supplies, i + 1);
          return Err(one.code);
        }
        i := i + 1;
      }
      assert symbols[..i] == symbols && supplies[..i] == supplies;
      result := Ok(());
    }

    method LiquidateSymbol(seen: Journal, symbol: string, now: int, ids: Supply) returns (result: Result<Option<Request>>)
      requires Valid() && ledger.lease.held
      modifies ledger`journal, `calls
      ensures Draining(result, Here()) == LiquidateOne(old(Here()), seen, symbol, now, ids)
    {
      hide Status, AppliedVersion, First, Digits, IdText, PortfolioOf, FailedSell,
           LedgerSpec.Submit, DispatchSpec.Send, DispatchSpec.Acknowledge;
      var position := ComputePortfolio(ledger.journal, symbol);
      if !position.liquidating || position.Available() == 0 || FailedSell(seen, symbol) { return Ok(None); }
      var c: Command := New("liquidation:" + symbol + ":" + Digits(|seen.facts|), symbol, Sell,
                            AppliedVersion(seen.configs, symbol), None, position.Available(), Market, None, None);
      RefusedSubmissionIsIdle(ledger.Now(), c, now, ids.requestId, ids.orderId);
      var submitted :- ledger.Submit(c, now, ids.requestId, ids.orderId);
      var request := submitted.request;
      var sent :- Send(request.requestId, None, now, ids.claimId, ids.sentId);
      if sent { var _ :- Acknowledge(request.requestId, ids.ackId); }
      result := Ok(Some(request));
    }

    /** Records every unresolved request for reconciliation; one fresh identifier per request. */
    method Recover(eids: seq<Id>) returns (result: Result<seq<Id>>)
      requires Valid() && |eids| == |ledger.journal.requests|
      modifies ledger`journal
      ensures ledger.lease.held ==>
                && ledger.journal == DispatchSpec.Recover(old(ledger.journal), eids)
                && result == Ok(UnresolvedIds(old(ledger.journal.facts), old(ledger.journal.requests)))
      ensures !ledger.lease.held ==> result == Err(NOT_OWNED) && Here() == old(Here())
      ensures FreshIds(old(ledger.journal), eids) ==> RunsTo(old(Idle(Here())), Idle(Here()))
    {
      hide Status, RunsTo, FreshIds;
      RunsToSelf(Idle(Here()));
      if !ledger.lease.held { return Err(NOT_OWNED); }
      var journal := ledger.journal;
      var requests := journal.requests;
      var unresolved := [];
      var i := 0;
      while i < |requests|
        invariant 0 <= i <= |requests|
        invariant ledger.journal == journal.(facts := journal.facts + RecoveryFacts(journal.facts, requests[..i], eids[..i]))
        invariant unresolved == UnresolvedIds(journal.facts, requests[..i])
      {
        var request := requests[i];
        assert requests[..i + 1][..i] == requests[..i] && eids[..i + 1][..i] == eids[..i];
        if request.decision.Accepted? && Status(journal.facts, request).Unresolved() {
          unresolved := unresolved + [request.requestId];
          var state := if Status(journal.facts, request).transport == Observed(SENDING) then UNKNOWN else RECONCILING;
          ledger.journal := ledger.journal.(facts := ledger.journal.facts + [Transport(eids[i], request.requestId, state)]);
        }
        i := i + 1;
      }
      assert requests[..i] == requests && eids[..i] == eids;
      FreshRecoveryRuns(old(Here()), eids);
      result := Ok(unresolved);
    }
  }
}
