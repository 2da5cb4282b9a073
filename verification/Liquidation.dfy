/** A liquidating symbol is offered for sale to the last unreserved share, once. */
module Liquidation {
  import opened Basics
  import opened Models
  import opened Ownership
  import opened Outcomes
  import opened Projection
  import opened Validation
  import opened Steps
  import opened LedgerSpec
  import opened DispatchSpec
  import opened StopObligations
  import opened Runs
  import opened Drain

  /** There is something to liquidate, and nothing in the way of the sale. */
  ghost predicate MayLiquidate(d: Desk, seen: Journal, symbol: string) {
    var j := d.session.journal;
    var position := PortfolioOf(j, symbol);
    && d.session.ready && position.liquidating && position.Available() > 0 && !FailedSell(seen, symbol)
    && AppliedVersion(seen.configs, symbol) == AppliedVersion(j.configs, symbol)
    && First(KeyIs(LiquidationCommand(seen, symbol, position.Available()).key), j.requests).None?
  }

  lemma LiquidationIsAdmissible(d: Desk, seen: Journal, symbol: string, now: int, ids: Supply)
    requires MayLiquidate(d, seen, symbol) && FreshSupply(d.session.journal, ids)
    ensures var j := d.session.journal;
            var position := PortfolioOf(j, symbol);
            var c := LiquidationCommand(seen, symbol, position.Available());
            && CheckSubmission(d.session, c, now) == Ok(())
            && Admissible(j, RequestFor(c, ids.requestId, ids.orderId))
            && c.New? && c.side.Sell? && c.symbol == symbol && c.expiresAt.None? && !IsStopKey(c.key)
            && c.configVersion == AppliedVersion(j.configs, symbol)
            && c.qty == Managed(j, symbol) - Reserved(j, symbol)
  {
    hide Managed, Reserved, Discrepant, AnySellUnclear, LastControl, FailedSell, AppliedVersion, Digits;
    var c := LiquidationCommand(seen, symbol, PortfolioOf(d.session.journal, symbol).Available());
    assert c.key[0] == 'l' && STOP_PREFIX[0] == 'v';
  }

  /** The claim of a plain sell just placed is granted. */
  lemma PlainSellIsClaimed(s: Session, r: Request, now: int, eid: Id)
    requires Invariant(s.journal) && Admissible(s.journal, r) && s.ready
    requires r.command.New? && r.command.side.Sell? && r.command.expiresAt.None? && !IsStopKey(r.command.key)
    requires r.command.configVersion == AppliedVersion(s.journal.configs, r.command.symbol)
    ensures var t := After(s, AddRequest(r));
            && Claim(t, r.requestId, None, now, eid)
               == Outcome(Ok(true), After(t, AddFact(Transport(eid, r.requestId, SENDING), [])))
            && AcceptedRequest(t.journal, r.requestId) == Ok(r)
  {
    hide Invariant, WellFormed, Admissible, StopMayGo, Status, AppliedVersion;
    var k := Commit(s.journal, AddRequest(r));
    PlacedInvariant(s.journal, r);
    Lookup(k, r);
    FreshView(s.journal, r);
    AdmissibleDecision(s.journal, r);
  }

  /** A liquidation that may act creates, calls and acknowledges one sell, after which the symbol is
      reserved to the last share. */
  lemma LiquidationCovers(d: Desk, seen: Journal, symbol: string, now: int, ids: Supply)
    requires Invariant(d.session.journal) && FreshSupply(d.session.journal, ids) && MayLiquidate(d, seen, symbol)
    ensures var c := LiquidationCommand(seen, symbol, PortfolioOf(d.session.journal, symbol).Available());
            var after := Drained(d, c, ids);
            && LiquidateOne(d, seen, symbol, now, ids)
               == Draining(Ok(Some(RequestFor(c, ids.requestId, ids.orderId))), after)
            && Reserved(after.session.journal, symbol) == Managed(after.session.journal, symbol)
  {
    hide Invariant, WellFormed, Admissible, LiquidationCommand, CheckSubmission, Managed, Reserved, PortfolioOf, Status,
         Claim, Ingest, Acknowledged, NewEventId, NewRequestId, NewOrderId, AppliedVersion, Commit, FailedSell;
    var s := d.session;
    var c := LiquidationCommand(seen, symbol, PortfolioOf(s.journal, symbol).Available());
    var r := RequestFor(c, ids.requestId, ids.orderId);
    LiquidationIsAdmissible(d, seen, symbol, now, ids);
    PlacedInvariant(s.journal, r);
    PlainSellIsClaimed(s, r, now, ids.claimId);
    PlacedQuantities(s.journal, r, symbol);
    PlacedFacts(s.journal, r, ids);
    SendCompletes(After(s, AddRequest(r)), r, ids, symbol);
  }

  /** A liquidation that acted leaves the next one, whatever it has seen, nothing to do. */
  lemma LiquidatesOnce(d: Desk, seen: Journal, symbol: string, now: int, ids: Supply,
                       seen': Journal, now': int, ids': Supply)
    requires Invariant(d.session.journal) && FreshSupply(d.session.journal, ids) && MayLiquidate(d, seen, symbol)
    ensures var first := LiquidateOne(d, seen, symbol, now, ids);
            && first.desk.calls == d.calls + [ids.requestId]
            && LiquidateOne(first.desk, seen', symbol, now', ids') == Draining(Ok(None), first.desk)
  {
    hide Invariant, Acknowledged, Managed, Reserved, Discrepant, AnySellUnclear, LastControl, FreshSupply, MayLiquidate,
         LiquidationCommand, Place, FailedSell;
    LiquidationCovers(d, seen, symbol, now, ids);
  }
}
