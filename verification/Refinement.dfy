/** Whatever the dispatcher does is a run of the transition system of Worlds, so every theorem about
    runs holds of sending, draining, recovering and liquidating. */
module Refinement {
  import opened Basics
  import opened Models
  import opened Ownership
  import opened Outcomes
  import opened Projection
  import opened Validation
  import opened Steps
  import opened LedgerSpec
  import opened DispatchSpec
  import opened Runs
  import opened Worlds
  import opened Drain

  /** A dispatcher between operations: no claim is waiting for its call. */
  function Idle(d: Desk): World { World(d.session, {}, d.calls) }

  ghost predicate RunsTo(w: World, v: World) { exists ops :: Legal(w, ops) && RunAll(w, ops) == v }

  lemma RunsToSelf(w: World)
    ensures RunsTo(w, w)
  {
    assert Legal(w, []) && RunAll(w, []) == w;
  }

  lemma RunsToNext(w: World, v: World, op: Op)
    requires RunsTo(w, v) && Worlds.Fresh(v, op)
    ensures RunsTo(w, Perform(v, op))
  {
    hide Worlds.Fresh, Perform, Legal, RunAll;
    var ops :| Legal(w, ops) && RunAll(w, ops) == v;
    OneMore(w, ops, op);
  }

  lemma SendIsRun(w: World, d: Desk, rid: Id, market: Option<MarketSession>, now: int, claimId: Id, sentId: Id)
    requires RunsTo(w, Idle(d)) && NewEventId(d.session.journal, claimId)
    ensures RunsTo(w, Idle(Send(d, rid, market, now, claimId, sentId).desk))
  {
    hide Claim, Ingest, RunsTo, NewEventId;
    var claimed := Claim(d.session, rid, market, now, claimId);
    if claimed.result == Ok(true) {
      var v := Idle(d);
      RunsToNext(w, v, DoClaim(rid, market, now, claimId));
      v := Perform(v, DoClaim(rid, market, now, claimId));
      RunsToNext(w, v, DoCall(rid));
      v := Perform(v, DoCall(rid));
      assert v == World(claimed.session, {}, d.calls + [rid]);
      RunsToNext(w, v, DoIngest(Transport(sentId, rid, SENT)));
    }
  }

  lemma AcknowledgeIsRun(w: World, d: Desk, rid: Id, ackId: Id)
    requires RunsTo(w, Idle(d))
    ensures RunsTo(w, Idle(Acknowledge(d, rid, ackId).desk))
  {
    hide Ingest, RunsTo, IdText;
    RunsToNext(w, Idle(d), DoIngest(Ack(ackId, rid, "virtual-" + IdText(rid))));
  }

  lemma SubmitAddsNoFact(s: Session, c: Command, now: int, rid: Id, oid: Id)
    ensures Submit(s, c, now, rid, oid).session.journal.facts == s.journal.facts
  {
    hide CheckSubmission, First;
  }

  lemma PlaceIsRun(w: World, d: Desk, c: Command, market: Option<MarketSession>, now: int, ids: Supply)
    requires RunsTo(w, Idle(d)) && FreshSupply(d.session.journal, ids)
    ensures RunsTo(w, Idle(Place(d, c, market, now, ids).desk))
  {
    hide Submit, Send, Acknowledge, RunsTo;
    var submitted := Submit(d.session, c, now, ids.requestId, ids.orderId);
    if submitted.result.Ok? {
      SubmitAddsNoFact(d.session, c, now, ids.requestId, ids.orderId);
      RunsToNext(w, Idle(d), DoSubmit(c, now, ids.requestId, ids.orderId));
      var e := d.(session := submitted.session);
      var r := submitted.result.value.request;
      SendIsRun(w, e, r.requestId, market, now, ids.claimId, ids.sentId);
      AcknowledgeIsRun(w, Send(e, r.requestId, market, now, ids.claimId, ids.sentId).desk, r.requestId, ids.ackId);
    }
  }

  lemma DrainIsRun(d: Desk, symbol: string, market: MarketSession, now: int, ids: Supply)
    requires FreshSupply(d.session.journal, ids)
    ensures RunsTo(Idle(d), Idle(DispatchSpec.Drain(d, symbol, market, now, ids).desk))
  {
    hide Submit, Place, DrainIntent, RunsTo, FreshSupply;
    RunsToSelf(Idle(d));
    var intent := DrainIntent(d.session, symbol, market);
    if intent.Some? { PlaceIsRun(Idle(d), d, intent.value, Some(market), now, ids); }
  }

  lemma LiquidateOneIsRun(d: Desk, seen: Journal, symbol: string, now: int, ids: Supply)
    requires FreshSupply(d.session.journal, ids)
    ensures RunsTo(Idle(d), Idle(LiquidateOne(d, seen, symbol, now, ids).desk))
  {
    hide RunsTo, Place, FreshSupply, FailedSell, PortfolioOf;
    RunsToSelf(Idle(d));
    var qty := PortfolioOf(d.session.journal, symbol).Available();
    if qty > 0 { PlaceIsRun(Idle(d), d, LiquidationCommand(seen, symbol, qty), None, now, ids); }
  }

  lemma RecoverIsRun(d: Desk, eids: seq<Id>)
    requires |eids| == |d.session.journal.requests| && FreshIds(d.session.journal, eids)
    ensures RunsTo(Idle(d), Idle(d.(session := d.session.(journal := Recover(d.session.journal, eids)))))
  {
    hide RunsTo, RecoveryFacts, FreshIds;
    RunsToSelf(Idle(d));
    RunsToNext(Idle(d), Idle(d), DoRecover(eids));
  }

  /** Each turn's identifiers are new when the turn comes. */
  ghost predicate FreshTurns(d: Desk, seen: Journal, symbols: seq<string>, now: int, supplies: seq<Supply>)
    requires |supplies| == |symbols|
  {
    |symbols| == 0 ||
    var n := |symbols| - 1;
    && FreshTurns(d, seen, symbols[..n], now, supplies[..n])
    && FreshSupply(Liquidate(d, seen, symbols[..n], now, supplies[..n]).desk.session.journal, supplies[n])
  }

  lemma {:induction false} LiquidateIsRun(w: World, d: Desk, seen: Journal, symbols: seq<string>, now: int, supplies: seq<Supply>)
    requires |supplies| == |symbols| && RunsTo(w, Idle(d)) && FreshTurns(d, seen, symbols, now, supplies)
    ensures RunsTo(w, Idle(Liquidate(d, seen, symbols, now, supplies).desk))
  {
    hide RunsTo, Place, FreshSupply, FailedSell, PortfolioOf;
    if |symbols| > 0 {
      var n := |symbols| - 1;
      LiquidateIsRun(w, d, seen, symbols[..n], now, supplies[..n]);
      var front := Liquidate(d, seen, symbols[..n], now, supplies[..n]);
      var qty := PortfolioOf(front.desk.session.journal, symbols[n]).Available();
      if front.result.Ok? && qty > 0 {
        PlaceIsRun(w, front.desk, LiquidationCommand(seen, symbols[n], qty), None, now, supplies[n]);
      }
    }
  }

  /** Processing a fact, liquidations included, is a run. */
  lemma ProcessIsRun(d: Desk, f: Fact, symbols: seq<string>, now: int, supplies: seq<Supply>)
    requires |supplies| == |symbols|
    requires var s := Ingest(d.session, f).session; FreshTurns(d.(session := s), s.journal, symbols, now, supplies)
    ensures RunsTo(Idle(d), Idle(Process(d, f, symbols, now, supplies).desk))
  {
    hide Ingest, RunsTo, Liquidate, FreshTurns;
    RunsToSelf(Idle(d));
    RunsToNext(Idle(d), Idle(d), DoIngest(f));
    var s := Ingest(d.session, f).session;
    if Ingest(d.session, f).result.Ok? {
      LiquidateIsRun(Idle(d), d.(session := s), s.journal, symbols, now, supplies);
    }
  }

  /** Runs lead from good journals to good journals. */
  lemma RunsStayGood(w: World, v: World)
    requires Invariant(w.Journal()) && RunsTo(w, v)
    ensures Invariant(v.Journal())
  {
    hide Invariant, Legal, RunAll;
    var ops :| Legal(w, ops) && RunAll(w, ops) == v;
    RunIsGood(w, ops);
  }
}
