/** A processed fact leaves no listed symbol with anything to liquidate. */
module Processing {
  import opened Basics
  import opened Models
  import opened Ownership
  import opened Outcomes
  import opened Projection
  import opened Validation
  import opened Steps
  import opened LedgerSpec
  import opened DispatchSpec
  import opened Oversell
  import opened ConfigChain
  import opened Runs
  import opened Worlds
  import opened Meaning
  import opened StopFires
  import opened Admission
  import opened Claims
  import opened Dispatch
  import opened Drain
  import opened Liquidation
  import opened PlacementKeys
  import opened Refinement
  import opened Reconciliation
  import Controls

  function LiquidationKey(symbol: string, facts: nat): string { "liquidation:" + symbol + ":" + Digits(facts) }

  ghost predicate KeyIsNew(j: Journal, key: string) { forall r :: r in j.requests ==> r.command.key != key }

  /** A liquidation may act if and only if the session is reviewed, the symbol is liquidating, has shares to sell
      and no refused sell, stands at the revision that was seen, and its key is new. */
  lemma LiquidationDuty(d: Desk, seen: Journal, symbol: string)
    requires Invariant(d.session.journal)
    ensures var j := d.session.journal;
            MayLiquidate(d, seen, symbol)
            <==> d.session.ready && Liquidating(j, symbol) && MaySell(j, symbol) && !RefusedSell(seen, symbol)
                 && AppliedVersion(seen.configs, symbol) == AppliedVersion(j.configs, symbol)
                 && KeyIsNew(j, LiquidationKey(symbol, |seen.facts|))
  {
    hide Invariant, FailedSell, RefusedSell, Managed, Reserved, Calm, PortfolioOf, AppliedVersion, Digits, Liquidating;
    var j := d.session.journal;
    Parts(j);
    PositionMeans(j, symbol);
    ControlMeans(j, symbol);
    FailedSellMeans(seen, symbol);
    var qty := PortfolioOf(j, symbol).Available();
    if qty > 0 {
      var c := LiquidationCommand(seen, symbol, qty);
      assert c.key == LiquidationKey(symbol, |seen.facts|);
      assert First(KeyIs(c.key), j.requests).None? <==> KeyIsNew(j, c.key);
    }
  }

  /** What a liquidation asks for: all that is unreserved, at the market, under the revision it has seen. */
  lemma LiquidationAsks(seen: Journal, symbol: string, qty: Positive)
    ensures var c := LiquidationCommand(seen, symbol, qty);
            c == New(LiquidationKey(symbol, |seen.facts|), symbol, Sell, AppliedVersion(seen.configs, symbol), None, qty, Market, None, None)
  {
    hide Digits, AppliedVersion;
  }

  /* ----- one symbol's turn leaves the others alone ----- */

  lemma AlarmsElsewhere(j: Journal, k: Journal, symbol: string)
    requires forall x :: x in j.requests && x.command.symbol == symbol ==>
               (x in k.requests && (Alarms(k, x) <==> Alarms(j, x)) && Status(k.facts, x) == Status(j.facts, x))
    requires forall x :: x in k.requests && x.command.symbol == symbol ==> x in j.requests
    ensures AnyAlarm(k, symbol) <==> AnyAlarm(j, symbol)
    ensures AnySellUnclear(k, symbol) <==> AnySellUnclear(j, symbol)
  {
    hide Alarms, Status;
    if AnySellUnclear(j, symbol) {
      var x :| x in j.requests && x.command.symbol == symbol && SellUnclear(j.facts, x);
      assert SellUnclear(k.facts, x);
    }
    if AnySellUnclear(k, symbol) {
      var x :| x in k.requests && x.command.symbol == symbol && SellUnclear(k.facts, x);
      assert SellUnclear(j.facts, x);
    }
  }

  lemma RequestElsewhere(j: Journal, r: Request, symbol: string)
    requires WellFormed(j) && Admissible(j, r) && r.command.New? && r.command.symbol != symbol
    ensures MaySell(Commit(j, AddRequest(r)), symbol) <==> MaySell(j, symbol)
  {
    hide WellFormed, Admissible, Snapshot, Total, View, Status, SellPending, Unexplained, AnyAlarm, AnySellUnclear;
    var k := Commit(j, AddRequest(r));
    forall x | x in j.requests
      ensures ManagedBy(k, symbol)(x) == ManagedBy(j, symbol)(x) && ReservedBy(k, symbol)(x) == ReservedBy(j, symbol)(x)
      ensures Alarms(k, x) <==> Alarms(j, x)
    {
      if x.command.New? { OldSnapshotsStay(j, r, x); }
    }
    TotalEq(ManagedBy(k, symbol), ManagedBy(j, symbol), j.requests);
    TotalEq(ReservedBy(k, symbol), ReservedBy(j, symbol), j.requests);
    TotalAppend(ManagedBy(k, symbol), j.requests, r);
    TotalAppend(ReservedBy(k, symbol), j.requests, r);
    AlarmsElsewhere(j, k, symbol);
    UnclearIsPending(j, symbol);
    UnclearIsPending(k, symbol);
  }

  /** Evidence of a call or of its acknowledgement. */
  predicate IsNote(f: Fact) { f.Transport? || f.Ack? }

  lemma NoteIsOthers(j: Journal, f: Fact, r: Request, x: Request, symbol: string)
    requires WellFormed(j) && IsNote(f) && r in j.requests && r.requestId == f.requestId && r.command.symbol != symbol
    requires x in j.requests && x.command.symbol == symbol
    ensures Status(j.facts + [f], x) == Status(j.facts, x)
    ensures x.command.New? ==> View(j.facts + [f], x) == View(j.facts, x) && Initial(j.requests, x.orderId) == Some(x)
  {
    hide WellFormed, View, Gather, Judge;
    if x.requestId == r.requestId { SameRequestIn(j, x, r); }
    Lookup(j, x);
    UnconcernedStatus(j.facts, f, x);
    if x.command.New? { UnconcernedView(j.facts, f, x); }
  }

  lemma NoteElsewhere(j: Journal, f: Fact, r: Request, symbol: string)
    requires WellFormed(j) && IsNote(f) && r in j.requests && r.requestId == f.requestId && r.command.symbol != symbol
    ensures MaySell(Commit(j, AddFact(f, [])), symbol) <==> MaySell(j, symbol)
  {
    hide WellFormed, Total, View, Status, SellPending, AnyAlarm, AnySellUnclear, Initial;
    var k := Commit(j, AddFact(f, []));
    CommitFact(j, f);
    forall x | x in j.requests
      ensures ManagedBy(k, symbol)(x) == ManagedBy(j, symbol)(x) && ReservedBy(k, symbol)(x) == ReservedBy(j, symbol)(x)
      ensures x.command.symbol == symbol ==> (Alarms(k, x) <==> Alarms(j, x)) && Status(k.facts, x) == Status(j.facts, x)
    {
      if x.command.symbol == symbol { NoteIsOthers(j, f, r, x, symbol); }
    }
    TotalEq(ManagedBy(k, symbol), ManagedBy(j, symbol), j.requests);
    TotalEq(ReservedBy(k, symbol), ReservedBy(j, symbol), j.requests);
    AlarmsElsewhere(j, k, symbol);
    UnclearIsPending(j, symbol);
    UnclearIsPending(k, symbol);
    NotesExplainNothing(j.facts, f, symbol);
  }

  lemma NotesExplainNothing(facts: seq<Fact>, f: Fact, symbol: string)
    requires IsNote(f)
    ensures Unexplained(facts + [f], symbol) <==> Unexplained(facts, symbol)
  {
    assert forall g :: g in facts + [f] <==> g in facts || g == f;
    assert OpenDiscrepancy(facts + [f], symbol) <==> OpenDiscrepancy(facts, symbol);
    assert OpenQuarantine(facts + [f], symbol) <==> OpenQuarantine(facts, symbol);
  }

  lemma NoteStep(j: Journal, f: Fact, r: Request, symbol: string)
    requires WellFormed(j) && IsNote(f) && r in j.requests && r.requestId == f.requestId && r.decision.Accepted?
    requires NewEventId(j, f.eventId) && r.command.symbol != symbol
    ensures var k := Commit(j, AddFact(f, []));
            && WellFormed(k) && k.requests == j.requests && k.facts == j.facts + [f]
            && (MaySell(k, symbol) <==> MaySell(j, symbol))
  {
    hide WellFormed, MaySell, Allowed;
    Lookup(j, r);
    QuietFactIsTaken(Session(j, true), f);
    WellFormedKept(j, AddFact(f, []));
    NoteElsewhere(j, f, r, symbol);
  }

  lemma ActedElsewhere(d: Desk, c: Command, ids: Supply, symbol: string)
    requires var r := RequestFor(c, ids.requestId, ids.orderId);
             WellFormed(d.session.journal) && Admissible(d.session.journal, r) && c.New? && c.symbol != symbol
    requires FreshSupply(d.session.journal, ids)
    ensures MaySell(Drained(d, c, ids).session.journal, symbol) <==> MaySell(d.session.journal, symbol)
  {
    hide WellFormed, Admissible, MaySell, Commit;
    var j, r := d.session.journal, RequestFor(c, ids.requestId, ids.orderId);
    RequestElsewhere(j, r, symbol);
    WellFormedKept(j, AddRequest(r));
    AdmissibleDecision(j, r);
    var k := Commit(j, AddRequest(r));
    Added(j, r);
    var a, b := Transport(ids.claimId, r.requestId, SENDING), Transport(ids.sentId, r.requestId, SENT);
    NoteStep(k, a, r, symbol);
    var l := Commit(k, AddFact(a, []));
    NoteStep(l, b, r, symbol);
    NoteStep(Commit(l, AddFact(b, [])), Ack(ids.ackId, r.requestId, "virtual-" + IdText(r.requestId)), r, symbol);
  }

  lemma Added(j: Journal, r: Request)
    ensures var k := Commit(j, AddRequest(r)); k.facts == j.facts && r in k.requests && k.requests == j.requests + [r]
  {
  }

  /* ----- the turns ----- */

  /** A turn that ends well has acted or changed nothing. */
  lemma TurnActs(d: Desk, seen: Journal, symbol: string, now: int, ids: Supply)
    requires Invariant(d.session.journal) && FreshSupply(d.session.journal, ids)
    requires KeyIsNew(d.session.journal, LiquidationKey(symbol, |seen.facts|))
    requires LiquidateOne(d, seen, symbol, now, ids).result.Ok?
    ensures var j, e := d.session.journal, LiquidateOne(d, seen, symbol, now, ids).desk;
            if MayLiquidate(d, seen, symbol)
            then e == Drained(d, LiquidationCommand(seen, symbol, PortfolioOf(j, symbol).Available()), ids)
                 && Reserved(e.session.journal, symbol) == Managed(e.session.journal, symbol)
            else e == d && !(Liquidating(j, symbol) && MaySell(j, symbol) && !RefusedSell(seen, symbol))
  {
    hide Invariant, FreshSupply, Drained, Place, PortfolioOf, FailedSell, RefusedSell, MaySell, Liquidating, Managed, Reserved,
         AppliedVersion, LiquidationKey, Digits, Claims.Untouched;
    var j := d.session.journal;
    var position := PortfolioOf(j, symbol);
    LiquidationDuty(d, seen, symbol);
    TurnCondition(j, seen, symbol);
    if MayLiquidate(d, seen, symbol) {
      LiquidationCovers(d, seen, symbol, now, ids);
    } else if position.liquidating && position.Available() > 0 && !FailedSell(seen, symbol) {
      LiquidationAsks(seen, symbol, position.Available());
      assert First(KeyIs(LiquidationCommand(seen, symbol, position.Available()).key), j.requests).None?;
      RefusedLiquidation(d, seen, symbol, position.Available(), now, ids);
    }
  }

  /** In a reviewed session, under the revision that was seen and with a new key, a turn ends well. */
  lemma TurnSucceeds(d: Desk, seen: Journal, symbol: string, now: int, ids: Supply)
    requires Invariant(d.session.journal) && FreshSupply(d.session.journal, ids)
    requires KeyIsNew(d.session.journal, LiquidationKey(symbol, |seen.facts|))
    requires d.session.ready && d.session.journal.configs == seen.configs
    ensures LiquidateOne(d, seen, symbol, now, ids).result.Ok?
    ensures LiquidateOne(d, seen, symbol, now, ids).desk.session.ready
  {
    hide Invariant, FreshSupply, Place, PortfolioOf, FailedSell, RefusedSell, MaySell, Liquidating, Managed, Reserved,
         AppliedVersion, LiquidationKey, Acknowledged;
    LiquidationDuty(d, seen, symbol);
    TurnCondition(d.session.journal, seen, symbol);
    if MayLiquidate(d, seen, symbol) { LiquidationCovers(d, seen, symbol, now, ids); }
  }

  lemma TurnCondition(j: Journal, seen: Journal, symbol: string)
    requires Invariant(j)
    ensures var p := PortfolioOf(j, symbol);
            p.liquidating && p.Available() > 0 && !FailedSell(seen, symbol)
            <==> Liquidating(j, symbol) && MaySell(j, symbol) && !RefusedSell(seen, symbol)
  {
    hide Invariant, PortfolioOf, FailedSell, RefusedSell, Liquidating, Managed, Reserved, Calm;
    Parts(j);
    PositionMeans(j, symbol);
    ControlMeans(j, symbol);
    FailedSellMeans(seen, symbol);
  }

  lemma KeysDiffer(a: string, b: string, n: nat)
    requires LiquidationKey(a, n) == LiquidationKey(b, n)
    ensures a == b
  {
    hide Digits;
    var p, q := "liquidation:" + a, "liquidation:" + b;
    assert LiquidationKey(a, n) == p + (":" + Digits(n)) && LiquidationKey(b, n) == q + (":" + Digits(n));
    assert |p| == |q| && p == LiquidationKey(a, n)[..|p|] && q == LiquidationKey(b, n)[..|q|];
    assert a == p[12..] && b == q[12..];
  }

  /** Nothing is left to liquidate. */
  ghost predicate Done(j: Journal, seen: Journal, symbol: string) {
    !(Liquidating(j, symbol) && MaySell(j, symbol) && !RefusedSell(seen, symbol))
  }

  ghost predicate Distinct(symbols: seq<string>) { forall i, k :: 0 <= i < k < |symbols| ==> symbols[i] != symbols[k] }

  lemma DrainedParts(d: Desk, c: Command, ids: Supply)
    ensures var j, k := d.session.journal, Drained(d, c, ids).session.journal;
            k.requests == j.requests + [RequestFor(c, ids.requestId, ids.orderId)] && k.controls == j.controls
  {
  }

  lemma FullIsDone(j: Journal, seen: Journal, symbol: string)
    requires Reserved(j, symbol) == Managed(j, symbol)
    ensures Done(j, seen, symbol)
  {
    hide Managed, Reserved;
  }

  /** A turn finishes its own symbol and leaves every other where it was. */
  lemma TurnFinishes(d: Desk, seen: Journal, symbol: string, now: int, ids: Supply, other: string)
    requires Invariant(d.session.journal) && FreshSupply(d.session.journal, ids)
    requires KeyIsNew(d.session.journal, LiquidationKey(symbol, |seen.facts|))
    requires LiquidateOne(d, seen, symbol, now, ids).result.Ok?
    ensures var k := LiquidateOne(d, seen, symbol, now, ids).desk.session.journal;
            && Invariant(k) && Done(k, seen, symbol)
            && (other != symbol ==> (Done(k, seen, other) <==> Done(d.session.journal, seen, other)))
            && (other != symbol && KeyIsNew(d.session.journal, LiquidationKey(other, |seen.facts|)) ==>
                  KeyIsNew(k, LiquidationKey(other, |seen.facts|)))
  {
    hide Invariant, FreshSupply, Drained, LiquidateOne, PortfolioOf, RefusedSell, MaySell, Liquidating, Managed, Reserved, Admissible,
         LiquidationKey, AppliedVersion, WellFormed, RunsTo, MayLiquidate;
    var j := d.session.journal;
    TurnActs(d, seen, symbol, now, ids);
    LiquidateOneIsRun(d, seen, symbol, now, ids);
    RunsStayGood(Idle(d), Idle(LiquidateOne(d, seen, symbol, now, ids).desk));
    if MayLiquidate(d, seen, symbol) {
      var c := LiquidationAmount(d, seen, symbol);
      LiquidationIsAdmissible(d, seen, symbol, now, ids);
      GoodIsWellFormed(j);
      DrainedParts(d, c, ids);
      FullIsDone(LiquidateOne(d, seen, symbol, now, ids).desk.session.journal, seen, symbol);
      if other != symbol {
        ActedElsewhere(d, c, ids, other);
        Controls.SameControls(j, Drained(d, c, ids).session.journal, other);
        if LiquidationKey(other, |seen.facts|) == LiquidationKey(symbol, |seen.facts|) { KeysDiffer(other, symbol, |seen.facts|); }
        RequestForKey(c, ids);
      }
    }
  }

  lemma RequestForKey(c: Command, ids: Supply)
    ensures RequestFor(c, ids.requestId, ids.orderId).command == c
  {
  }

  lemma LiquidationAmount(d: Desk, seen: Journal, symbol: string) returns (c: Command)
    requires MayLiquidate(d, seen, symbol)
    ensures PortfolioOf(d.session.journal, symbol).Available() > 0
    ensures c == LiquidationCommand(seen, symbol, PortfolioOf(d.session.journal, symbol).Available())
    ensures c.New? && c.symbol == symbol && c.key == LiquidationKey(symbol, |seen.facts|)
  {
    hide PortfolioOf, AppliedVersion, Digits, FailedSell;
    c := LiquidationCommand(seen, symbol, PortfolioOf(d.session.journal, symbol).Available());
    LiquidationAsks(seen, symbol, PortfolioOf(d.session.journal, symbol).Available());
  }

  lemma {:induction false} TurnsFinish(d: Desk, seen: Journal, symbols: seq<string>, now: int, supplies: seq<Supply>, symbol: string)
    requires |supplies| == |symbols| && Invariant(d.session.journal) && FreshTurns(d, seen, symbols, now, supplies)
    requires Distinct(symbols) && d.session.ready && d.session.journal.configs == seen.configs
    requires forall s :: s in symbols || s == symbol ==> KeyIsNew(d.session.journal, LiquidationKey(s, |seen.facts|))
    ensures var o := Liquidate(d, seen, symbols, now, supplies);
            var k := o.desk.session.journal;
            && o.result.Ok? && o.desk.session.ready && Invariant(k) && (symbol in symbols ==> Done(k, seen, symbol))
            && (symbol !in symbols ==> KeyIsNew(k, LiquidationKey(symbol, |seen.facts|)))
  {
    hide Invariant, FreshSupply, LiquidateOne, Done, LiquidationKey, KeyIsNew;
    if |symbols| > 0 {
      var n := |symbols| - 1;
      assert symbols == symbols[..n] + [symbols[n]];
      TurnsFinish(d, seen, symbols[..n], now, supplies[..n], symbol);
      TurnsFinish(d, seen, symbols[..n], now, supplies[..n], symbols[n]);
      var front := Liquidate(d, seen, symbols[..n], now, supplies[..n]).desk;
      LiquidatingKeepsConfigs(d, seen, symbols[..n], now, supplies[..n]);
      TurnSucceeds(front, seen, symbols[n], now, supplies[n]);
      TurnFinishes(front, seen, symbols[n], now, supplies[n], symbol);
    }
  }

  /** In a reviewed session a processed fact is ingested, every liquidation of the list goes through, and none of
      its symbols is left that is liquidating, may sell shares and has no refused sell, whatever the order of the
      list; only a key taken before can stand in the way. */
  lemma ProcessFinishes(d: Desk, f: Fact, symbols: seq<string>, now: int, supplies: seq<Supply>, symbol: string)
    requires |supplies| == |symbols| && Invariant(d.session.journal) && Distinct(symbols) && symbol in symbols
    requires var s := Ingest(d.session, f).session;
             && FreshTurns(d.(session := s), s.journal, symbols, now, supplies)
             && forall x :: x in symbols ==> KeyIsNew(s.journal, LiquidationKey(x, |s.journal.facts|))
    requires d.session.ready && Ingest(d.session, f).result.Ok?
    ensures var o := Process(d, f, symbols, now, supplies);
            o.result.Ok? && Done(o.desk.session.journal, Ingest(d.session, f).session.journal, symbol)
  {
    hide Invariant, Ingest, Liquidate, FreshTurns, Done, LiquidationKey, KeyIsNew, Reaches;
    var s := Ingest(d.session, f).session;
    IngestReaches(d.session, f);
    IngestKeepsReady(d.session, f);
    ReachedIsGood(d.session.journal, s.journal);
    TurnsFinish(d.(session := s), s.journal, symbols, now, supplies, symbol);
  }

  lemma IngestKeepsReady(s: Session, f: Fact)
    ensures Ingest(s, f).session.ready == s.ready
  {
    hide CheckFact, First, AssignmentsFor;
  }

  /** Each virtual acknowledgement bears a broker number of its own request: an execution quarantined under it can
      be linked to that request only. */
  lemma AcknowledgementsDiffer(n: nat, m: nat)
    ensures "virtual-" + IdText(Uuid(n)) == "virtual-" + IdText(Uuid(m)) ==> n == m
  {
    hide Digits;
    var a, b := "virtual-" + IdText(Uuid(n)), "virtual-" + IdText(Uuid(m));
    assert a[8..] == Digits(n) && b[8..] == Digits(m);
    if a == b { DigitsInjective(n, m); }
  }
}
