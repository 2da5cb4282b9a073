/** When drains and liquidations act: exactly when they intend something under a key of their own, and in
    runs whose stop sells come from drains a drain's key always is. */
module PlacementKeys {
  import opened Basics
  import opened Models
  import opened Ownership
  import opened Outcomes
  import opened Projection
  import opened Validation
  import opened Steps
  import opened StopEvaluation
  import opened LedgerSpec
  import opened DispatchSpec
  import opened StopObligations
  import opened Runs
  import opened Worlds
  import opened Drain
  import opened Liquidation
  import opened Refinement
  import StopSignals

  /* ----- a key that is already taken ----- */

  lemma SendAddsNoRequest(d: Desk, rid: Id, market: Option<MarketSession>, now: int, claimId: Id, sentId: Id)
    ensures var sent := Send(d, rid, market, now, claimId, sentId).desk;
            && sent.session.journal.requests == d.session.journal.requests
            && sent.session.journal.configs == d.session.journal.configs
            && sent.calls in {d.calls, d.calls + [rid]}
  {
    hide Claimable, StopMayGo, CheckFreshness, BuyMayGo, CheckFact, First, AssignmentsFor;
  }

  /** Placing under a taken key makes no request: a key of another command is refused, and the command's
      own request is at most sent and acknowledged. */
  lemma TakenKey(d: Desk, c: Command, market: Option<MarketSession>, now: int, ids: Supply)
    requires First(KeyIs(c.key), d.session.journal.requests).Some?
    ensures var e := First(KeyIs(c.key), d.session.journal.requests).value;
            var placed := Place(d, c, market, now, ids);
            && placed.desk.session.journal.requests == d.session.journal.requests
            && placed.desk.calls in {d.calls, d.calls + [e.requestId]}
            && (e.command != c ==> placed == Draining(Err("CONFLICT_IDEMPOTENCY_MISMATCH"), d))
            && (placed.result.Ok? ==> placed.result.value == Some(e))
  {
    hide First, Send, CheckFact, AssignmentsFor, IdText;
    var e := First(KeyIs(c.key), d.session.journal.requests).value;
    SendAddsNoRequest(d, e.requestId, market, now, ids.claimId, ids.sentId);
  }

  /** A drain makes a request exactly when it intends one and the key is new. */
  lemma DrainActsIff(d: Desk, symbol: string, market: MarketSession, now: int, ids: Supply)
    requires Invariant(d.session.journal) && FreshSupply(d.session.journal, ids)
    ensures var intent := DrainIntent(d.session, symbol, market);
            DispatchSpec.Drain(d, symbol, market, now, ids).desk.session.journal.requests != d.session.journal.requests
            <==> intent.Some? && First(KeyIs(intent.value.key), d.session.journal.requests).None?
  {
    hide Invariant, DrainIntent, First, Place, FreshSupply, Drained, Managed, Reserved;
    var intent := DrainIntent(d.session, symbol, market);
    if intent.Some? {
      if First(KeyIs(intent.value.key), d.session.journal.requests).None? {
        DrainCovers(d, symbol, market, now, ids);
        DrainedRequests(d, intent.value, ids);
      } else {
        TakenKey(d, intent.value, Some(market), now, ids);
      }
    }
  }

  lemma DrainedRequests(d: Desk, c: Command, ids: Supply)
    ensures Drained(d, c, ids).session.journal.requests
         == d.session.journal.requests + [RequestFor(c, ids.requestId, ids.orderId)]
  {
  }

  /** A liquidation makes a request exactly when it may. */
  lemma LiquidatesIff(d: Desk, seen: Journal, symbol: string, now: int, ids: Supply)
    requires Invariant(d.session.journal) && FreshSupply(d.session.journal, ids)
    ensures LiquidateOne(d, seen, symbol, now, ids).desk.session.journal.requests != d.session.journal.requests
       <==> MayLiquidate(d, seen, symbol)
  {
    hide Invariant, First, Place, FreshSupply, Drained, Managed, Reserved, PortfolioOf, LiquidationCommand, FailedSell, AppliedVersion;
    var position := PortfolioOf(d.session.journal, symbol);
    if MayLiquidate(d, seen, symbol) {
      LiquidationCovers(d, seen, symbol, now, ids);
      DrainedRequests(d, LiquidationCommand(seen, symbol, position.Available()), ids);
    } else if position.liquidating && position.Available() > 0 && !FailedSell(seen, symbol) {
      var c := LiquidationCommand(seen, symbol, position.Available());
      if First(KeyIs(c.key), d.session.journal.requests).Some? {
        TakenKey(d, c, None, now, ids);
      } else {
        RefusedLiquidation(d, seen, symbol, position.Available(), now, ids);
      }
    }
  }

  /** Without review, or under a configuration that moved on, a liquidation is refused. */
  lemma RefusedLiquidation(d: Desk, seen: Journal, symbol: string, qty: Positive, now: int, ids: Supply)
    requires First(KeyIs(LiquidationCommand(seen, symbol, qty).key), d.session.journal.requests).None?
    requires !d.session.ready || AppliedVersion(seen.configs, symbol) != AppliedVersion(d.session.journal.configs, symbol)
    ensures Place(d, LiquidationCommand(seen, symbol, qty), None, now, ids)
         == Draining(Err(if d.session.ready then "STALE_CONFIG_VERSION" else NOT_READY), d)
  {
    hide First, AppliedVersion, Send, Acknowledge, Digits;
  }

  lemma PlaceKeepsConfigs(d: Desk, c: Command, market: Option<MarketSession>, now: int, ids: Supply)
    ensures Place(d, c, market, now, ids).desk.session.journal.configs == d.session.journal.configs
  {
    hide Submit, Send, CheckFact, First, AssignmentsFor, IdText;
    var submitted := Submit(d.session, c, now, ids.requestId, ids.orderId);
    SubmitKeepsConfigs(d.session, c, now, ids.requestId, ids.orderId);
    if submitted.result.Ok? {
      var rid := submitted.result.value.request.requestId;
      SendAddsNoRequest(d.(session := submitted.session), rid, market, now, ids.claimId, ids.sentId);
    }
  }

  lemma SubmitKeepsConfigs(s: Session, c: Command, now: int, rid: Id, oid: Id)
    ensures Submit(s, c, now, rid, oid).session.journal.configs == s.journal.configs
  {
    hide CheckSubmission, First;
  }

  /** Within one processing the configuration is that of its beginning: no liquidation of it is stale. */
  lemma {:induction false} LiquidatingKeepsConfigs(d: Desk, seen: Journal, symbols: seq<string>, now: int, supplies: seq<Supply>)
    requires |supplies| == |symbols| && d.session.journal.configs == seen.configs
    ensures Liquidate(d, seen, symbols, now, supplies).desk.session.journal.configs == seen.configs
  {
    hide Place, PortfolioOf, FailedSell;
    if |symbols| > 0 {
      var n := |symbols| - 1;
      LiquidatingKeepsConfigs(d, seen, symbols[..n], now, supplies[..n]);
      var front := Liquidate(d, seen, symbols[..n], now, supplies[..n]).desk;
      var qty := PortfolioOf(front.session.journal, symbols[n]).Available();
      if qty > 0 { PlaceKeepsConfigs(front, LiquidationCommand(seen, symbols[n], qty), None, now, supplies[n]); }
    }
  }

  /* ----- keys of drains ----- */

  function DrainKey(symbol: string, revision: nat): string { STOP_PREFIX + symbol + ":" + Digits(revision) }

  lemma IntentKey(s: Session, symbol: string, market: MarketSession)
    requires DrainIntent(s, symbol, market).Some?
    ensures var c := DrainIntent(s, symbol, market).value; c.symbol == symbol && c.key == DrainKey(symbol, s.journal.Revision())
  {
    hide Views, FailedSell, LastControl, LatchedCandidate, Digits, AppliedVersion;
  }

  lemma {:induction false} DigitsAreDigits(n: nat)
    ensures |Digits(n)| > 0 && ':' !in Digits(n)
  {
    if n >= 10 { DigitsAreDigits(n / 10); }
    assert forall i :: 0 <= i < 10 ==> "0123456789"[i] != ':';
  }

  lemma {:induction false} DigitsInjective(n: nat, m: nat)
    requires Digits(n) == Digits(m)
    ensures n == m
  {
    var a, b := Digits(n), Digits(m);
    assert a[|a| - 1] == "0123456789"[n % 10] && b[|b| - 1] == "0123456789"[m % 10];
    assert a[..|a| - 1] == (if n < 10 then "" else Digits(n / 10)) && b[..|b| - 1] == (if m < 10 then "" else Digits(m / 10));
    if n >= 10 { DigitsAreDigits(n / 10); }
    if m >= 10 { DigitsAreDigits(m / 10); }
    if n >= 10 && m >= 10 { DigitsInjective(n / 10, m / 10); }
  }

  lemma AfterLastColon(a: string, b: string, p: string, q: string)
    requires a + ":" + p == b + ":" + q && ':' !in p && ':' !in q
    ensures p == q
  {
    var s, t := a + ":" + p, b + ":" + q;
    assert s[|a|] == ':' && t[|b|] == ':';
    assert forall i :: |a| < i < |s| ==> s[i] == p[i - |a| - 1] && p[i - |a| - 1] in p;
    assert forall i :: |b| < i < |t| ==> t[i] == q[i - |b| - 1] && q[i - |b| - 1] in q;
    assert s[|a| + 1..] == p && t[|b| + 1..] == q;
  }

  lemma DrainKeysDiffer(s: string, n: nat, t: string, m: nat)
    requires DrainKey(s, n) == DrainKey(t, m)
    ensures n == m
  {
    hide Digits;
    DigitsAreDigits(n);
    DigitsAreDigits(m);
    AfterLastColon(STOP_PREFIX + s, STOP_PREFIX + t, Digits(n), Digits(m));
    DigitsInjective(n, m);
  }

  ghost predicate KeyedBefore(r: Request, revision: nat) { exists n :: 0 <= n < revision && r.command.key == DrainKey(r.command.symbol, n) }

  /** Every stop sell bears the key of a drain at an earlier revision. */
  ghost predicate StopsAreDrained(j: Journal) {
    forall r :: r in j.requests && IsStopKey(r.command.key) ==> KeyedBefore(r, j.Revision())
  }

  /** Stop sells are submitted by drains only: under the key that a drain would use now. */
  ghost predicate ByDrains(w: World, op: Op) {
    op.DoSubmit? && IsStopKey(op.order.key) ==> op.order.key == DrainKey(op.order.symbol, w.Journal().Revision())
  }

  ghost predicate AllByDrains(w: World, ops: seq<Op>) {
    |ops| == 0 || (AllByDrains(w, ops[..|ops| - 1]) && ByDrains(RunAll(w, ops[..|ops| - 1]), ops[|ops| - 1]))
  }

  lemma RevisionGrows(j: Journal, k: Journal)
    requires Grows(j, k)
    ensures j.Revision() <= k.Revision() && (|j.requests| < |k.requests| ==> j.Revision() < k.Revision())
  {
  }

  predicate TakesEvidence(op: Op) { op.DoIngest? || op.DoDiscard? || op.DoReprocess? }

  predicate TakesQuotes(op: Op) { op.DoQuote? || op.DoLatch? }

  lemma EvidenceAddsNoRequest(w: World, op: Op)
    requires TakesEvidence(op)
    ensures Perform(w, op).Journal().requests == w.Journal().requests
  {
    hide CheckFact, First, AssignmentsFor, LinkedFill;
  }

  lemma QuotesAddNoRequest(w: World, op: Op)
    requires TakesQuotes(op)
    ensures Perform(w, op).Journal().requests == w.Journal().requests
  {
    hide QuoteRejection, EvaluateQuote, PortfolioOf, ConfirmedHoldings, ConfirmedCostBasis, EvaluateStop, First;
  }

  lemma OthersAddNoRequest(w: World, op: Op)
    requires !op.DoSubmit? && !TakesEvidence(op) && !TakesQuotes(op)
    ensures Perform(w, op).Journal().requests == w.Journal().requests
  {
    hide RecoveryFacts, Claimable, StopMayGo, CheckFreshness, BuyMayGo, ExistingApplication, CheckApplyVersion,
         AppliedVersion, Status, ReviewedSymbols, PortfolioOf, First;
  }

  lemma OnlySubmitAddsRequests(w: World, op: Op)
    requires !op.DoSubmit?
    ensures Perform(w, op).Journal().requests == w.Journal().requests
  {
    hide Perform, TakesEvidence, TakesQuotes;
    if TakesEvidence(op) {
      EvidenceAddsNoRequest(w, op);
    } else if TakesQuotes(op) {
      QuotesAddNoRequest(w, op);
    } else {
      OthersAddNoRequest(w, op);
    }
  }

  lemma SubmitAddsItsRequest(s: Session, c: Command, now: int, rid: Id, oid: Id)
    ensures var k := Submit(s, c, now, rid, oid).session.journal;
            k.requests == s.journal.requests || k.requests == s.journal.requests + [RequestFor(c, rid, oid)]
  {
    hide CheckSubmission, First;
  }

  lemma DrainedOpKeeps(w: World, op: Op)
    requires StopsAreDrained(w.Journal()) && ByDrains(w, op) && Grows(w.Journal(), Perform(w, op).Journal())
    ensures StopsAreDrained(Perform(w, op).Journal())
  {
    hide Submit, DrainKey, Grows, IsStopKey;
    var j, k := w.Journal(), Perform(w, op).Journal();
    RevisionGrows(j, k);
    if op.DoSubmit? {
      SubmitAddsItsRequest(w.session, op.order, op.now, op.rid, op.oid);
    } else {
      OnlySubmitAddsRequests(w, op);
    }
    forall r | r in k.requests && IsStopKey(r.command.key) ensures KeyedBefore(r, k.Revision()) {
      if r in j.requests {
        assert KeyedBefore(r, j.Revision());
      } else {
        assert r.command.key == DrainKey(r.command.symbol, j.Revision());
      }
    }
  }

  lemma {:induction false} RunsKeepDrained(ops: seq<Op>)
    requires Legal(START, ops) && AllByDrains(START, ops)
    ensures StopsAreDrained(RunAll(START, ops).Journal()) && Invariant(RunAll(START, ops).Journal())
  {
    hide Invariant, Perform, Worlds.Fresh, ByDrains, StopsAreDrained, Grows;
    if |ops| == 0 {
      EmptyInvariant();
      NothingDrained();
    } else {
      var front := ops[..|ops| - 1];
      RunsKeepDrained(front);
      var w := RunAll(START, front);
      OpGrows(w, ops[|ops| - 1]);
      DrainedOpKeeps(w, ops[|ops| - 1]);
    }
  }

  lemma NothingDrained()
    ensures StopsAreDrained(EMPTY)
  {
  }

  lemma OpGrows(w: World, op: Op)
    requires Invariant(w.Journal()) && Worlds.Fresh(w, op)
    ensures Grows(w.Journal(), Perform(w, op).Journal()) && Invariant(Perform(w, op).Journal())
  {
    hide Invariant, Perform, Worlds.Fresh, Reaches, Grows;
    GoodIsWellFormed(w.Journal());
    PerformReaches(w, op);
    ReachedIsGood(w.Journal(), Perform(w, op).Journal());
  }

  lemma DrainKeyIsNew(j: Journal, symbol: string)
    requires StopsAreDrained(j)
    ensures First(KeyIs(DrainKey(symbol, j.Revision())), j.requests).None?
  {
    hide DrainKey;
    var found := First(KeyIs(DrainKey(symbol, j.Revision())), j.requests);
    if found.Some? {
      IsStop(symbol, j.Revision());
      assert KeyedBefore(found.value, j.Revision());
      var n :| 0 <= n < j.Revision() && found.value.command.key == DrainKey(found.value.command.symbol, n);
      DrainKeysDiffer(symbol, j.Revision(), found.value.command.symbol, n);
    }
  }

  lemma IsStop(symbol: string, n: nat)
    ensures IsStopKey(DrainKey(symbol, n))
  {
  }

  /** In every legal run, crashes included, whose stop sells come from drains, a drain that intends
      anything acts: no guard on its key is needed. */
  lemma DrainActsInRuns(ops: seq<Op>, calls: seq<Id>, symbol: string, market: MarketSession, now: int, ids: Supply)
    requires Legal(START, ops) && AllByDrains(START, ops)
    requires FreshSupply(RunAll(START, ops).Journal(), ids)
    requires DrainIntent(RunAll(START, ops).session, symbol, market).Some?
    ensures var d := Desk(RunAll(START, ops).session, calls);
            var c := DrainIntent(d.session, symbol, market).value;
            var after := Drained(d, c, ids);
            && DispatchSpec.Drain(d, symbol, market, now, ids)
               == Draining(Ok(Some(RequestFor(c, ids.requestId, ids.orderId))), after)
            && Reserved(after.session.journal, symbol) == Managed(after.session.journal, symbol)
  {
    hide Invariant, DrainIntent, RunAll, Legal, AllByDrains, StopsAreDrained, DrainKey, Drained, Managed, Reserved, FreshSupply,
         DispatchSpec.Drain, First;
    var s := RunAll(START, ops).session;
    RunsKeepDrained(ops);
    IntentKey(s, symbol, market);
    DrainKeyIsNew(s.journal, symbol);
    DrainCovers(Desk(s, calls), symbol, market, now, ids);
  }
}
