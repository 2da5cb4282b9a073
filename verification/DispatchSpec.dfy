/** What the virtual dispatcher does in each of its transactions (execution/virtual.py). */
module DispatchSpec {
  import opened Basics
  import opened Ownership
  import opened Models
  import opened Outcomes
  import opened Projection
  import opened Validation
  import opened Steps
  import opened LedgerSpec
  import opened StopObligations

  datatype MarketSession = REGULAR | CLOSED

  predicate IsStopKey(key: string) { STOP_PREFIX <= key }

  predicate BlocksStops(v: ObligationView) { v.state.ReviewRequired? || v.state.BlockedEvidence? }

  function ViewFor(rid: Id): ObligationView -> bool { (v: ObligationView) => v.requestId == rid }

  /** A tagged stop sell is sent only in a regular session, with one pending slice of its own and no
      slice of the symbol under review. */
  predicate StopMayGo(j: Journal, r: Request, market: Option<MarketSession>) {
    && market == Some(REGULAR) && r.command.New? && r.command.stopLatchVersion.Some?
    && var views := Views(j, r.command.symbol);
       var current := Select(ViewFor(r.requestId), views);
       && |current| == 1 && current[0].state.Pending?
       && !exists v :: v in views && BlocksStops(v)
  }

  predicate BuyMayGo(j: Journal, symbol: string) {
    var position := PortfolioOf(j, symbol);
    !position.entryStopped && !position.reconciliationRequired && !Latched(j, symbol)
  }

  predicate Claimable(j: Journal, r: Request) {
    && r.decision.Accepted?
    && Status(j.facts, r).transport.IntentPersisted?
    && !Status(j.facts, r).positiveEvidence
  }

  /** The claim: the committed SENDING fact that must precede any call. */
  function Claim(s: Session, rid: Id, market: Option<MarketSession>, now: int, eid: Id): Outcome<bool> {
    match First(Names(rid), s.journal.requests)
    case None => Outcome(Ok(false), s)
    case Some(r) =>
      if !Claimable(s.journal, r) then Outcome(Ok(false), s)
      else if IsStopKey(r.command.key) && !StopMayGo(s.journal, r, market) then Outcome(Ok(false), s)
      else if !s.ready then Refuse(s, NOT_READY)
      else
        match CheckFreshness(s.journal, r.command, now)
        case Err(code) => Refuse(s, code)
        case Ok(_) =>
          if r.command.New? && r.command.side.Buy? && !BuyMayGo(s.journal, r.command.symbol) then Outcome(Ok(false), s)
          else Outcome(Ok(true), After(s, AddFact(Transport(eid, rid, SENDING), [])))
  }

  /** A dispatcher's session together with the requests it has called, in order. */
  datatype Desk = Desk(session: Session, calls: seq<Id>)

  datatype Sending = Sending(result: Result<bool>, desk: Desk)

  /** An undisturbed send: claim, call, then record that the call returned. */
  function Send(d: Desk, rid: Id, market: Option<MarketSession>, now: int, claimId: Id, sentId: Id): Sending {
    var claimed := Claim(d.session, rid, market, now, claimId);
    if claimed.result != Ok(true) then Sending(claimed.result, d)
    else
      var calls := d.calls + [rid];
      var sent := Ingest(claimed.session, Transport(sentId, rid, SENT));
      Sending(if sent.result.Ok? then Ok(true) else Err(sent.result.code), Desk(sent.session, calls))
  }

  function Digits(n: nat): string {
    (if n < 10 then "" else Digits(n / 10)) + ["0123456789"[n % 10]]
  }

  function IdText(id: Id): string {
    match id
    case Uuid(n) => Digits(n)
    case Uuid5(base, name) => IdText(base) + "/" + name
  }

  function Acknowledge(d: Desk, rid: Id, ackId: Id): Sending {
    var o := Ingest(d.session, Ack(ackId, rid, "virtual-" + IdText(rid)));
    Sending(o.result, d.(session := o.session))
  }

  /* ----- draining a retained stop ----- */

  predicate FailedSell(j: Journal, symbol: string) {
    exists r :: r in j.requests && r.command.symbol == symbol && r.command.side.Sell?
                && (Status(j.facts, r).failed || Status(j.facts, r).rejected)
  }

  function DrainCommand(j: Journal, symbol: string, l: StopLatch, qty: Positive): Command {
    New(STOP_PREFIX + symbol + ":" + Digits(j.Revision()), symbol, Sell, AppliedVersion(j.configs, symbol),
        None, qty, Market, None, Some(l.ruleVersion))
  }

  /** The command a drain would submit, if it may act at all. */
  function DrainIntent(s: Session, symbol: string, market: MarketSession): Option<Command> {
    var j := s.journal;
    match First(LatchOf(symbol), j.latches)
    case None => None
    case Some(l) =>
      if market != REGULAR || LastControl(j.controls, symbol).liquidating
         || (exists v :: v in Views(j, symbol) && BlocksStops(v)) || FailedSell(j, symbol)
      then None
      else
        var c := LatchedCandidate(s, symbol);
        if c.Candidate? && c.unreserved > 0 then Some(DrainCommand(j, symbol, l, c.unreserved)) else None
  }

  /** Fresh identifiers for one drain. */
  datatype Supply = Supply(requestId: Id, orderId: Id, claimId: Id, sentId: Id, ackId: Id)

  datatype Draining = Draining(result: Result<Option<Request>>, desk: Desk)

  /** Submit, send and acknowledge one request. */
  function Place(d: Desk, c: Command, market: Option<MarketSession>, now: int, ids: Supply): Draining {
    var submitted := Submit(d.session, c, now, ids.requestId, ids.orderId);
    if submitted.result.Err? then Draining(Err(submitted.result.code), d)
    else
      var r := submitted.result.value.request;
      var sent := Send(d.(session := submitted.session), r.requestId, market, now, ids.claimId, ids.sentId);
      if sent.result.Err? then Draining(Err(sent.result.code), sent.desk)
      else if !sent.result.value then Draining(Ok(Some(r)), sent.desk)
      else
        var acked := Acknowledge(sent.desk, r.requestId, ids.ackId);
        Draining(if acked.result.Err? then Err(acked.result.code) else Ok(Some(r)), acked.desk)
  }

  function Drain(d: Desk, symbol: string, market: MarketSession, now: int, ids: Supply): Draining {
    match DrainIntent(d.session, symbol, market)
    case None => Draining(Ok(None), d)
    case Some(c) =>
      var submitted := Submit(d.session, c, now, ids.requestId, ids.orderId).result;
      if submitted in {Err("SELL_QUANTITY_UNAVAILABLE"), Err("STALE_CONFIG_VERSION")} then Draining(Ok(None), d)
      else Place(d, c, Some(market), now, ids)
  }

  /* ----- processing a fact: liquidation ----- */

  function LiquidationCommand(seen: Journal, symbol: string, qty: Positive): Command {
    New("liquidation:" + symbol + ":" + Digits(|seen.facts|), symbol, Sell, AppliedVersion(seen.configs, symbol),
        None, qty, Market, None, None)
  }

  /** One symbol's turn; seen is the journal as it was before the first of them. */
  function LiquidateOne(d: Desk, seen: Journal, symbol: string, now: int, ids: Supply): Draining {
    var position := PortfolioOf(d.session.journal, symbol);
    if position.liquidating && position.Available() > 0 && !FailedSell(seen, symbol) then
      Place(d, LiquidationCommand(seen, symbol, position.Available()), None, now, ids)
    else Draining(Ok(None), d)
  }

  datatype Processing = Processing(result: Result<()>, desk: Desk)

  /** The symbols in turn, up to the first error. */
  function Liquidate(d: Desk, seen: Journal, symbols: seq<string>, now: int, supplies: seq<Supply>): Processing
    requires |supplies| == |symbols|
  {
    if |symbols| == 0 then Processing(Ok(()), d)
    else
      var n := |symbols| - 1;
      var front := Liquidate(d, seen, symbols[..n], now, supplies[..n]);
      if front.result.Err? then front
      else
        var one := LiquidateOne(front.desk, seen, symbols[n], now, supplies[n]);
        Processing(if one.result.Err? then Err(one.result.code) else Ok(()), one.desk)
  }

  function Process(d: Desk, f: Fact, symbols: seq<string>, now: int, supplies: seq<Supply>): Processing
    requires |supplies| == |symbols|
  {
    var o := Ingest(d.session, f);
    if o.result.Err? then Processing(Err(o.result.code), d)
    else Liquidate(d.(session := o.session), o.session.journal, symbols, now, supplies)
  }

  /* ----- recovery after a restart ----- */

  predicate NeedsRecovery(facts: seq<Fact>, r: Request) {
    r.decision.Accepted? && Status(facts, r).Unresolved()
  }

  function RecoveryFact(facts: seq<Fact>, r: Request, eid: Id): Fact {
    Transport(eid, r.requestId, if Status(facts, r).transport == Observed(SENDING) then UNKNOWN else RECONCILING)
  }

  /** Judged by the journal as recovery found it, one boundary fact per unresolved request. */
  function RecoveryFacts(facts: seq<Fact>, requests: seq<Request>, eids: seq<Id>): seq<Fact>
    requires |eids| == |requests|
  {
    if |requests| == 0 then []
    else
      var n := |requests| - 1;
      RecoveryFacts(facts, requests[..n], eids[..n])
      + if NeedsRecovery(facts, requests[n]) then [RecoveryFact(facts, requests[n], eids[n])] else []
  }

  function UnresolvedIds(facts: seq<Fact>, requests: seq<Request>): seq<Id> {
    if |requests| == 0 then []
    else
      var n := |requests| - 1;
      UnresolvedIds(facts, requests[..n]) + if NeedsRecovery(facts, requests[n]) then [requests[n].requestId] else []
  }

  function Recover(j: Journal, eids: seq<Id>): Journal
    requires |eids| == |j.requests|
  {
    j.(facts := j.facts + RecoveryFacts(j.facts, j.requests, eids))
  }
}
