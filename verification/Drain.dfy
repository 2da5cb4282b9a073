/** A drain that acts reserves every unreserved share of its symbol, once. */
module Drain {
  import opened Basics
  import opened Models
  import opened Outcomes
  import opened Projection
  import opened Validation
  import opened Steps
  import opened StopEvaluation
  import opened LedgerSpec
  import opened DispatchSpec
  import opened StopObligations
  import opened Oversell
  import opened StopSignals
  import opened Runs
  import opened Dispatch

  /* ----- one more request does not disturb the others ----- */

  lemma OldSnapshotsStay(j: Journal, r: Request, x: Request)
    requires WellFormed(j) && Admissible(j, r) && x in j.requests && x.command.New?
    ensures Snapshot(Commit(j, AddRequest(r)), x) == Snapshot(j, x) == View(j.facts, x)
  {
    hide WellFormed, Admissible, View;
    var k := Commit(j, AddRequest(r));
    WellFormedKept(j, AddRequest(r));
    assert x in k.requests;
    Lookup(j, x);
    Lookup(k, x);
  }

  /** The projection of a request that nothing concerns yet. */
  lemma FreshView(j: Journal, r: Request)
    requires WellFormed(j) && Admissible(j, r) && r.command.New?
    ensures var v := View(j.facts, r);
            && v.filled == 0 && !v.reconciliationRequired && !v.terminalCancel && !v.rejected && !v.submissionFailed
            && v.reserved == if r.command.side.Sell? then r.command.qty else 0
    ensures var s := Status(j.facts, r);
            !s.conflict && !s.positiveEvidence && s.transport.IntentPersisted?
  {
    hide WellFormed, Admissible, Latest, Select, Total, Gather;
    UntouchedRequest(j, r);
    UntouchedStatus(j.facts, r);
    assert forall f :: f in j.facts ==> !Observes(f, r.orderId);
    TotalZero(AmendedBy(r.orderId), j.facts);
    TotalZero(FilledBy(r.orderId), j.facts);
    TotalZero(CancelledBy(r.orderId), j.facts);
    var obs := Observations(j.facts, r.orderId);
    assert forall f :: f in obs ==> f in j.facts && Observes(f, r.orderId);
    HasMember(obs);
  }

  lemma FreshSnapshot(j: Journal, r: Request)
    requires WellFormed(j) && Admissible(j, r) && r.command.New?
    ensures Snapshot(Commit(j, AddRequest(r)), r) == View(j.facts, r)
  {
    hide WellFormed, Admissible, View;
    var k := Commit(j, AddRequest(r));
    WellFormedKept(j, AddRequest(r));
    Lookup(k, r);
  }

  /** Placing a sell adds its quantity to the reservation and nothing to the holdings. */
  lemma PlacedQuantities(j: Journal, r: Request, symbol: string)
    requires WellFormed(j) && Admissible(j, r) && r.command.New? && r.command.side.Sell? && r.command.symbol == symbol
    ensures var k := Commit(j, AddRequest(r));
            Managed(k, symbol) == Managed(j, symbol) && Reserved(k, symbol) == Reserved(j, symbol) + r.command.qty
  {
    hide WellFormed, Admissible, Snapshot, Total, View;
    var k := Commit(j, AddRequest(r));
    forall x | x in j.requests
      ensures ManagedBy(k, symbol)(x) == ManagedBy(j, symbol)(x) && ReservedBy(k, symbol)(x) == ReservedBy(j, symbol)(x)
    {
      if x.command.New? { OldSnapshotsStay(j, r, x); }
    }
    FreshSnapshot(j, r);
    FreshView(j, r);
    TotalEq(ManagedBy(k, symbol), ManagedBy(j, symbol), j.requests);
    TotalEq(ReservedBy(k, symbol), ReservedBy(j, symbol), j.requests);
    TotalAppend(ManagedBy(k, symbol), j.requests, r);
    TotalAppend(ReservedBy(k, symbol), j.requests, r);
  }

  lemma PlacedAlarms(j: Journal, r: Request, symbol: string)
    requires WellFormed(j) && Admissible(j, r) && r.command.New?
    ensures var k := Commit(j, AddRequest(r));
            && (AnyAlarm(k, symbol) ==> AnyAlarm(j, symbol))
            && (AnySellUnclear(k, symbol) ==> AnySellUnclear(j, symbol))
  {
    hide WellFormed, Admissible, Snapshot, View, Status;
    var k := Commit(j, AddRequest(r));
    FreshSnapshot(j, r);
    FreshView(j, r);
    forall x | x in k.requests && x.command.symbol == symbol
      ensures Alarms(k, x) ==> x in j.requests && Alarms(j, x)
      ensures SellUnclear(k.facts, x) ==> x in j.requests && SellUnclear(j.facts, x)
    {
      if x in j.requests && x.command.New? { OldSnapshotsStay(j, r, x); }
    }
  }

  /** A sell that fits leaves a calm symbol calm. */
  lemma CalmStays(j: Journal, r: Request, symbol: string)
    requires WellFormed(j) && Admissible(j, r) && r.command.New? && r.command.side.Sell? && r.command.symbol == symbol
    requires !PortfolioOf(j, symbol).reconciliationRequired && !PortfolioOf(j, symbol).sellUncertain
    ensures var p := PortfolioOf(Commit(j, AddRequest(r)), symbol);
            !p.reconciliationRequired && !p.sellUncertain
  {
    hide WellFormed, Admissible, Managed, Reserved, AnyAlarm, AnySellUnclear, Unexplained, LastControl;
    PlacedQuantities(j, r, symbol);
    PlacedAlarms(j, r, symbol);
    SellFits(j, r);
  }

  /* ----- obligation views around the new request ----- */

  lemma CountUnlessSame(obligations: seq<StopObligation>, o: StopObligation, rid: Id)
    ensures CountFor(obligations + [o], rid) == CountFor(obligations, rid) + if o.requestId == rid then 1 else 0
  {
    SelectAppend(ObligedTo(rid), obligations, o);
  }

  lemma OldObligation(j: Journal, o: StopObligation) returns (x: Request)
    requires WellFormed(j) && Paired(j) && o in j.obligations
    ensures x in j.requests && ObligationsOf(x) == [o]
    ensures First(Names(o.requestId), j.requests) == Some(x) && OrderOf(j, o.orderId) == Ok(View(j.facts, x))
  {
    hide WellFormed, Paired, View;
    OnlyOverfillIsInconsistent(j, o);
    x :| x in j.requests && ObligationsOf(x) == [o];
  }

  lemma OldViewStays(j: Journal, r: Request, symbol: string, o: StopObligation)
    requires WellFormed(j) && Paired(j) && Admissible(j, r) && o in j.obligations
    requires WellFormed(Commit(j, AddRequest(r))) && Paired(Commit(j, AddRequest(r)))
    requires var p, q := PortfolioOf(j, symbol), PortfolioOf(Commit(j, AddRequest(r)), symbol);
             !p.reconciliationRequired && !p.sellUncertain && !q.reconciliationRequired && !q.sellUncertain
    ensures ViewOf(Commit(j, AddRequest(r)), symbol, o) == ViewOf(j, symbol, o)
    ensures o.requestId != r.requestId
  {
    hide WellFormed, Paired, Admissible, View, Status, PortfolioOf, CountFor;
    var k := Commit(j, AddRequest(r));
    var x := OldObligation(j, o);
    var y := OldObligation(k, o);
    AdmissibleIsNew(j, r);
    assert x in k.requests;
    SameRequestIn(k, x, y);
    assert k.facts == j.facts && k.latches == j.latches;
    if |ObligationsOf(r)| == 1 {
      CountUnlessSame(j.obligations, ObligationsOf(r)[0], o.requestId);
    } else {
      assert k.obligations == j.obligations;
    }
  }

  lemma AdmissibleIsNew(j: Journal, r: Request)
    requires Admissible(j, r)
    ensures NewRequestId(j, r.requestId)
  {
  }

  lemma SameRequestIn(j: Journal, x: Request, y: Request)
    requires WellFormed(j) && x in j.requests && y in j.requests && x.requestId == y.requestId
    ensures x == y
  {
    WellFormedDistinct(j);
    SameRequest(j, x, y);
  }

  lemma {:induction false} OldViewsStay(j: Journal, r: Request, symbol: string, obligations: seq<StopObligation>)
    requires WellFormed(j) && Paired(j) && Admissible(j, r)
    requires WellFormed(Commit(j, AddRequest(r))) && Paired(Commit(j, AddRequest(r)))
    requires forall o :: o in obligations ==> o in j.obligations
    requires var p, q := PortfolioOf(j, symbol), PortfolioOf(Commit(j, AddRequest(r)), symbol);
             !p.reconciliationRequired && !p.sellUncertain && !q.reconciliationRequired && !q.sellUncertain
    ensures ViewsFrom(Commit(j, AddRequest(r)), symbol, obligations) == ViewsFrom(j, symbol, obligations)
    ensures forall v :: v in ViewsFrom(j, symbol, obligations) ==> v.requestId != r.requestId
  {
    hide WellFormed, Paired, Admissible, PortfolioOf, ViewOf, Commit;
    if |obligations| > 0 {
      var n := |obligations| - 1;
      assert obligations[n] in obligations;
      OldViewsStay(j, r, symbol, obligations[..n]);
      OldViewStays(j, r, symbol, obligations[n]);
      ViewOfNames(j, symbol, obligations[n]);
    }
  }

  lemma ViewOfNames(j: Journal, symbol: string, o: StopObligation)
    ensures ViewOf(j, symbol, o).requestId == o.requestId
  {
  }

  /** The new stop sell's own slice is pending. */
  lemma NewViewIsPending(j: Journal, r: Request, symbol: string)
    requires WellFormed(j) && Admissible(j, r) && r.command.New? && r.command.stopLatchVersion.Some?
    requires r.command.symbol == symbol
    requires var k := Commit(j, AddRequest(r));
             && WellFormed(k) && Paired(k)
             && !PortfolioOf(k, symbol).reconciliationRequired && !PortfolioOf(k, symbol).sellUncertain
    ensures ViewOf(Commit(j, AddRequest(r)), symbol, ObligationsOf(r)[0]).state.Pending?
  {
    hide WellFormed, Paired, Admissible, View, Status, PortfolioOf, CountFor, Consistent;
    var k := Commit(j, AddRequest(r));
    var o := ObligationsOf(r)[0];
    assert o in k.obligations;
    OnlyOverfillIsInconsistent(k, o);
    FreshView(j, r);
    assert r in k.requests;
  }

  lemma {:induction false} NoneSelected(views: seq<ObligationView>, rid: Id)
    requires forall v :: v in views ==> v.requestId != rid
    ensures Select(ViewFor(rid), views) == []
  {
    if |views| > 0 {
      assert views[|views| - 1] in views;
      NoneSelected(views[..|views| - 1], rid);
    }
  }

  /** After a stop sell is placed on a calm symbol without blocked slices, it may be sent. */
  lemma PlacedStopMayGo(j: Journal, r: Request, symbol: string)
    requires Invariant(j) && Admissible(j, r) && r.command.New? && r.command.stopLatchVersion.Some?
    requires r.command.symbol == symbol && r.command.side.Sell?
    requires !PortfolioOf(j, symbol).reconciliationRequired && !PortfolioOf(j, symbol).sellUncertain
    requires !exists v :: v in Views(j, symbol) && BlocksStops(v)
    ensures StopMayGo(Commit(j, AddRequest(r)), r, Some(REGULAR))
  {
    hide Invariant, WellFormed, Paired, Admissible, PortfolioOf, ViewOf, UnpairedFrom;
    var k := Commit(j, AddRequest(r));
    var o := ObligationsOf(r)[0];
    PlacedInvariant(j, r);
    CalmStays(j, r, symbol);
    NothingUnpaired(k, symbol);
    OldViewsStay(j, r, symbol, j.obligations);
    NewViewIsPending(j, r, symbol);
    ViewOfNames(k, symbol, o);
    assert k.obligations[..|j.obligations|] == j.obligations;
    var rest, mine := ViewsFrom(j, symbol, j.obligations), ViewOf(k, symbol, o);
    assert Views(k, symbol) == rest + [mine];
    NoneSelected(rest, r.requestId);
    SelectAppend(ViewFor(r.requestId), rest, mine);
    assert Views(j, symbol) == rest + UnpairedFrom(j, symbol, j.requests);
  }

  lemma PlacedInvariant(j: Journal, r: Request)
    requires Invariant(j) && Admissible(j, r)
    ensures var k := Commit(j, AddRequest(r));
            && WellFormed(j) && Paired(j) && Invariant(k) && WellFormed(k) && Paired(k) && DistinctRequests(k)
  {
    hide Admissible, NeverOversold;
    InvariantKept(j, AddRequest(r));
  }

  /* ----- the facts of a send ----- */

  lemma AcceptedStays(j: Journal, k: Journal, rid: Id)
    requires j.requests == k.requests
    ensures AcceptedRequest(j, rid) == AcceptedRequest(k, rid)
  {
  }

  /** Transport and acknowledgement evidence of an accepted request is always taken. */
  lemma QuietFactIsTaken(s: Session, f: Fact)
    requires f.Transport? || f.Ack?
    requires AcceptedRequest(s.journal, f.requestId).Ok? && NewEventId(s.journal, f.eventId)
    ensures Ingest(s, f) == Outcome(Ok(true), After(s, AddFact(f, [])))
    ensures Allowed(s.journal, AddFact(f, []))
  {
    hide Commit;
  }

  lemma QuietTotals(facts: seq<Fact>, f: Fact, x: Request)
    requires (f.Transport? || f.Ack?) && x.command.New?
    ensures Total(FilledBy(x.orderId), facts + [f]) == Total(FilledBy(x.orderId), facts)
    ensures Exposure(facts + [f], x) == Exposure(facts, x)
  {
    hide Total;
    TotalAppend(FilledBy(x.orderId), facts, f);
    TotalAppend(CancelledBy(x.orderId), facts, f);
    TotalAppend(AmendedBy(x.orderId), facts, f);
  }

  lemma QuietVoid(facts: seq<Fact>, f: Fact, x: Request)
    requires f.Transport? || f.Ack?
    requires f.Ack? && f.requestId == x.requestId ==> !Status(facts, x).failed && !Status(facts, x).rejected
    ensures Void(Status(facts + [f], x)) <==> Void(Status(facts, x))
  {
    hide Gather;
    GatherAppend(facts, f, x);
  }

  lemma QuietQuantities(facts: seq<Fact>, f: Fact, x: Request)
    requires (f.Transport? || f.Ack?) && x.command.New?
    requires f.Ack? && f.requestId == x.requestId ==> !Status(facts, x).failed && !Status(facts, x).rejected
    ensures View(facts + [f], x).filled == View(facts, x).filled
    ensures View(facts + [f], x).reserved == View(facts, x).reserved
  {
    hide Status, Observations, Latest, Tied, Revived, CancelledToZero, Total, Exposure, Select;
    QuietTotals(facts, f, x);
    QuietVoid(facts, f, x);
  }

  /** An acknowledgement reaches a request that has neither failed nor been rejected. */
  ghost predicate Harmless(j: Journal, f: Fact) {
    f.Transport? ||
    (f.Ack? && forall x :: x in j.requests && x.requestId == f.requestId ==>
                 !Status(j.facts, x).failed && !Status(j.facts, x).rejected)
  }

  /** Evidence of the send itself moves no quantity of any symbol. */
  lemma QuietFactKeepsPosition(j: Journal, f: Fact, symbol: string)
    requires WellFormed(j) && Harmless(j, f)
    ensures var k := Commit(j, AddFact(f, []));
            Managed(k, symbol) == Managed(j, symbol) && Reserved(k, symbol) == Reserved(j, symbol)
  {
    hide WellFormed, Status, View, Total, Initial;
    var k := Commit(j, AddFact(f, []));
    CommitFact(j, f);
    forall x | x in j.requests
      ensures ManagedBy(k, symbol)(x) == ManagedBy(j, symbol)(x) && ReservedBy(k, symbol)(x) == ReservedBy(j, symbol)(x)
    {
      if x.command.New? {
        Lookup(j, x);
        QuietQuantities(j.facts, f, x);
      }
    }
    TotalEq(ManagedBy(k, symbol), ManagedBy(j, symbol), j.requests);
    TotalEq(ReservedBy(k, symbol), ReservedBy(j, symbol), j.requests);
  }

  ghost predicate FreshSupply(j: Journal, ids: Supply) {
    && NewRequestId(j, ids.requestId) && NewOrderId(j, ids.orderId)
    && NewEventId(j, ids.claimId) && NewEventId(j, ids.sentId) && NewEventId(j, ids.ackId)
    && ids.claimId != ids.sentId && ids.claimId != ids.ackId && ids.sentId != ids.ackId
  }

  /* ----- the drain ----- */

  /** What a drain means to do passes every guard of a submission. */
  lemma IntentIsAdmissible(s: Session, symbol: string, market: MarketSession, now: int, ids: Supply)
    requires DrainIntent(s, symbol, market).Some? && FreshSupply(s.journal, ids)
    requires First(KeyIs(DrainIntent(s, symbol, market).value.key), s.journal.requests).None?
    ensures var c := DrainIntent(s, symbol, market).value;
            && CheckSubmission(s, c, now) == Ok(())
            && Admissible(s.journal, RequestFor(c, ids.requestId, ids.orderId))
            && c.New? && c.side.Sell? && c.symbol == symbol && c.stopLatchVersion.Some?
            && IsStopKey(c.key) && market == REGULAR && s.ready
            && c.expiresAt.None? && c.configVersion == AppliedVersion(s.journal.configs, symbol)
            && c.qty == Managed(s.journal, symbol) - Reserved(s.journal, symbol)
            && !PortfolioOf(s.journal, symbol).reconciliationRequired && !PortfolioOf(s.journal, symbol).sellUncertain
            && !(exists v :: v in Views(s.journal, symbol) && BlocksStops(v))
  {
    hide Managed, Reserved, Discrepant, AnySellUnclear, LastControl, Views, FailedSell, AppliedVersion, ConfirmedHoldings, Digits;
    var l := First(LatchOf(symbol), s.journal.latches).value;
    assert l in s.journal.latches && l.symbol == symbol;
    var c := DrainIntent(s, symbol, market).value;
    assert STOP_PREFIX <= c.key;
  }

  /** The claim of the request just placed is granted. */
  lemma PlacedIsClaimed(s: Session, r: Request, now: int, eid: Id)
    requires Invariant(s.journal) && Admissible(s.journal, r) && s.ready
    requires r.command.New? && r.command.side.Sell? && r.command.expiresAt.None?
    requires r.command.configVersion == AppliedVersion(s.journal.configs, r.command.symbol)
    requires StopMayGo(Commit(s.journal, AddRequest(r)), r, Some(REGULAR))
    requires IsStopKey(r.command.key)
    ensures var t := After(s, AddRequest(r));
            && Claim(t, r.requestId, Some(REGULAR), now, eid)
               == Outcome(Ok(true), After(t, AddFact(Transport(eid, r.requestId, SENDING), [])))
            && AcceptedRequest(t.journal, r.requestId) == Ok(r)
  {
    hide Invariant, WellFormed, Admissible, StopMayGo, Status, AppliedVersion;
    var k := Commit(s.journal, AddRequest(r));
    PlacedInvariant(s.journal, r);
    Lookup(k, r);
    FreshView(s.journal, r);
    AdmissibleDecision(s.journal, r);
  }

  lemma AdmissibleDecision(j: Journal, r: Request)
    requires Admissible(j, r) && r.command.New?
    ensures r.decision.Accepted?
  {
  }

  /** The journal after the three facts of an undisturbed send and its acknowledgement. */
  function Acknowledged(j: Journal, r: Request, ids: Supply): Journal {
    Commit(Commit(Commit(j, AddFact(Transport(ids.claimId, r.requestId, SENDING), [])),
                  AddFact(Transport(ids.sentId, r.requestId, SENT), [])),
           AddFact(Ack(ids.ackId, r.requestId, "virtual-" + IdText(r.requestId)), []))
  }

  lemma TransportHarmless(j: Journal, f: Fact, symbol: string)
    requires WellFormed(j) && f.Transport? && Allowed(j, AddFact(f, []))
    ensures var k := Commit(j, AddFact(f, []));
            && WellFormed(k) && Managed(k, symbol) == Managed(j, symbol) && Reserved(k, symbol) == Reserved(j, symbol)
            && k.requests == j.requests && k.facts == j.facts + [f]
  {
    hide WellFormed, Managed, Reserved, Allowed;
    WellFormedKept(j, AddFact(f, []));
    QuietFactKeepsPosition(j, f, symbol);
  }

  /** From the placed request on, sending and acknowledging run to their end and move no quantity. */
  lemma SendCompletes(s: Session, r: Request, ids: Supply, symbol: string)
    requires WellFormed(s.journal) && r in s.journal.requests && r.decision.Accepted?
    requires !Status(s.journal.facts, r).failed && !Status(s.journal.facts, r).rejected
    requires NewEventId(s.journal, ids.claimId) && NewEventId(s.journal, ids.sentId) && NewEventId(s.journal, ids.ackId)
    requires ids.claimId != ids.sentId && ids.claimId != ids.ackId && ids.sentId != ids.ackId
    ensures var claimed := After(s, AddFact(Transport(ids.claimId, r.requestId, SENDING), []));
            var sent := Ingest(claimed, Transport(ids.sentId, r.requestId, SENT));
            && sent.result == Ok(true)
            && Ingest(sent.session, Ack(ids.ackId, r.requestId, "virtual-" + IdText(r.requestId)))
               == Outcome(Ok(true), s.(journal := Acknowledged(s.journal, r, ids)))
    ensures var k := Acknowledged(s.journal, r, ids);
            Managed(k, symbol) == Managed(s.journal, symbol) && Reserved(k, symbol) == Reserved(s.journal, symbol)
  {
    hide WellFormed, Managed, Reserved, Status, Ingest, Allowed;
    var j := s.journal;
    Lookup(j, r);
    var sending, sent := Transport(ids.claimId, r.requestId, SENDING), Transport(ids.sentId, r.requestId, SENT);
    var ack := Ack(ids.ackId, r.requestId, "virtual-" + IdText(r.requestId));
    QuietFactIsTaken(s, sending);
    TransportHarmless(j, sending, symbol);
    var s2 := After(s, AddFact(sending, []));
    AcceptedStays(j, s2.journal, r.requestId);
    QuietFactIsTaken(s2, sent);
    TransportHarmless(s2.journal, sent, symbol);
    var s3 := After(s2, AddFact(sent, []));
    AcceptedStays(j, s3.journal, r.requestId);
    QuietFactIsTaken(s3, ack);
    UnfailedStays(j, r, sending, sent, s3.journal);
    QuietFactKeepsPosition(s3.journal, ack, symbol);
  }

  lemma UnfailedStays(j: Journal, r: Request, a: Fact, b: Fact, k: Journal)
    requires WellFormed(k) && r in j.requests && k.requests == j.requests
    requires a.Transport? && b.Transport? && k.facts == j.facts + [a] + [b]
    requires !Status(j.facts, r).failed && !Status(j.facts, r).rejected
    ensures forall x :: x in k.requests && x.requestId == r.requestId ==>
              !Status(k.facts, x).failed && !Status(k.facts, x).rejected
  {
    hide WellFormed, Gather;
    GatherAppend(j.facts, a, r);
    GatherAppend(j.facts + [a], b, r);
    forall x | x in k.requests && x.requestId == r.requestId ensures x == r { SameRequestIn(k, x, r); }
  }

  /** The world after a drain that acted. */
  function Drained(d: Desk, c: Command, ids: Supply): Desk {
    var r := RequestFor(c, ids.requestId, ids.orderId);
    Desk(d.session.(journal := Acknowledged(Commit(d.session.journal, AddRequest(r)), r, ids)), d.calls + [ids.requestId])
  }

  /** Whenever a drain intends anything, and its key is new, the request is created, claimed, called
      once, recorded as sent and acknowledged, and the symbol is then reserved to the last share. */
  lemma DrainCovers(d: Desk, symbol: string, market: MarketSession, now: int, ids: Supply)
    requires Invariant(d.session.journal) && FreshSupply(d.session.journal, ids)
    requires DrainIntent(d.session, symbol, market).Some?
    requires First(KeyIs(DrainIntent(d.session, symbol, market).value.key), d.session.journal.requests).None?
    ensures var c := DrainIntent(d.session, symbol, market).value;
            var after := Drained(d, c, ids);
            && Drain(d, symbol, market, now, ids)
               == Draining(Ok(Some(RequestFor(c, ids.requestId, ids.orderId))), after)
            && Reserved(after.session.journal, symbol) == Managed(after.session.journal, symbol)
  {
    hide Invariant, WellFormed, Admissible, DrainIntent, CheckSubmission, Managed, Reserved, PortfolioOf, Status,
         StopMayGo, Claim, Ingest, Views, Acknowledged, NewEventId, NewRequestId, NewOrderId, AppliedVersion, Commit;
    var s := d.session;
    var c := DrainIntent(s, symbol, market).value;
    var r := RequestFor(c, ids.requestId, ids.orderId);
    IntentIsAdmissible(s, symbol, market, now, ids);
    PlacedInvariant(s.journal, r);
    PlacedStopMayGo(s.journal, r, symbol);
    PlacedIsClaimed(s, r, now, ids.claimId);
    PlacedQuantities(s.journal, r, symbol);
    FreshView(s.journal, r);
    PlacedFacts(s.journal, r, ids);
    SendCompletes(After(s, AddRequest(r)), r, ids, symbol);
  }

  lemma PlacedFacts(j: Journal, r: Request, ids: Supply)
    requires FreshSupply(j, ids) && Admissible(j, r) && r.command.New? && WellFormed(j)
    ensures var k := Commit(j, AddRequest(r));
            && k.facts == j.facts && r in k.requests && r.decision.Accepted?
            && NewEventId(k, ids.claimId) && NewEventId(k, ids.sentId) && NewEventId(k, ids.ackId)
            && !Status(k.facts, r).failed && !Status(k.facts, r).rejected
  {
    hide WellFormed, Admissible, Status, View;
    AdmissibleDecision(j, r);
    FreshView(j, r);
    FreshIsUnfailed(j, r);
  }

  lemma FreshIsUnfailed(j: Journal, r: Request)
    requires WellFormed(j) && Admissible(j, r) && r.command.New?
    ensures !Status(j.facts, r).failed && !Status(j.facts, r).rejected
  {
    hide WellFormed, Admissible, Gather;
    UntouchedRequest(j, r);
    UntouchedStatus(j.facts, r);
  }

  /** A symbol reserved to the last share gives a drain nothing to intend. */
  lemma FullyReservedIsIdle(d: Desk, symbol: string, market: MarketSession, now: int, ids: Supply)
    requires Reserved(d.session.journal, symbol) == Managed(d.session.journal, symbol)
    ensures Drain(d, symbol, market, now, ids) == Draining(Ok(None), d)
  {
    hide Managed, Reserved, Discrepant, AnySellUnclear, Views, FailedSell, ConfirmedHoldings, Place;
  }

  /** After a drain that acted every further drain, at any time and in either session, returns
      nothing and leaves the desk as it is. */
  lemma DrainsOnce(d: Desk, symbol: string, market: MarketSession, now: int, ids: Supply,
                   market': MarketSession, now': int, ids': Supply)
    requires Invariant(d.session.journal) && FreshSupply(d.session.journal, ids)
    requires DrainIntent(d.session, symbol, market).Some?
    requires First(KeyIs(DrainIntent(d.session, symbol, market).value.key), d.session.journal.requests).None?
    ensures var first := Drain(d, symbol, market, now, ids);
            && first.result.Ok? && first.result.value.Some?
            && first.desk.calls == d.calls + [ids.requestId]
            && Drain(first.desk, symbol, market', now', ids') == Draining(Ok(None), first.desk)
  {
    hide Invariant, Drain, DrainIntent, Acknowledged, Managed, Reserved, FreshSupply;
    DrainCovers(d, symbol, market, now, ids);
    FullyReservedIsIdle(Drain(d, symbol, market, now, ids).desk, symbol, market', now', ids');
  }
}
