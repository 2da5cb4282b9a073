/** Exactly when a request is called, and when a drain has something to do. */
module Claims {
  import opened Basics
  import opened Models
  import opened Ownership
  import opened Outcomes
  import opened Projection
  import opened Validation
  import opened Steps
  import opened StopEvaluation
  import opened LedgerSpec
  import opened DispatchSpec
  import opened StopObligations
  import opened Oversell
  import opened ConfigChain
  import opened Runs
  import opened Meaning
  import opened StopFires
  import opened Admission
  import opened SliceProgress
  import opened Dispatch
  import opened Drain
  import StopSignals

  /* ----- slices of a symbol ----- */

  /** A slice is over without having sold its shares. */
  ghost predicate Stuck(j: Journal, symbol: string) {
    exists o, r :: SliceOf(j, o, r) && o.symbol == symbol && !Executed(j, o) && Ended(j, o, r)
  }

  lemma {:induction false} ViewsOfSlices(j: Journal, symbol: string, obligations: seq<StopObligation>)
    ensures forall v :: v in ViewsFrom(j, symbol, obligations)
                        <==> exists o :: o in obligations && o.symbol == symbol && v == ViewOf(j, symbol, o)
  {
    hide ViewOf;
    if |obligations| > 0 {
      var n := |obligations| - 1;
      ViewsOfSlices(j, symbol, obligations[..n]);
      assert obligations == obligations[..n] + [obligations[n]];
      forall v | v in ViewsFrom(j, symbol, obligations)
        ensures exists o :: o in obligations && o.symbol == symbol && v == ViewOf(j, symbol, o)
      {
        if v in ViewsFrom(j, symbol, obligations[..n]) {
          var o :| o in obligations[..n] && o.symbol == symbol && v == ViewOf(j, symbol, o);
          assert o in obligations;
        } else {
          assert obligations[n] in obligations;
        }
      }
    }
  }

  lemma {:induction false} ViewsOfRequest(j: Journal, symbol: string, rid: Id, obligations: seq<StopObligation>)
    requires forall o :: o in obligations && o.requestId == rid ==> o.symbol == symbol
    ensures Select(ViewFor(rid), ViewsFrom(j, symbol, obligations)) == ViewsFrom(j, symbol, Select(ObligedTo(rid), obligations))
  {
    hide ViewOf, Select;
    if |obligations| > 0 {
      var n := |obligations| - 1;
      var o := obligations[n];
      var front, mine := ViewsFrom(j, symbol, obligations[..n]), Select(ObligedTo(rid), obligations[..n]);
      assert obligations == obligations[..n] + [o];
      ViewsOfRequest(j, symbol, rid, obligations[..n]);
      SelectAppend(ObligedTo(rid), obligations[..n], o);
      ViewOfNames(j, symbol, o);
      if o.symbol == symbol { SelectAppend(ViewFor(rid), front, ViewOf(j, symbol, o)); }
      assert mine + [] == mine && front + [] == front;
      assert (mine + [o])[..|mine|] == mine;
    } else {
      SelectMember(ObligedTo(rid), obligations);
      assert |Select(ObligedTo(rid), obligations)| == 0 by { HasMember(Select(ObligedTo(rid), obligations)); }
      SelectMember(ViewFor(rid), ViewsFrom(j, symbol, obligations));
      HasMember(Select(ViewFor(rid), ViewsFrom(j, symbol, obligations)));
    }
  }

  lemma SliceExists(j: Journal, o: StopObligation) returns (r: Request)
    requires Invariant(j) && o in j.obligations
    ensures SliceOf(j, o, r)
  {
    hide WellFormed, NeverOversold;
    ObligationOrigin(j.requests, o);
    r :| r in j.requests && ObligationsOf(r) == [o];
  }

  lemma ViewsAreSlices(j: Journal, symbol: string)
    requires Invariant(j)
    ensures Views(j, symbol) == ViewsFrom(j, symbol, j.obligations)
  {
    hide WellFormed, NeverOversold;
    Parts(j);
    NothingUnpaired(j, symbol);
  }

  /** On a calm symbol stop sells are held up exactly by a slice that is stuck. */
  lemma BlockedMeans(j: Journal, symbol: string)
    requires Invariant(j) && Calm(j, symbol)
    ensures (exists v :: v in Views(j, symbol) && BlocksStops(v)) <==> Stuck(j, symbol)
  {
    hide Invariant, Calm, ViewOf, Executed, Ended, SliceOf;
    ViewsAreSlices(j, symbol);
    ViewsOfSlices(j, symbol, j.obligations);
    forall o | o in j.obligations && o.symbol == symbol
      ensures BlocksStops(ViewOf(j, symbol, o)) ==> Stuck(j, symbol)
    {
      var r := SliceExists(j, o);
      SliceMeans(j, o, r);
    }
    if Stuck(j, symbol) {
      var o, r :| SliceOf(j, o, r) && o.symbol == symbol && !Executed(j, o) && Ended(j, o, r);
      SliceMeans(j, o, r);
      SliceIsListed(j, o, r);
      assert ViewOf(j, symbol, o) in Views(j, symbol);
    }
  }

  lemma SliceIsListed(j: Journal, o: StopObligation, r: Request)
    requires SliceOf(j, o, r)
    ensures o in j.obligations && r in j.requests
  {
  }

  /* ----- the claim ----- */

  ghost predicate Untouched(facts: seq<Fact>, r: Request) { forall f :: f in facts ==> !About(f, r) && !ExecutedBy(f, r) }

  lemma ClaimableMeans(j: Journal, r: Request)
    ensures Claimable(j, r) <==> r.decision.Accepted? && Untouched(j.facts, r)
  {
    hide Status;
    IntentIsUntouched(j.facts, r);
  }

  lemma UntouchedSlice(j: Journal, r: Request, o: StopObligation)
    requires SliceOf(j, o, r) && Untouched(j.facts, r)
    ensures !Executed(j, o)
  {
    TotalZero(FilledBy(o.orderId), j.facts);
  }

  lemma OwnView(j: Journal, r: Request, o: StopObligation)
    requires Invariant(j) && SliceOf(j, o, r)
    ensures Select(ViewFor(r.requestId), Views(j, r.command.symbol)) == [ViewOf(j, r.command.symbol, o)]
  {
    hide WellFormed, NeverOversold, ViewOf, ViewsFrom, Select;
    var symbol := r.command.symbol;
    Parts(j);
    ViewsAreSlices(j, symbol);
    ObligationsPerRequest(j.requests, r);
    SelectMember(ObligedTo(r.requestId), j.obligations);
    ViewsOfRequest(j, symbol, r.requestId, j.obligations);
    OneView(j, symbol, o);
  }

  lemma OneView(j: Journal, symbol: string, o: StopObligation)
    ensures ViewsFrom(j, symbol, [o]) == if o.symbol == symbol then [ViewOf(j, symbol, o)] else []
  {
    hide ViewOf;
    assert [o][..0] == [];
    assert ViewsFrom(j, symbol, []) == [];
  }

  /** A stop sell nobody touched yet may go in a regular session of a calm symbol without a stuck slice. */
  lemma StopGoesIff(j: Journal, r: Request, market: Option<MarketSession>)
    requires Invariant(j) && r in j.requests && Untouched(j.facts, r)
    ensures StopMayGo(j, r, market)
       <==> market == Some(REGULAR) && r.command.New? && r.command.stopLatchVersion.Some?
            && Calm(j, r.command.symbol) && !Stuck(j, r.command.symbol)
  {
    hide Invariant, Calm, ViewOf, Executed, Ended, Untouched, Views, BlocksStops;
    if r.command.New? && r.command.stopLatchVersion.Some? {
      var o := ObligationsOf(r)[0];
      var symbol := r.command.symbol;
      TaggedIsSlice(j, r);
      OwnView(j, r, o);
      SliceMeans(j, o, r);
      UntouchedSlice(j, r, o);
      if Calm(j, symbol) {
        BlockedMeans(j, symbol);
        if Ended(j, o, r) { assert Stuck(j, symbol); }
      }
    }
  }

  lemma TaggedIsSlice(j: Journal, r: Request)
    requires Invariant(j) && r in j.requests && |ObligationsOf(r)| == 1
    ensures SliceOf(j, ObligationsOf(r)[0], r)
  {
    hide WellFormed, NeverOversold;
    AllListed(j.requests, r);
  }

  lemma {:induction false} AllListed(requests: seq<Request>, r: Request)
    requires r in requests && |ObligationsOf(r)| == 1
    ensures ObligationsOf(r)[0] in AllObligations(requests)
  {
    var n := |requests| - 1;
    if requests[n] != r { AllListed(requests[..n], r); }
  }

  /** What a claim asks of a request, apart from the stop sells' own conditions. */
  ghost predicate MayClaim(s: Session, r: Request, now: int) {
    && r.decision.Accepted? && Untouched(s.journal.facts, r) && s.ready
    && InTime(r.command, now) && Current(s.journal, r.command.symbol, r.command.configVersion)
    && (r.command.New? && r.command.side.Buy? ==>
          Calm(s.journal, r.command.symbol) && !Stopped(s.journal, r.command.symbol) && Unlatched(s.journal, r.command.symbol))
  }

  ghost predicate StopGoes(j: Journal, r: Request, market: Option<MarketSession>) {
    "virtual-stop:" <= r.command.key ==>
      && market == Some(REGULAR) && r.command.New? && r.command.stopLatchVersion.Some?
      && Calm(j, r.command.symbol) && !Stuck(j, r.command.symbol)
  }

  /** A request is claimed if and only if it was accepted, nothing was ever heard of it, the session is
      reviewed, its deadline has not come and its revision is current; a buy also needs a calm symbol that is
      neither stopped nor latched, a stop sell a regular session and no stuck slice.  The claim commits one
      SENDING fact and nothing else. */
  lemma ClaimedIff(s: Session, r: Request, market: Option<MarketSession>, now: int, eid: Id)
    requires Invariant(s.journal) && r in s.journal.requests
    ensures var j, o := s.journal, Claim(s, r.requestId, market, now, eid);
            && (o.result == Ok(true) <==> MayClaim(s, r, now) && StopGoes(j, r, market))
            && (o.result != Ok(true) ==> o.session == s)
            && (o.result == Ok(true) ==> o.session == s.(journal := j.(facts := j.facts + [Transport(eid, r.requestId, SENDING)])))
  {
    hide Invariant, Claimable, StopMayGo, CheckFreshness, PortfolioOf, Untouched, Calm, Stuck, Stopped, Current, WellFormed;
    var j := s.journal;
    Parts(j);
    Lookup(j, r);
    ClaimableMeans(j, r);
    FreshMeans(j, r.command, now);
    BuyGoes(j, r.command.symbol);
    if Untouched(j.facts, r) { StopGoesIff(j, r, market); }
    assert j.assignments + [] == j.assignments;
  }

  lemma FreshMeans(j: Journal, c: Command, now: int)
    requires Chained(j)
    ensures CheckFreshness(j, c, now).Ok? <==> InTime(c, now) && Current(j, c.symbol, c.configVersion)
  {
    hide AppliedVersion, Current;
    AppliedIsCurrent(j, c.symbol, c.configVersion);
  }

  lemma BuyGoes(j: Journal, symbol: string)
    requires WellFormed(j) && NeverOversold(j)
    ensures BuyMayGo(j, symbol) <==> Calm(j, symbol) && !Stopped(j, symbol) && Unlatched(j, symbol)
  {
    hide WellFormed, NeverOversold, PortfolioOf, Calm, Stopped;
    PositionMeans(j, symbol);
    ControlMeans(j, symbol);
  }

  /** A send that claims its request calls it and journals SENDING and then SENT; any other leaves the
      journal and the calls alone. */
  lemma SendCallsIff(d: Desk, r: Request, market: Option<MarketSession>, now: int, claimId: Id, sentId: Id)
    requires Invariant(d.session.journal) && r in d.session.journal.requests
    requires NewEventId(d.session.journal, claimId) && NewEventId(d.session.journal, sentId) && claimId != sentId
    ensures var j, o := d.session.journal, Send(d, r.requestId, market, now, claimId, sentId);
            if MayClaim(d.session, r, now) && StopGoes(j, r, market)
            then o == Sending(Ok(true), Desk(d.session.(journal := j.(facts :=
                        j.facts + [Transport(claimId, r.requestId, SENDING), Transport(sentId, r.requestId, SENT)])),
                      d.calls + [r.requestId]))
            else o.result != Ok(true) && o.desk == d
  {
    hide Invariant, WellFormed, Claim, MayClaim, StopGoes, Ingest;
    var j := d.session.journal;
    ClaimedIff(d.session, r, market, now, claimId);
    Parts(j);
    Lookup(j, r);
    if MayClaim(d.session, r, now) && StopGoes(j, r, market) {
      var sending, sent := Transport(claimId, r.requestId, SENDING), Transport(sentId, r.requestId, SENT);
      var s := d.session.(journal := j.(facts := j.facts + [sending]));
      MayClaimAccepted(d.session, r, now);
      QuietFactIsTaken(s, sent);
      assert s.journal.assignments + [] == s.journal.assignments;
      assert j.facts + [sending] + [sent] == j.facts + [sending, sent];
    }
  }

  lemma MayClaimAccepted(s: Session, r: Request, now: int)
    requires MayClaim(s, r, now)
    ensures r.decision.Accepted?
  {
  }

  /* ----- the drain ----- */

  /** A sell of the symbol failed or was rejected. */
  ghost predicate RefusedSell(j: Journal, symbol: string) {
    exists r, f :: r in j.requests && f in j.facts && r.command.symbol == symbol && r.command.side.Sell? && Negative(f, r)
  }

  lemma FailedSellMeans(j: Journal, symbol: string)
    ensures FailedSell(j, symbol) <==> RefusedSell(j, symbol)
  {
    hide Status, Negative;
    forall r ensures Status(j.facts, r).failed || Status(j.facts, r).rejected <==> exists f :: f in j.facts && Negative(f, r) {
      IntentIsUntouched(j.facts, r);
    }
  }

  /** A latched symbol has shares under the rule of its latch, and nothing speaks against selling them. */
  ghost predicate MustDrain(s: Session, symbol: string, market: MarketSession, l: StopLatch) {
    var j := s.journal;
    && s.ready && market == REGULAR && l in j.latches && l.symbol == symbol
    && MaySell(j, symbol) && (exists b :: Protects(j, symbol, b) && b.version == l.ruleVersion)
    && !Liquidating(j, symbol) && !Stuck(j, symbol) && !RefusedSell(j, symbol)
  }

  lemma LatchIsFirst(j: Journal, symbol: string, l: StopLatch)
    requires StopSignals.OneLatchPerSymbol(j) && l in j.latches && l.symbol == symbol
    ensures First(LatchOf(symbol), j.latches) == Some(l)
  {
    forall x | x in j.latches && LatchOf(symbol)(x) ensures x == l {
      var m :| 0 <= m < |j.latches| && j.latches[m] == x;
      var n :| 0 <= n < |j.latches| && j.latches[n] == l;
    }
    FirstOnly(LatchOf(symbol), j.latches, l);
  }

  lemma HeldUnder(j: Journal, symbol: string, version: Positive)
    requires Invariant(j) && MaySell(j, symbol)
    ensures ConfirmedHoldings(j, symbol).Some? && ConfirmedHoldings(j, symbol).value.ruleVersion == version
       <==> exists b :: Protects(j, symbol, b) && b.version == version
  {
    hide Invariant, MaySell, Protects, ConfirmedHoldings, Managed, First;
    if ConfirmedHoldings(j, symbol).Some? {
      var b := HeldMeans(j, PriceAtOrBelow, symbol);
      assert Protects(j, symbol, b) && BindingOf(symbol, ConfirmedHoldings(j, symbol).value.ruleVersion)(b);
      forall c | Protects(j, symbol, c) ensures c == b { OneProtector(j, symbol, b, c); }
    }
    forall b | Protects(j, symbol, b) ensures ConfirmedHoldings(j, symbol).Some? { ProtectedIsHeld(j, PriceAtOrBelow, symbol, b); }
  }

  lemma CandidateMeans(s: Session, symbol: string, l: StopLatch)
    requires Invariant(s.journal) && l in s.journal.latches && l.symbol == symbol
    ensures var j, c := s.journal, LatchedCandidate(s, symbol);
            && (c.Candidate? <==> s.ready && MaySell(j, symbol) && exists b :: Protects(j, symbol, b) && b.version == l.ruleVersion)
            && (c.Candidate? ==> c.unreserved == Managed(j, symbol) - Reserved(j, symbol) && c.unreserved > 0)
  {
    hide Invariant, Calm, Managed, Reserved, Protects, PortfolioOf, ConfirmedHoldings;
    InvariantLatches(s.journal);
    Parts(s.journal);
    LatchIsFirst(s.journal, symbol, l);
    PositionMeans(s.journal, symbol);
    if MaySell(s.journal, symbol) { HeldUnder(s.journal, symbol, l.ruleVersion); }
  }

  lemma InvariantLatches(j: Journal)
    requires Invariant(j)
    ensures StopSignals.OneLatchPerSymbol(j)
  {
  }

  /** A drain intends to sell if and only if it must, and then all that is unreserved: at the market, under the
      symbol's revision, tagged with the rule of the latch and a key of this very state of the journal. */
  lemma DrainsIff(s: Session, symbol: string, market: MarketSession)
    requires Invariant(s.journal)
    ensures var j, intent := s.journal, DrainIntent(s, symbol, market);
            && (intent.Some? <==> exists l :: MustDrain(s, symbol, market, l))
            && forall l :: MustDrain(s, symbol, market, l) ==>
                 && intent.value == New("virtual-stop:" + symbol + ":" + Digits(j.Revision()), symbol, Sell, intent.value.configVersion,
                                        None, Managed(j, symbol) - Reserved(j, symbol), Market, None, Some(l.ruleVersion))
                 && Current(j, symbol, intent.value.configVersion)
  {
    hide Invariant, Calm, Managed, Reserved, Protects, Views, FailedSell, RefusedSell, LatchedCandidate, AppliedVersion, Current, Stuck,
         Liquidating, Digits, BlocksStops, MaySell, LastControl;
    var j := s.journal;
    InvariantLatches(j);
    Parts(j);
    FailedSellMeans(j, symbol);
    ControlMeans(j, symbol);
    AppliedIsCurrent(j, symbol, AppliedVersion(j.configs, symbol));
    if MaySell(j, symbol) {
      SellableIsCalm(j, symbol);
      BlockedMeans(j, symbol);
    }
    forall l | l in j.latches && l.symbol == symbol
      ensures First(LatchOf(symbol), j.latches) == Some(l)
      ensures var c := LatchedCandidate(s, symbol);
              && (c.Candidate? <==> s.ready && MaySell(j, symbol) && exists b :: Protects(j, symbol, b) && b.version == l.ruleVersion)
              && (c.Candidate? ==> c.unreserved == Managed(j, symbol) - Reserved(j, symbol) && c.unreserved > 0)
    {
      LatchIsFirst(j, symbol, l);
      CandidateMeans(s, symbol, l);
    }
    var found := First(LatchOf(symbol), j.latches);
    if found.Some? {
      var l := found.value;
      assert l in j.latches && l.symbol == symbol;
      assert DrainIntent(s, symbol, market).Some? <==> MustDrain(s, symbol, market, l);
    }
  }

  lemma SellableIsCalm(j: Journal, symbol: string)
    requires MaySell(j, symbol)
    ensures Calm(j, symbol)
  {
  }
}
