/** What the projections say of a request and a symbol, told in the journalled facts alone. */
module Meaning {
  import opened Basics
  import opened Models
  import opened Outcomes
  import opened Projection
  import opened Validation
  import opened Steps
  import opened Oversell
  import opened ConfigChain

  /* ----- one request ----- */

  ghost predicate About(f: Fact, r: Request) { f.NamesRequest() && f.requestId == r.requestId }

  /** How much a fact says about the call of a request: a local boundary, a failed send, a rejection,
      or an answer that only a broker who took it can give. */
  function Weight(f: Fact): nat
    requires f.NamesRequest()
  {
    if f.Transport? then 1 else if f.SendFailed? then 2 else if f.Rejected? then 3 else 4
  }

  /** The transport is that of the heaviest evidence there is. */
  lemma TransportIsHeaviest(facts: seq<Fact>, r: Request)
    ensures var rank := Rank(Status(facts, r).transport);
            && (forall f :: f in facts && About(f, r) ==> Weight(f) <= rank)
            && (rank > 0 ==> exists f :: f in facts && About(f, r) && Weight(f) == rank)
  {
    BoundaryWitness(facts, r.requestId);
  }

  /** A boundary stands and nothing heavier: nobody knows what became of the call. */
  ghost predicate InDoubt(facts: seq<Fact>, r: Request) {
    && (exists f :: f in facts && About(f, r))
    && forall f :: f in facts && About(f, r) ==> f.Transport?
  }

  ghost predicate ExecutedBy(f: Fact, r: Request) { f.Fill? && !r.command.IsChange() && f.orderId == r.orderId }

  /** Evidence that the broker took the request. */
  ghost predicate Positive(f: Fact, r: Request) { (About(f, r) && Weight(f) == 4) || ExecutedBy(f, r) }

  ghost predicate Negative(f: Fact, r: Request) { About(f, r) && (f.SendFailed? || f.Rejected?) }

  /** Two facts that cannot both be true of one request. */
  ghost predicate Clash(f: Fact, g: Fact, r: Request) {
    || (Negative(f, r) && Positive(g, r))
    || (About(f, r) && About(g, r) && f.SendFailed? && g.Rejected?)
    || (About(f, r) && About(g, r) && (f.Amended? || f.Cancelled?) && g.EffectRejected?)
  }

  ghost predicate Clashing(facts: seq<Fact>, r: Request) {
    exists f, g :: f in facts && g in facts && Clash(f, g, r)
  }

  /** Evidence that decides whether a change took effect. */
  ghost predicate Decides(f: Fact, r: Request) { About(f, r) && !f.Ack? && !f.Transport? }

  ghost predicate Decided(facts: seq<Fact>, r: Request) { exists f :: f in facts && Decides(f, r) }

  /** Executed although nothing was ever heard of the request itself. */
  ghost predicate Untraced(facts: seq<Fact>, r: Request) {
    && (exists f :: f in facts && ExecutedBy(f, r))
    && forall f :: f in facts ==> !About(f, r)
  }

  /** A change that was acknowledged, and whose effect is still open. */
  ghost predicate Unanswered(facts: seq<Fact>, r: Request) {
    r.command.IsChange() && !Decided(facts, r) && exists f :: f in facts && About(f, r) && f.Ack?
  }

  lemma ConflictIsClash(facts: seq<Fact>, r: Request)
    ensures Status(facts, r).conflict <==> Clashing(facts, r)
  {
    hide LastBoundary;
    if Status(facts, r).conflict {
      if Failed(facts, r.requestId) && Refused(facts, r.requestId) {
        var f :| f in facts && f.SendFailed? && f.requestId == r.requestId;
        var g :| g in facts && g.Rejected? && g.requestId == r.requestId;
        assert Clash(f, g, r);
      } else if Confirmed(facts, r.requestId) && EffectRefused(facts, r.requestId) {
        var f :| f in facts && ShowsEffect(f, r.requestId);
        var g :| g in facts && g.EffectRejected? && g.requestId == r.requestId;
        assert Clash(f, g, r);
      } else {
        var f :| f in facts && Negative(f, r);
        var g :| g in facts && Positive(g, r);
        assert Clash(f, g, r);
      }
    }
    if Clashing(facts, r) {
      var f, g :| f in facts && g in facts && Clash(f, g, r);
    }
  }

  lemma ObservedIsDoubt(facts: seq<Fact>, r: Request)
    ensures Status(facts, r).transport.Observed? <==> InDoubt(facts, r)
  {
    TransportIsHeaviest(facts, r);
  }

  lemma IntentIsUntouched(facts: seq<Fact>, r: Request)
    ensures Status(facts, r).transport.IntentPersisted? <==> forall f :: f in facts ==> !About(f, r)
    ensures Status(facts, r).positiveEvidence <==> exists f :: f in facts && Positive(f, r)
    ensures Status(facts, r).failed || Status(facts, r).rejected <==> exists f :: f in facts && Negative(f, r)
    ensures Status(facts, r).failed <==> exists f :: f in facts && About(f, r) && f.SendFailed?
    ensures Status(facts, r).rejected <==> exists f :: f in facts && About(f, r) && f.Rejected?
  {
    TransportIsHeaviest(facts, r);
    if HasFill(facts, r.orderId) && !r.command.IsChange() {
      var f :| f in facts && f.Fill? && f.orderId == r.orderId;
      assert Positive(f, r);
    }
  }

  lemma SettledIsDecided(facts: seq<Fact>, r: Request)
    ensures Status(facts, r).EffectSettled() <==> r.command.IsChange() && Decided(facts, r) && !Clashing(facts, r)
  {
    hide LastBoundary, Clashing;
    ConflictIsClash(facts, r);
  }

  /** What keeps a session from being opened: contradictory evidence, a call nobody knows the end of, an
      execution out of nowhere, or a change that the broker took without saying what came of it. */
  lemma UnresolvedMeans(facts: seq<Fact>, r: Request)
    ensures Status(facts, r).Unresolved()
       <==> Clashing(facts, r) || InDoubt(facts, r) || Untraced(facts, r) || Unanswered(facts, r)
  {
    hide Clashing, InDoubt, Rank;
    ConflictIsClash(facts, r);
    ObservedIsDoubt(facts, r);
    IntentIsUntouched(facts, r);
    AckedMeans(facts, r);
  }

  lemma AckedMeans(facts: seq<Fact>, r: Request)
    ensures Status(facts, r).transport.Acked? && Status(facts, r).effect in {Some(PENDING), Some(UNKNOWN_EFFECT)}
       <==> Unanswered(facts, r)
  {
    hide LastBoundary;
  }

  /** The flags of an order and its void, in facts: answered by the broker, rejected, failed, cancelled to nothing;
      its link version is one more than its confirmed amendments. */
  lemma OrderFlags(facts: seq<Fact>, r: Request)
    requires r.command.New?
    ensures var v := View(facts, r);
            && (v.acknowledged <==> exists f :: f in facts && About(f, r) && Weight(f) == 4)
            && (v.rejected <==> exists f :: f in facts && About(f, r) && f.Rejected?)
            && (v.submissionFailed <==> exists f :: f in facts && About(f, r) && f.SendFailed?)
            && (v.terminalCancel <==> exists f :: f in facts && f.Cancelled? && f.orderId == r.orderId && f.remaining == 0)
            && v.linkVersion == 1 + |Select((f: Fact) => f.Amended? && f.orderId == r.orderId, facts)|
    ensures Void(Status(facts, r))
       <==> (exists f :: f in facts && Negative(f, r)) && forall f :: f in facts ==> !Positive(f, r)
  {
    hide Observations, Latest, Tied, Revived, Total, Select, Exposure, Status;
    TransportIsHeaviest(facts, r);
    IntentIsUntouched(facts, r);
    SelectSame(AmendOf(r.orderId), (f: Fact) => f.Amended? && f.orderId == r.orderId, facts);
  }

  lemma {:induction false} SelectSame<T>(p: T -> bool, q: T -> bool, s: seq<T>)
    requires forall x :: x in s ==> p(x) == q(x)
    ensures Select(p, s) == Select(q, s)
  {
    if |s| > 0 { SelectSame(p, q, s[..|s| - 1]); }
  }

  /* ----- one symbol ----- */

  /** A sell of which it is not known whether it reached the broker, or a change of one whose effect is open. */
  ghost predicate SellPending(facts: seq<Fact>, r: Request) {
    && r.decision.Accepted? && r.command.side.Sell?
    && (InDoubt(facts, r) || (r.command.IsChange() && (Clashing(facts, r) || !Decided(facts, r))))
  }

  lemma UnclearIsPending(j: Journal, symbol: string)
    ensures AnySellUnclear(j, symbol)
       <==> exists r :: r in j.requests && r.command.symbol == symbol && SellPending(j.facts, r)
  {
    hide Status, InDoubt, Clashing, Decided;
    forall r ensures SellUnclear(j.facts, r) <==> SellPending(j.facts, r) {
      ObservedIsDoubt(j.facts, r);
      SettledIsDecided(j.facts, r);
    }
  }

  /** Nothing about the symbol waits for an explanation. */
  ghost predicate Calm(j: Journal, symbol: string) {
    && !Discrepant(j, symbol)
    && forall r :: r in j.requests && r.command.symbol == symbol ==> !SellPending(j.facts, r)
  }

  /** A calm symbol offers what it manages and has not reserved; any other offers nothing. */
  lemma PositionMeans(j: Journal, symbol: string)
    requires WellFormed(j) && NeverOversold(j)
    ensures var p := PortfolioOf(j, symbol);
            && (p.reconciliationRequired <==> !Calm(j, symbol))
            && p.Available() == (if Calm(j, symbol) then Managed(j, symbol) - Reserved(j, symbol) else 0)
            && p.managed == Managed(j, symbol) && p.reserved == Reserved(j, symbol) && p.reserved >= 0
            && (p.sellUncertain ==> !Calm(j, symbol))
            && p.protected == (if Managed(j, symbol) > 0 then Managed(j, symbol) else 0)
            && p.liquidation == (if p.liquidating then p.protected else 0)
  {
    hide WellFormed, NeverOversold, Discrepant, AnySellUnclear, SellPending, Managed, LastControl;
    ArithmeticAlarmsAreContradictions(j, symbol);
    UnclearIsPending(j, symbol);
    NothingOwed(j, symbol);
  }

  lemma NothingOwed(j: Journal, symbol: string)
    ensures Reserved(j, symbol) >= 0
  {
    hide View, Initial;
    TotalNonNegative(ReservedBy(j, symbol), j.requests);
  }

  /* ----- controls and revisions ----- */

  /** The control that was set last for the symbol. */
  ghost predicate Standing(controls: seq<Control>, symbol: string, i: int) {
    && 0 <= i < |controls| && controls[i].symbol == symbol
    && forall k :: i < k < |controls| ==> controls[k].symbol != symbol
  }

  lemma LastControlAppend(controls: seq<Control>, c: Control, symbol: string)
    ensures LastControl(controls + [c], symbol) == if c.symbol == symbol then c else LastControl(controls, symbol)
  {
    hide Select;
    SelectAppend(ControlOf(symbol), controls, c);
  }

  lemma UnsetControl(controls: seq<Control>, symbol: string)
    requires |controls| == 0
    ensures LastControl(controls, symbol) == Control(symbol, false, false)
  {
  }

  /** The latest control of a symbol decides, and without one nothing is stopped. */
  lemma {:induction false} LatestControlDecides(controls: seq<Control>, symbol: string)
    ensures forall i :: Standing(controls, symbol, i) ==> LastControl(controls, symbol) == controls[i]
    ensures (forall c :: c in controls ==> c.symbol != symbol) ==> LastControl(controls, symbol) == Control(symbol, false, false)
  {
    hide LastControl;
    if |controls| == 0 {
      UnsetControl(controls, symbol);
    } else {
      var front, last := controls[..|controls| - 1], controls[|controls| - 1];
      assert controls == front + [last];
      LatestControlDecides(front, symbol);
      LastControlAppend(front, last, symbol);
      forall i | Standing(controls, symbol, i) ensures LastControl(controls, symbol) == controls[i] {
        if i < |front| { assert Standing(front, symbol, i); }
      }
    }
  }

  /** The revision under which commands of the symbol are taken: the highest applied, at first revision 1. */
  ghost predicate Current(j: Journal, symbol: string, version: int) {
    && (forall c :: c in j.configs && c.symbol == symbol ==> c.version <= version)
    && if exists c :: c in j.configs && c.symbol == symbol
       then exists c :: c in j.configs && c.symbol == symbol && c.version == version
       else version == 1
  }

  lemma AppliedIsCurrent(j: Journal, symbol: string, version: int)
    requires Chained(j)
    ensures AppliedVersion(j.configs, symbol) == version <==> Current(j, symbol, version)
  {
    hide AppliedVersion;
    AppliedIsHighest(j.configs, symbol);
  }

  /* ----- what an order's evidence says ----- */

  /** Two observations of one order that cannot both stand: of one version with different remainders, or one of
      shares left after a cancellation that left none. */
  ghost predicate TwoStories(a: Fact, b: Fact, oid: Id) {
    && Observes(a, oid) && Observes(b, oid)
    && ((a.version == b.version && a.remaining != b.remaining)
        || (a.Cancelled? && a.remaining == 0 && b.version > a.version && b.remaining > 0))
  }

  /** What an observation adds to its order; executions and cancellations take away. */
  function ChangedBy(oid: Id): Fact -> int {
    (f: Fact) => if !Observes(f, oid) then 0 else if f.Amended? then f.qtyDelta else 0 - f.qty
  }

  /** What is left by the quantities: ordered and amended, less executed and cancelled. */
  function LeftOver(facts: seq<Fact>, r: Request): int
    requires r.command.New?
  {
    r.command.qty + Total(ChangedBy(r.orderId), facts)
  }

  /** What is left by the broker's word: nothing after a cancellation that left none, else what the observation
      of highest version says, else, once the broker took it, all of it. */
  ghost predicate SaidLeft(facts: seq<Fact>, r: Request, n: int)
    requires r.command.New?
  {
    if exists c :: c in facts && c.Cancelled? && c.orderId == r.orderId && c.remaining == 0 then n == 0
    else if exists f :: f in facts && Observes(f, r.orderId) then
      |Observations(facts, r.orderId)| > 0 && n == Latest(Observations(facts, r.orderId)).remaining
    else (exists f :: f in facts && About(f, r) && Weight(f) == 4) && n == r.command.qty
  }

  /** The order's evidence contradicts itself. */
  ghost predicate Contradicted(facts: seq<Fact>, r: Request)
    requires r.command.New?
  {
    || Clashing(facts, r)
    || (exists a, b :: a in facts && b in facts && TwoStories(a, b, r.orderId))
    || LeftOver(facts, r) < 0
    || (!Void(Status(facts, r)) && exists n :: SaidLeft(facts, r, n) && n != LeftOver(facts, r))
  }

  lemma {:induction false} OneSum(facts: seq<Fact>, oid: Id)
    ensures Total(ChangedBy(oid), facts)
         == Total(AmendedBy(oid), facts) - Total(FilledBy(oid), facts) - Total(CancelledBy(oid), facts)
  {
    if |facts| > 0 { OneSum(facts[..|facts| - 1], oid); }
  }

  lemma StoriesMean(facts: seq<Fact>, oid: Id)
    ensures Tied(facts, oid) || Revived(facts, oid) <==> exists a, b :: a in facts && b in facts && TwoStories(a, b, oid)
  {
    if Tied(facts, oid) {
      var a, b :| a in facts && b in facts && Observes(a, oid) && Observes(b, oid) && a.version == b.version && a.remaining != b.remaining;
      assert TwoStories(a, b, oid);
    }
    if Revived(facts, oid) {
      var c, o :| c in facts && o in facts && CancelOf(oid)(c) && Observes(o, oid)
                   && c.remaining == 0 && o.version > c.version && o.remaining > 0;
      assert TwoStories(c, o, oid);
    }
  }

  /** The projection of an order: active is what the broker said is left, nothing of a void one; a sell that is
      not void reserves what the quantities leave; review is asked for exactly on a contradiction. */
  lemma OrderMeans(facts: seq<Fact>, r: Request)
    requires r.command.New?
    ensures var v, void := View(facts, r), Void(Status(facts, r));
            && (forall n :: v.active == Some(n) <==> if void then n == 0 else SaidLeft(facts, r, n))
            && v.reserved == (if r.command.side.Sell? && !void && LeftOver(facts, r) > 0 then LeftOver(facts, r) else 0)
            && v.filled == Total((f: Fact) => if f.Fill? && f.orderId == r.orderId then f.qty else 0, facts)
            && (v.reconciliationRequired <==> Contradicted(facts, r))
  {
    hide Observations, Latest, Tied, Revived, Total, Select, Status, Clashing;
    OneSum(facts, r.orderId);
    StoriesMean(facts, r.orderId);
    ConflictIsClash(facts, r);
    OrderFlags(facts, r);
    TotalEq(FilledBy(r.orderId), (f: Fact) => if f.Fill? && f.orderId == r.orderId then f.qty else 0, facts);
    HasMember(Observations(facts, r.orderId));
    TransportIsHeaviest(facts, r);
    AckedIsFour(facts, r);
  }

  lemma AckedIsFour(facts: seq<Fact>, r: Request)
    ensures Status(facts, r).transport.Acked? <==> exists f :: f in facts && About(f, r) && Weight(f) == 4
  {
    hide Status;
    TransportIsHeaviest(facts, r);
  }

  /** Every discrepancy of the symbol is closed, every quarantined execution of it released. */
  ghost predicate Explained(facts: seq<Fact>, symbol: string) {
    && (forall d :: d in facts && d.Discrepancy? && d.symbol == symbol ==>
          exists g :: g in facts && g.Reconciled? && g.symbol == symbol && g.discrepancyId == d.eventId)
    && forall q :: q in facts && q.QuarantinedFill? && q.symbol == symbol ==>
         exists g :: g in facts && g.QuarantineReleased? && g.quarantineId == q.eventId
  }

  /** A symbol is calm when everything about it is explained, no evidence about its requests contradicts itself,
      and no sell of it is pending. */
  lemma CalmMeans(j: Journal, symbol: string)
    requires WellFormed(j)
    ensures Calm(j, symbol)
       <==> && Explained(j.facts, symbol)
            && forall r :: r in j.requests && r.command.symbol == symbol ==>
                 && !Clashing(j.facts, r) && !SellPending(j.facts, r) && (r.command.New? ==> !Contradicted(j.facts, r))
  {
    hide WellFormed, SellPending, Clashing, Contradicted, View, Status;
    UnexplainedMeans(j.facts, symbol);
    forall r | r in j.requests
      ensures Alarms(j, r) <==> Clashing(j.facts, r) || (r.command.New? && Contradicted(j.facts, r))
    {
      Lookup(j, r);
      ConflictIsClash(j.facts, r);
      if r.command.New? { OrderMeans(j.facts, r); }
    }
  }

  lemma UnexplainedMeans(facts: seq<Fact>, symbol: string)
    ensures Unexplained(facts, symbol) <==> !Explained(facts, symbol)
  {
  }

  /** The stages of an order: rejected or cancelled by the broker's word; filled when nothing is left and all that
      was ordered and amended was executed; else executed in part, answered, or not heard of. */
  lemma LifecycleMeans(facts: seq<Fact>, r: Request)
    requires r.command.New?
    ensures var v := View(facts, r);
            var rejected := exists f :: f in facts && About(f, r) && f.Rejected?;
            var cancelled := exists f :: f in facts && f.Cancelled? && f.orderId == r.orderId && f.remaining == 0;
            var filled := v.active == Some(0) && v.filled == r.command.qty + v.delta && v.cancelled == 0;
            && (v.Lifecycle() == "REJECTED" <==> rejected)
            && (v.Lifecycle() == "CANCELLED" <==> !rejected && cancelled)
            && (v.Lifecycle() == "FILLED" <==> !rejected && !cancelled && filled)
            && (v.Lifecycle() == "PARTIALLY_FILLED" <==> !rejected && !cancelled && !filled && v.filled > 0)
            && (v.Lifecycle() == "OPEN"
                <==> !rejected && !cancelled && !filled && v.filled <= 0 && exists f :: f in facts && About(f, r) && Weight(f) == 4)
            && v.delta == Total(AmendedBy(r.orderId), facts) && v.cancelled == Total(CancelledBy(r.orderId), facts)
  {
    hide Observations, Latest, Tied, Revived, Total, Select, Exposure, Status, CancelledToZero;
    OrderFlags(facts, r);
    assert "REJECTED"[0] != "CANCELLED"[0] && "FILLED"[0] != "PARTIALLY_FILLED"[0] && |"OPEN"| != |"PENDING"|;
  }
}
