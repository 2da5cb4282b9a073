/** The journal as a transition system: every transaction of the ledger commits some of these
    steps, each under the guard that its writer checked. */
module Steps {
  import opened Basics
  import opened Models
  import opened Settings
  import opened Outcomes
  import opened Projection
  import opened Validation
  import opened StopEvaluation

  const STOP_PREFIX: string := "virtual-stop:"

  datatype Step =
    | AddRequest(request: Request)
    | AddFact(fact: Fact, given: seq<StopAssignment>)
    | AddAllocation(allocation: Allocation)
    | AddControl(control: Control)
    | AddConfig(config: AppliedConfig, bound: seq<StopBinding>)
    | AddLatch(latch: StopLatch)
    | MoveCursor(symbol: string, checkpoint: QuoteCheckpoint)

  /** The protected slice recorded together with a stop sell. */
  function ObligationsOf(r: Request): seq<StopObligation> {
    if r.command.New? && r.command.stopLatchVersion.Some? then
      [StopObligation(r.requestId, r.orderId, r.command.symbol, r.command.qty, r.command.stopLatchVersion.value)]
    else []
  }

  function Commit(j: Journal, s: Step): (k: Journal)
    ensures Grows(j, k)
  {
    match s
    case AddRequest(r) => j.(requests := j.requests + [r], obligations := j.obligations + ObligationsOf(r))
    case AddFact(f, given) => j.(facts := j.facts + [f], assignments := j.assignments + given)
    case AddAllocation(a) => j.(allocations := j.allocations + [a])
    case AddControl(c) => j.(controls := j.controls + [c])
    case AddConfig(c, bound) => j.(configs := j.configs + [c], bindings := j.bindings + bound)
    case AddLatch(l) => j.(latches := j.latches + [l])
    case MoveCursor(symbol, c) => j.(quotes := j.quotes[symbol := c])
  }

  predicate Latched(j: Journal, symbol: string) {
    exists l :: l in j.latches && l.symbol == symbol
  }

  /** A command tagged as a stop sell names a latch of its symbol, and only such a command is tagged. */
  function CheckStopLink(j: Journal, c: Command): Result<()> {
    if !c.New? then Ok(())
    else if STOP_PREFIX <= c.key && c.stopLatchVersion.None? then Err("STOP_LATCH_LINK_REQUIRED")
    else if c.stopLatchVersion.None? then Ok(())
    else if !(STOP_PREFIX <= c.key) then Err("STOP_LATCH_KEY_REQUIRED")
    else if !exists l :: l in j.latches && l.symbol == c.symbol && l.ruleVersion == c.stopLatchVersion.value then
      Err("STOP_LATCH_LINK_NOT_FOUND")
    else Ok(())
  }

  /** The stop rule that a settings command binds to its revision. */
  function BindingFor(c: ConfigCommand): StopBinding {
    StopBinding(c.settings.symbol, c.settings.version, c.settings.kind, c.settings.threshold)
  }

  function DecisionFor(c: Command): Decision {
    if c.Amend? && c.qtyDelta > 0 then RejectedUnsupported else Accepted
  }

  /** An identifier from uuid4 has not been used before. */
  ghost predicate NewRequestId(j: Journal, rid: Id) { forall r :: r in j.requests ==> r.requestId != rid }
  ghost predicate NewOrderId(j: Journal, oid: Id) { forall r :: r in j.requests ==> r.orderId != oid }
  ghost predicate NewEventId(j: Journal, eid: Id) { forall f :: f in j.facts ==> f.eventId != eid }

  ghost predicate Admissible(j: Journal, r: Request) {
    && NewRequestId(j, r.requestId)
    && (if r.command.New? then NewOrderId(j, r.orderId) else r.orderId == r.command.target)
    && (forall x :: x in j.requests ==> x.command.key != r.command.key)
    && r.decision == DecisionFor(r.command)
    && !(r.command.New? && r.command.side.Buy? && Latched(j, r.command.symbol))
    && CheckStopLink(j, r.command).Ok?
    && CheckCommand(j, r.command).Ok?
  }

  /** The assignment a buy fill may carry: the rule bound to its order's own revision. */
  ghost predicate Assigns(j: Journal, f: Fact, given: seq<StopAssignment>) {
    |given| == 0 ||
    (&& f.Fill? && |given| == 1
     && exists r, b :: && r in j.requests && r.command.New? && r.command.side.Buy? && r.orderId == f.orderId
                       && b in j.bindings && b.symbol == r.command.symbol && b.version == r.command.configVersion
                       && given == [StopAssignment(f.eventId, r.command.symbol, f.qty, b.version)])
  }

  /** The latch carries the rule's identity. */
  ghost predicate Carries(l: StopLatch, b: StopBinding) {
    b.symbol == l.symbol && b.version == l.ruleVersion && b.kind == l.kind
  }

  /** The retained quote is at or below what the rule allows: its price, or the confirmed average cost of
      the shares it protects, less the agreed drop. */
  ghost predicate Meets(j: Journal, l: StopLatch, b: StopBinding) {
    && Carries(l, b)
    && (b.kind.PriceAtOrBelow? ==> l.quotePrice <= b.threshold)
    && (b.kind.AverageCostDrop? ==>
          var basis := ConfirmedCostBasis(j, l.symbol);
          && basis.Some? && basis.value.averageCost.Some? && basis.value.ruleVersion == b.version
          && l.quotePrice <= basis.value.averageCost.value * (1.0 - b.threshold))
  }

  ghost predicate MeetsRule(j: Journal, l: StopLatch) { exists b :: b in j.bindings && Meets(j, l, b) }

  ghost predicate Allowed(j: Journal, s: Step) {
    match s
    case AddRequest(r) => Admissible(j, r)
    case AddFact(f, given) => NewEventId(j, f.eventId) && CheckFact(j, f).Ok? && Assigns(j, f, given)
    case AddAllocation(a) =>
      && (forall x :: x in j.allocations ==> x.symbol != a.symbol)
      && (forall r :: r in j.requests ==> r.command.symbol != a.symbol)
    case AddControl(c) => true
    case AddConfig(c, bound) =>
      && (AppliedVersion(j.configs, c.symbol) < c.version || forall x :: x in j.configs ==> x.symbol != c.symbol)
      && (c.proof.Some? ==> forall x :: x in j.configs && x.proof.Some? ==> x.proof.value.0 != c.proof.value.0)
      && (c.proof.Some? ==> c.Proves(c.proof.value.1.of) && bound == [BindingFor(c.proof.value.1.of)])
      && (|bound| == 0 || (|bound| == 1 && bound[0].symbol == c.symbol && bound[0].version == c.version))
    case AddLatch(l) => !Latched(j, l.symbol) && MeetsRule(j, l)
    case MoveCursor(symbol, c) =>
      symbol in j.quotes ==>
        j.quotes[symbol].receivedAt < c.receivedAt && j.quotes[symbol].evaluatedAt <= c.evaluatedAt
  }

  /* ----- well-formed journals ----- */

  ghost predicate DistinctRequests(j: Journal) {
    forall i, k :: 0 <= i < k < |j.requests| ==>
      j.requests[i].requestId != j.requests[k].requestId && j.requests[i].command.key != j.requests[k].command.key
  }

  ghost predicate DistinctEvents(j: Journal) {
    forall i, k :: 0 <= i < k < |j.facts| ==> j.facts[i].eventId != j.facts[k].eventId
  }

  /** A new order has its own identifier; a change names an order of its own symbol and side. */
  ghost predicate Placed(j: Journal, r: Request) {
    && r.decision == DecisionFor(r.command)
    && (r.command.New? ==> forall x :: x in j.requests && x.command.New? && x.orderId == r.orderId ==> x == r)
    && (!r.command.New? ==>
          r.orderId == r.command.target && exists x :: x in j.requests && OpensFor(x, r))
  }

  ghost predicate OpensFor(x: Request, r: Request) {
    x.command.New? && x.orderId == r.orderId && x.command.symbol == r.command.symbol && x.command.side == r.command.side
  }

  ghost predicate AllPlaced(j: Journal) { forall r :: r in j.requests ==> Placed(j, r) }

  /** Evidence matches the accepted request, or the order, that it names. */
  ghost predicate Matches(f: Fact, r: Request)
    requires f.NamesRequest()
  {
    && r.requestId == f.requestId && r.decision.Accepted?
    && (f.Amended? ==> r.command.Amend? && r.orderId == f.orderId && r.command.qtyDelta == f.qtyDelta)
    && (f.Cancelled? ==> r.command.Cancel? && r.orderId == f.orderId && f.qty <= r.command.cancelQty)
    && (f.EffectRejected? ==> r.command.IsChange())
  }

  ghost predicate Correlated(j: Journal, f: Fact) {
    && (f.NamesRequest() ==> exists r :: r in j.requests && f.NamesRequest() && Matches(f, r))
    && (f.Fill? ==> exists r :: r in j.requests && r.command.New? && r.orderId == f.orderId)
  }

  ghost predicate AllCorrelated(j: Journal) { forall f :: f in j.facts ==> Correlated(j, f) }

  ghost predicate WellFormed(j: Journal) {
    DistinctRequests(j) && DistinctEvents(j) && AllPlaced(j) && AllCorrelated(j)
  }

  lemma DistinctKept(j: Journal, s: Step)
    requires DistinctRequests(j) && DistinctEvents(j) && Allowed(j, s)
    ensures DistinctRequests(Commit(j, s)) && DistinctEvents(Commit(j, s))
  {
    hide CheckCommand, CheckFact, CheckStopLink;
  }

  lemma SameRequest(j: Journal, r: Request, x: Request)
    requires DistinctRequests(j) && r in j.requests && x in j.requests
    requires r.requestId == x.requestId || r.command.key == x.command.key
    ensures r == x
  {
  }

  lemma SameEvent(j: Journal, f: Fact, g: Fact)
    requires DistinctEvents(j) && f in j.facts && g in j.facts && f.eventId == g.eventId
    ensures f == g
  {
  }

  lemma PlacedKept(j: Journal, s: Step)
    requires AllPlaced(j) && Allowed(j, s)
    ensures AllPlaced(Commit(j, s))
  {
    hide CheckFact, CheckStopLink, PortfolioOf, View, Status, AppliedVersion;
    var k := Commit(j, s);
    if s.AddRequest? {
      var r := s.request;
      assert forall x :: x in k.requests <==> x in j.requests || x == r;
      forall x | x in j.requests ensures Placed(k, x) {
        if !x.command.New? {
          var o :| o in j.requests && OpensFor(o, x);
          assert o in k.requests;
        }
      }
      if r.command.New? {
        assert Placed(k, r);
      } else {
        var t := First(Touches(r.command.target), j.requests).value;
        assert Placed(j, t);
        var o := if t.command.New? then t else var x :| x in j.requests && OpensFor(x, t); x;
        assert o in k.requests && OpensFor(o, r);
      }
    }
  }

  lemma CheckedFactCorrelates(j: Journal, f: Fact)
    requires CheckFact(j, f).Ok?
    ensures Correlated(j, f)
  {
    hide Status, PortfolioOf, View, LinkedFill;
    if f.Fill? {
      var r := Initial(j.requests, f.orderId).value;
      assert r in j.requests;
    } else if f.NamesRequest() {
      var r := AcceptedRequest(j, f.requestId).value;
      assert r in j.requests && Matches(f, r);
    }
  }

  lemma CorrelatedKept(j: Journal, s: Step)
    requires AllCorrelated(j) && Allowed(j, s)
    ensures AllCorrelated(Commit(j, s))
  {
    hide CheckFact, CheckStopLink, CheckCommand, AppliedVersion, Matches;
    var k := Commit(j, s);
    assert forall r :: r in j.requests ==> r in k.requests;
    forall f | f in k.facts ensures Correlated(k, f) {
      if f !in j.facts { CheckedFactCorrelates(j, f); }
      assert Correlated(j, f);
    }
  }

  lemma WellFormedKept(j: Journal, s: Step)
    requires WellFormed(j) && Allowed(j, s)
    ensures WellFormed(Commit(j, s))
  {
    hide Commit, Allowed, DistinctRequests, DistinctEvents, AllPlaced, AllCorrelated;
    DistinctKept(j, s);
    PlacedKept(j, s);
    CorrelatedKept(j, s);
  }

  /* ----- what well-formedness gives ----- */

  /** Looking an order or a request up finds the one that bears the identifier. */
  lemma Lookup(j: Journal, r: Request)
    requires WellFormed(j) && r in j.requests
    ensures First(Names(r.requestId), j.requests) == Some(r)
    ensures r.command.New? ==> Initial(j.requests, r.orderId) == Some(r)
  {
    hide AllCorrelated, DistinctEvents;
    assert Placed(j, r);
    forall x | x in j.requests && x.requestId == r.requestId ensures x == r { SameRequest(j, r, x); }
    FirstOnly(Names(r.requestId), j.requests, r);
    if r.command.New? { FirstOnly(Opens(r.orderId), j.requests, r); }
  }

  /** A request about to be journalled is untouched by evidence. */
  lemma UntouchedRequest(j: Journal, r: Request)
    requires WellFormed(j) && Admissible(j, r)
    ensures forall f :: f in j.facts ==> !Concerns(f, r)
    ensures r.command.New? ==> forall f :: f in j.facts ==> !Observes(f, r.orderId)
  {
    hide CheckCommand, CheckStopLink;
    forall f | f in j.facts
      ensures !Concerns(f, r) && (r.command.New? ==> !Observes(f, r.orderId))
    {
      assert Correlated(j, f);
    }
  }
}
