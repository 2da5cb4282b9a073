/** Progress of durable stop sells, one view per protected slice (execution/stop_obligations.py). */
module StopObligations {
  import opened Basics
  import opened Models
  import opened Outcomes
  import opened Projection
  import opened Validation
  import opened Steps

  datatype Progress = Fulfilled | BlockedEvidence | ReviewRequired | Pending

  datatype ObligationView = ObligationView(
    requestId: Id, orderId: Id, initialQty: int, filledQty: int, unfilledQty: int, reservedQty: int,
    state: Progress, failureReason: Option<string>)

  function ObligedTo(rid: Id): StopObligation -> bool { (o: StopObligation) => o.requestId == rid }

  function CountFor(obligations: seq<StopObligation>, rid: Id): nat { |Select(ObligedTo(rid), obligations)| }

  function Nothing(rid: Id, oid: Id, qty: int): ObligationView {
    ObligationView(rid, oid, qty, 0, qty, 0, BlockedEvidence, None)
  }

  /** The obligation, its request, its order and its latch tell the same story. */
  predicate Consistent(j: Journal, symbol: string, o: StopObligation, r: Request, snapshot: Order)
    requires r.command.New?
  {
    && r.orderId == o.orderId
    && CountFor(j.obligations, o.requestId) == 1
    && r.command.symbol == symbol
    && r.command.side.Sell?
    && r.command.qty == o.qty
    && r.command.stopLatchVersion == Some(o.ruleVersion)
    && (exists l :: l in j.latches && l.symbol == symbol && l.ruleVersion == o.ruleVersion)
    && snapshot.original == o.qty
    && snapshot.filled <= o.qty
  }

  function Progression(p: Portfolio, consistent: bool, snapshot: Order, outcome: RequestStatus, qty: int): Progress {
    if !consistent || snapshot.reconciliationRequired || outcome.conflict
       || p.reconciliationRequired || p.sellUncertain then BlockedEvidence
    else if snapshot.filled == qty then Fulfilled
    else if snapshot.rejected || snapshot.submissionFailed || snapshot.terminalCancel then ReviewRequired
    else if outcome.transport in {Observed(UNKNOWN), Observed(RECONCILING)} then BlockedEvidence
    else Pending
  }

  function NegativeFor(rid: Id): Fact -> bool {
    (f: Fact) => (f.Rejected? || f.SendFailed?) && f.requestId == rid
  }

  function LastReason(facts: seq<Fact>, rid: Id): Option<string> {
    SelectMember(NegativeFor(rid), facts);
    var negative := Select(NegativeFor(rid), facts);
    if |negative| == 0 then None
    else
      assert negative[|negative| - 1] in negative;
      Some(negative[|negative| - 1].reason)
  }

  function ViewOf(j: Journal, symbol: string, o: StopObligation): ObligationView {
    match First(Names(o.requestId), j.requests)
    case None => Nothing(o.requestId, o.orderId, o.qty)
    case Some(r) =>
      if !r.command.New? || OrderOf(j, o.orderId).Err? then Nothing(o.requestId, o.orderId, o.qty)
      else
        var snapshot := OrderOf(j, o.orderId).value;
        var state := Progression(PortfolioOf(j, symbol), Consistent(j, symbol, o, r, snapshot), snapshot,
                                 Status(j.facts, r), o.qty);
        ObligationView(o.requestId, o.orderId, o.qty, snapshot.filled, NonNegative(o.qty - snapshot.filled),
                       snapshot.reserved, state, if state.ReviewRequired? then LastReason(j.facts, o.requestId) else None)
  }

  /** A stop sell without its obligation record is shown as blocked, not as absent protection. */
  function IsUnpaired(obligations: seq<StopObligation>, symbol: string): Request -> bool {
    (r: Request) => r.command.New? && r.command.symbol == symbol && r.command.stopLatchVersion.Some?
                    && CountFor(obligations, r.requestId) == 0
  }

  function ViewsFrom(j: Journal, symbol: string, obligations: seq<StopObligation>): seq<ObligationView> {
    if |obligations| == 0 then []
    else
      var o := obligations[|obligations| - 1];
      ViewsFrom(j, symbol, obligations[..|obligations| - 1])
      + if o.symbol == symbol then [ViewOf(j, symbol, o)] else []
  }

  function UnpairedFrom(j: Journal, symbol: string, requests: seq<Request>): seq<ObligationView> {
    if |requests| == 0 then []
    else
      var r := requests[|requests| - 1];
      UnpairedFrom(j, symbol, requests[..|requests| - 1])
      + if IsUnpaired(j.obligations, symbol)(r) then [Nothing(r.requestId, r.orderId, r.command.qty)] else []
  }

  function Views(j: Journal, symbol: string): seq<ObligationView> {
    ViewsFrom(j, symbol, j.obligations) + UnpairedFrom(j, symbol, j.requests)
  }

  /** The two passes that count the obligation records and then project them. */
  method ComputeViews(j: Journal, symbol: string) returns (views: seq<ObligationView>)
    ensures views == Views(j, symbol)
  {
    hide ViewOf, Nothing, CountFor;
    views := [];
    var i := 0;
    while i < |j.obligations|
      invariant 0 <= i <= |j.obligations|
      invariant views == ViewsFrom(j, symbol, j.obligations[..i])
    {
      var o := j.obligations[i];
      assert j.obligations[..i + 1][..i] == j.obligations[..i];
      if o.symbol == symbol { views := views + [ViewOf(j, symbol, o)]; }
      i := i + 1;
    }
    assert j.obligations[..i] == j.obligations;
    var unpaired := [];
    i := 0;
    while i < |j.requests|
      invariant 0 <= i <= |j.requests|
      invariant unpaired == UnpairedFrom(j, symbol, j.requests[..i])
    {
      var r := j.requests[i];
      assert j.requests[..i + 1][..i] == j.requests[..i];
      if IsUnpaired(j.obligations, symbol)(r) {
        unpaired := unpaired + [Nothing(r.requestId, r.orderId, r.command.qty)];
      }
      i := i + 1;
    }
    assert j.requests[..i] == j.requests;
    views := views + unpaired;
  }

  /* ----- pairing ----- */

  function AllObligations(requests: seq<Request>): seq<StopObligation> {
    if |requests| == 0 then []
    else AllObligations(requests[..|requests| - 1]) + ObligationsOf(requests[|requests| - 1])
  }

  ghost predicate HasLatch(j: Journal, o: StopObligation) {
    exists l :: l in j.latches && l.symbol == o.symbol && l.ruleVersion == o.ruleVersion
  }

  /** Obligation records are exactly the stop sells, in order and one each, and every one was
      raised by a latch of its symbol and rule. */
  ghost predicate Paired(j: Journal) {
    && j.obligations == AllObligations(j.requests)
    && forall o :: o in j.obligations ==> HasLatch(j, o)
  }

  lemma PairedKept(j: Journal, s: Step)
    requires Paired(j) && Allowed(j, s)
    ensures Paired(Commit(j, s))
  {
    hide CheckCommand, CheckFact, AppliedVersion;
    var k := Commit(j, s);
    if s.AddRequest? {
      assert k.requests[..|j.requests|] == j.requests;
    }
    forall o | o in k.obligations ensures HasLatch(k, o) {
      if o !in j.obligations {
        var c := s.request.command;
        var l :| l in j.latches && l.symbol == c.symbol && l.ruleVersion == c.stopLatchVersion.value;
        assert l in k.latches;
      } else {
        var l :| l in j.latches && l.symbol == o.symbol && l.ruleVersion == o.ruleVersion;
        assert l in k.latches;
      }
    }
  }

  /** How many obligations a request of distinct identity accounts for. */
  lemma {:induction false} ObligationsPerRequest(requests: seq<Request>, r: Request)
    requires forall i, k :: 0 <= i < k < |requests| ==> requests[i].requestId != requests[k].requestId
    requires r in requests || forall x :: x in requests ==> x.requestId != r.requestId
    ensures Select(ObligedTo(r.requestId), AllObligations(requests)) == if r in requests then ObligationsOf(r) else []
  {
    if |requests| > 0 {
      var n := |requests| - 1;
      var front, last := requests[..n], requests[n];
      assert requests == front + [last];
      var o := ObligationsOf(last);
      if last == r {
        assert forall x :: x in front ==> x.requestId != r.requestId;
      }
      ObligationsPerRequest(front, r);
      if |o| == 1 {
        SelectAppend(ObligedTo(r.requestId), AllObligations(front), o[0]);
        assert AllObligations(requests) == AllObligations(front) + [o[0]];
      } else {
        assert AllObligations(requests) == AllObligations(front);
      }
    }
  }

  lemma {:induction false} ObligationOrigin(requests: seq<Request>, o: StopObligation)
    requires o in AllObligations(requests)
    ensures exists r :: r in requests && ObligationsOf(r) == [o]
  {
    var n := |requests| - 1;
    if o in AllObligations(requests[..n]) {
      ObligationOrigin(requests[..n], o);
    } else {
      assert o in ObligationsOf(requests[n]);
    }
  }

  lemma {:induction false} NoUnpaired(j: Journal, symbol: string, requests: seq<Request>)
    requires forall r :: r in requests ==> !IsUnpaired(j.obligations, symbol)(r)
    ensures UnpairedFrom(j, symbol, requests) == []
  {
    if |requests| > 0 {
      assert requests[|requests| - 1] in requests;
      NoUnpaired(j, symbol, requests[..|requests| - 1]);
    }
  }

  /** In a paired journal no stop sell lacks its record: the blocked placeholder never appears. */
  lemma NothingUnpaired(j: Journal, symbol: string)
    requires DistinctRequests(j) && Paired(j)
    ensures UnpairedFrom(j, symbol, j.requests) == []
  {
    forall r | r in j.requests ensures !IsUnpaired(j.obligations, symbol)(r) {
      ObligationsPerRequest(j.requests, r);
    }
    NoUnpaired(j, symbol, j.requests);
  }

  /** An obligation is read against its own request and order, and the only way for the records
      to disagree is that more was filled than the slice holds. */
  lemma OnlyOverfillIsInconsistent(j: Journal, o: StopObligation)
    requires WellFormed(j) && Paired(j) && o in j.obligations
    ensures exists r :: r in j.requests && ObligationsOf(r) == [o]
    ensures forall r :: r in j.requests && ObligationsOf(r) == [o] ==>
              && First(Names(o.requestId), j.requests) == Some(r)
              && OrderOf(j, o.orderId) == Ok(View(j.facts, r))
              && (Consistent(j, o.symbol, o, r, View(j.facts, r)) <==> View(j.facts, r).filled <= o.qty)
  {
    hide AllPlaced, AllCorrelated, DistinctEvents, AllObligations, Status, Observations, Tied, Revived;
    ObligationOrigin(j.requests, o);
    forall r | r in j.requests && ObligationsOf(r) == [o]
      ensures First(Names(o.requestId), j.requests) == Some(r)
      ensures OrderOf(j, o.orderId) == Ok(View(j.facts, r))
      ensures Consistent(j, o.symbol, o, r, View(j.facts, r)) <==> View(j.facts, r).filled <= o.qty
    {
      Lookup(j, r);
      ObligationsPerRequest(j.requests, r);
      assert HasLatch(j, o);
    }
  }
}
