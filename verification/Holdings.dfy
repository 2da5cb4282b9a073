/** Managed and reserved shares, counted execution by execution and order by order. */
module Holdings {
  import opened Basics
  import opened Models
  import opened Outcomes
  import opened Projection
  import opened Steps
  import opened Meaning
  import opened StopFires

  ghost predicate OfOrder(j: Journal, symbol: string, side: Side, f: Fact) {
    f.Fill? && exists r :: r in j.requests && r.command.New? && r.command.symbol == symbol && r.command.side == side && r.orderId == f.orderId
  }

  /** Executed buys add their shares, executed sells take theirs. */
  ghost function MovedBy(j: Journal, symbol: string): Fact -> int {
    (f: Fact) => if OfOrder(j, symbol, Buy, f) then f.qty else if OfOrder(j, symbol, Sell, f) then 0 - f.qty else 0
  }

  function SignedIn(facts: seq<Fact>, symbol: string): Request -> int {
    (r: Request) =>
      if r.command.New? && r.command.symbol == symbol
      then (if r.command.side.Buy? then Total(FilledBy(r.orderId), facts) else -Total(FilledBy(r.orderId), facts)) else 0
  }

  lemma SignedAppend(facts: seq<Fact>, f: Fact, symbol: string, r: Request)
    ensures SignedIn(facts + [f], symbol)(r)
         == SignedIn(facts, symbol)(r)
            + if r.command.New? && r.command.symbol == symbol && f.Fill? && f.orderId == r.orderId
              then (if r.command.side.Buy? then f.qty else -(f.qty as int)) else 0
  {
    hide Total;
    TotalAppend(FilledBy(r.orderId), facts, f);
  }

  lemma MoveCounted(j: Journal, symbol: string, facts: seq<Fact>, f: Fact)
    requires DistinctRequests(j) && AllPlaced(j)
    ensures Total(SignedIn(facts + [f], symbol), j.requests) == Total(SignedIn(facts, symbol), j.requests) + MovedBy(j, symbol)(f)
  {
    hide Total, SignedIn, AllPlaced;
    var w, v := SignedIn(facts, symbol), SignedIn(facts + [f], symbol);
    if OfOrder(j, symbol, Buy, f) || OfOrder(j, symbol, Sell, f) {
      var r :| r in j.requests && r.command.New? && r.command.symbol == symbol && r.orderId == f.orderId;
      var i :| 0 <= i < |j.requests| && j.requests[i] == r;
      forall k | 0 <= k < |j.requests| && k != i ensures v(j.requests[k]) == w(j.requests[k]) {
        if j.requests[k].command.New? && j.requests[k].orderId == f.orderId { OneOpener(j, r, j.requests[k]); }
        SignedAppend(facts, f, symbol, j.requests[k]);
      }
      SignedAppend(facts, f, symbol, r);
      TotalFlip(w, v, j.requests, i);
      OneSide(j, symbol, f, r);
    } else {
      forall r | r in j.requests ensures v(r) == w(r) {
        SignedAppend(facts, f, symbol, r);
        assert r.command.New? && r.command.symbol == symbol && f.Fill? && r.orderId == f.orderId ==> OfOrder(j, symbol, r.command.side, f);
      }
      TotalEq(v, w, j.requests);
    }
  }

  lemma OneSide(j: Journal, symbol: string, f: Fact, r: Request)
    requires AllPlaced(j) && f.Fill? && r in j.requests && r.command.New? && r.command.symbol == symbol && r.orderId == f.orderId
    ensures OfOrder(j, symbol, Buy, f) <==> r.command.side.Buy?
    ensures OfOrder(j, symbol, Sell, f) <==> r.command.side.Sell?
  {
    hide AllPlaced;
    forall x | x in j.requests && x.command.New? && x.orderId == f.orderId ensures x == r { OneOpener(j, r, x); }
  }

  lemma {:induction false} MovesCounted(j: Journal, symbol: string, facts: seq<Fact>)
    requires DistinctRequests(j) && AllPlaced(j)
    ensures Total(SignedIn(facts, symbol), j.requests) == Total(MovedBy(j, symbol), facts)
  {
    hide AllPlaced, DistinctRequests, MovedBy;
    if |facts| == 0 {
      NoMoves(symbol, facts, j.requests);
    } else {
      var n := |facts| - 1;
      MovesCounted(j, symbol, facts[..n]);
      MoveCounted(j, symbol, facts[..n], facts[n]);
      assert facts == facts[..n] + [facts[n]];
    }
  }

  lemma NoMoves(symbol: string, facts: seq<Fact>, requests: seq<Request>)
    requires |facts| == 0
    ensures Total(SignedIn(facts, symbol), requests) == 0
  {
    TotalZero(SignedIn(facts, symbol), requests);
  }

  /** The managed shares of a symbol are those it started with, and every executed buy, less every executed
      sell, each counted once. */
  lemma ManagedCounts(j: Journal, symbol: string)
    requires WellFormed(j)
    ensures Managed(j, symbol) == Total(AllocatedTo(symbol), j.allocations) + Total(MovedBy(j, symbol), j.facts)
  {
    hide WellFormed, ManagedBy, SignedIn, MovedBy, Total;
    Distinct(j);
    forall r | r in j.requests ensures ManagedBy(j, symbol)(r) == SignedIn(j.facts, symbol)(r) { SignedIsManaged(j, symbol, r); }
    TotalEq(ManagedBy(j, symbol), SignedIn(j.facts, symbol), j.requests);
    MovesCounted(j, symbol, j.facts);
  }

  lemma SignedIsManaged(j: Journal, symbol: string, r: Request)
    requires WellFormed(j) && r in j.requests
    ensures ManagedBy(j, symbol)(r) == SignedIn(j.facts, symbol)(r)
  {
    hide WellFormed, Status, Observations, Latest, Tied, Revived, CancelledToZero, Initial, Select, Total, Exposure;
    Lookup(j, r);
  }

  /** What a sell of the symbol may still take: nothing when void, else what its quantities leave. */
  ghost function HeldBack(facts: seq<Fact>, symbol: string): Request -> int {
    (r: Request) =>
      if r.command.New? && r.command.symbol == symbol && r.command.side.Sell? && !Void(Status(facts, r)) && LeftOver(facts, r) > 0
      then LeftOver(facts, r) else 0
  }

  /** The reserved shares of a symbol are what its sells may still take. */
  lemma ReservedCounts(j: Journal, symbol: string)
    requires WellFormed(j)
    ensures Reserved(j, symbol) == Total(HeldBack(j.facts, symbol), j.requests)
  {
    hide WellFormed, View, Status, Total, LeftOver, Contradicted;
    forall r | r in j.requests ensures ReservedBy(j, symbol)(r) == HeldBack(j.facts, symbol)(r) {
      Lookup(j, r);
      if r.command.New? { OrderMeans(j.facts, r); }
    }
    TotalEq(ReservedBy(j, symbol), HeldBack(j.facts, symbol), j.requests);
  }
}
