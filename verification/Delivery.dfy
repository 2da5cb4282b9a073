/** What the projection of an order says when the broker's own history of that order is
    delivered in part, in any order, among any other facts. */
module Delivery {
  import opened Basics
  import opened Models
  import opened Outcomes
  import opened Projection

  /** The quantity an observation takes off the order. */
  function Taken(f: Observation): int { if f.Amended? then -f.qtyDelta else f.qty }

  /** What the broker still holds before event i. */
  function Left(h: seq<Observation>, qty: int, i: nat): int
    requires i <= |h|
  {
    if i == 0 then qty else h[i - 1].remaining
  }

  /** Event i lowers what remains by its own quantity. */
  ghost predicate Lowers(h: seq<Observation>, qty: int, oid: Id, i: nat)
    requires i < |h|
  {
    Observes(h[i], oid) && 0 <= Taken(h[i]) && h[i].remaining == Left(h, qty, i) - Taken(h[i])
  }

  /** A broker history: increasing versions, each event lowering what remains by its own quantity. */
  ghost predicate Truthful(h: seq<Observation>, qty: int, oid: Id) {
    && (forall i :: 0 <= i < |h| ==> Lowers(h, qty, oid, i))
    && (forall i, k :: 0 <= i < k < |h| ==> h[i].version < h[k].version)
  }

  /** The facts hold a part of the history, each event at most once and in any order. */
  ghost predicate Delivers(facts: seq<Fact>, h: seq<Observation>, oid: Id) {
    && (forall f :: f in facts && Observes(f, oid) ==> f in h)
    && (forall i, k :: 0 <= i < k < |facts| && Observes(facts[i], oid) ==> facts[i] != facts[k])
  }

  /** The quantity of the first n events that have not been delivered. */
  function Missing(h: seq<Observation>, facts: seq<Fact>, n: nat): int
    requires n <= |h|
  {
    if n == 0 then 0
    else Missing(h, facts, n - 1) + if h[n - 1] in facts then 0 else Taken(h[n - 1])
  }

  function TakenFrom(oid: Id): Fact -> int { (f: Fact) => if Observes(f, oid) then Taken(f) else 0 }

  lemma {:induction false} TakenInParts(facts: seq<Fact>, oid: Id)
    ensures Total(TakenFrom(oid), facts)
         == Total(FilledBy(oid), facts) + Total(CancelledBy(oid), facts) - Total(AmendedBy(oid), facts)
  {
    if |facts| > 0 { TakenInParts(facts[..|facts| - 1], oid); }
  }

  lemma {:induction false} NothingDelivered(h: seq<Observation>, facts: seq<Fact>, qty: int, oid: Id, n: nat)
    requires Truthful(h, qty, oid) && n <= |h|
    requires forall i :: 0 <= i < n ==> h[i] !in facts
    ensures Missing(h, facts, n) == qty - Left(h, qty, n)
  {
    if n > 0 {
      assert Lowers(h, qty, oid, n - 1);
      NothingDelivered(h, facts, qty, oid, n - 1);
    }
  }

  /** One more delivered event is exactly one less missing quantity. */
  lemma {:induction false} MissingLess(h: seq<Observation>, rest: seq<Fact>, qty: int, oid: Id, k: nat, n: nat)
    requires Truthful(h, qty, oid) && k < |h| && n <= |h| && h[k] !in rest
    ensures Missing(h, rest + [h[k]], n) == Missing(h, rest, n) - if k < n then Taken(h[k]) else 0
  {
    if n > 0 {
      MissingLess(h, rest, qty, oid, k, n - 1);
      assert h[n - 1] == h[k] ==> n - 1 == k;
      assert h[n - 1] in rest + [h[k]] <==> h[n - 1] in rest || h[n - 1] == h[k];
    }
  }

  lemma {:induction false} MissingSame(h: seq<Observation>, rest: seq<Fact>, qty: int, oid: Id, f: Fact, n: nat)
    requires Truthful(h, qty, oid) && n <= |h| && !Observes(f, oid)
    ensures Missing(h, rest + [f], n) == Missing(h, rest, n)
  {
    if n > 0 {
      MissingSame(h, rest, qty, oid, f, n - 1);
      assert Lowers(h, qty, oid, n - 1);
      assert h[n - 1] in rest + [f] <==> h[n - 1] in rest || h[n - 1] == f;
    }
  }

  /** Delivered and missing quantities account for all the broker took. */
  lemma {:induction false} DeliveredPlusMissing(facts: seq<Fact>, h: seq<Observation>, qty: int, oid: Id)
    requires Truthful(h, qty, oid) && Delivers(facts, h, oid)
    ensures Total(TakenFrom(oid), facts) + Missing(h, facts, |h|) == qty - Left(h, qty, |h|)
  {
    if |facts| == 0 {
      NothingDelivered(h, facts, qty, oid, |h|);
    } else {
      var n := |facts| - 1;
      var rest, f := facts[..n], facts[n];
      assert facts == rest + [f];
      assert Delivers(rest, h, oid) by {
        forall g | g in rest && Observes(g, oid) ensures g in h { assert g in facts; }
      }
      DeliveredPlusMissing(rest, h, qty, oid);
      assert f in facts;
      if Observes(f, oid) {
        var k :| 0 <= k < |h| && h[k] == f;
        assert f !in rest by {
          forall i | 0 <= i < n ensures rest[i] != f { assert rest[i] == facts[i]; }
        }
        MissingLess(h, rest, qty, oid, k, |h|);
      } else {
        MissingSame(h, rest, qty, oid, f, |h|);
      }
    }
  }

  /** Events after the highest delivered one are all missing. */
  lemma {:induction false} MissingTail(h: seq<Observation>, facts: seq<Fact>, qty: int, oid: Id, m: nat, n: nat)
    requires Truthful(h, qty, oid) && m <= n <= |h|
    requires forall i :: m <= i < n ==> h[i] !in facts
    ensures Missing(h, facts, n) == Missing(h, facts, m) + Left(h, qty, m) - Left(h, qty, n)
  {
    if m < n {
      assert Lowers(h, qty, oid, n - 1);
      MissingTail(h, facts, qty, oid, m, n - 1);
    }
  }

  ghost predicate Misses(h: seq<Observation>, facts: seq<Fact>, n: nat)
    requires n <= |h|
  {
    exists i :: 0 <= i < n && h[i] !in facts && Taken(h[i]) > 0
  }

  lemma {:induction false} MissingPositive(h: seq<Observation>, facts: seq<Fact>, qty: int, oid: Id, n: nat)
    requires Truthful(h, qty, oid) && n <= |h|
    ensures 0 <= Missing(h, facts, n)
    ensures 0 < Missing(h, facts, n) <==> Misses(h, facts, n)
  {
    if n > 0 {
      MissingPositive(h, facts, qty, oid, n - 1);
      assert Lowers(h, qty, oid, n - 1);
      if Misses(h, facts, n - 1) {
        var i :| 0 <= i < n - 1 && h[i] !in facts && Taken(h[i]) > 0;
        assert 0 <= i < n && h[i] !in facts && Taken(h[i]) > 0;
      }
    }
  }

  lemma {:induction false} RemainingFalls(h: seq<Observation>, qty: int, oid: Id, i: nat, k: nat)
    requires Truthful(h, qty, oid) && i <= k < |h|
    ensures h[k].remaining <= h[i].remaining
  {
    if i < k {
      assert Lowers(h, qty, oid, k);
      RemainingFalls(h, qty, oid, i, k - 1);
    }
  }

  lemma NoContradiction(facts: seq<Fact>, h: seq<Observation>, qty: int, oid: Id)
    requires Truthful(h, qty, oid) && Delivers(facts, h, oid)
    ensures !Tied(facts, oid) && !Revived(facts, oid)
  {
    forall a, b | a in facts && b in facts && Observes(a, oid) && Observes(b, oid)
      ensures a.version == b.version ==> a == b
      ensures b.version > a.version ==> b.remaining <= a.remaining
    {
      var i :| 0 <= i < |h| && h[i] == a;
      var k :| 0 <= k < |h| && h[k] == b;
      if i <= k { RemainingFalls(h, qty, oid, i, k); }
    }
  }

  /** The highest delivered event is what the projection takes as active. */
  lemma LatestDelivered(facts: seq<Fact>, h: seq<Observation>, qty: int, oid: Id, m: nat)
    requires Truthful(h, qty, oid) && Delivers(facts, h, oid)
    requires m < |h| && h[m] in facts && forall i :: m < i < |h| ==> h[i] !in facts
    ensures |Observations(facts, oid)| > 0 && Latest(Observations(facts, oid)) == h[m]
    ensures CancelledToZero(facts, oid) ==> h[m].remaining == 0
  {
    hide Latest, Observations;
    var obs := Observations(facts, oid);
    assert Lowers(h, qty, oid, m);
    assert h[m] in obs;
    var l := Latest(obs);
    assert l in facts && Observes(l, oid);
    var k :| 0 <= k < |h| && h[k] == l;
    assert k == m;
    if CancelledToZero(facts, oid) {
      var c :| c in facts && CancelOf(oid)(c) && c.remaining == 0;
      assert Observes(c, oid);
      var i :| 0 <= i < |h| && h[i] == c;
      RemainingFalls(h, qty, oid, i, m);
    }
  }

  lemma ExposureIsUndelivered(facts: seq<Fact>, h: seq<Observation>, r: Request)
    requires r.command.New? && Truthful(h, r.command.qty, r.orderId) && Delivers(facts, h, r.orderId)
    ensures Exposure(facts, r) == Left(h, r.command.qty, |h|) + Missing(h, facts, |h|)
    ensures 0 <= Left(h, r.command.qty, |h|) <= Exposure(facts, r)
  {
    TakenInParts(facts, r.orderId);
    DeliveredPlusMissing(facts, h, r.command.qty, r.orderId);
    MissingPositive(h, facts, r.command.qty, r.orderId, |h|);
  }

  /** Some event of a truthful history has arrived, m being the highest.  Unless the order is void the
      projection is active at what the broker left after m and its gap is exactly the quantity of the
      missing events up to m; review is required precisely on a request conflict or when one of those
      events carries quantity.  A sell reserves what the broker truly has left plus everything missing. */
  lemma PartialDelivery(facts: seq<Fact>, r: Request, h: seq<Observation>, m: nat)
    requires r.command.New? && Truthful(h, r.command.qty, r.orderId) && Delivers(facts, h, r.orderId)
    requires m < |h| && h[m] in facts && forall i :: m < i < |h| ==> h[i] !in facts
    ensures var v, void := View(facts, r), Void(Status(facts, r));
            && v.active == Some(if void then 0 else h[m].remaining)
            && v.gap == (if void then None else Some(Missing(h, facts, m + 1)))
            && (v.reconciliationRequired <==> Status(facts, r).conflict || (!void && Misses(h, facts, m + 1)))
            && v.reserved == if r.command.side.Sell? && !void
                             then Left(h, r.command.qty, |h|) + Missing(h, facts, |h|) else 0
  {
    hide Status, Void, Latest, Tied, Revived, CancelledToZero, Total, Exposure, Select, Missing, Misses;
    var qty, oid := r.command.qty, r.orderId;
    NoContradiction(facts, h, qty, oid);
    LatestDelivered(facts, h, qty, oid, m);
    ExposureIsUndelivered(facts, h, r);
    MissingTail(h, facts, qty, oid, m + 1, |h|);
    MissingPositive(h, facts, qty, oid, m + 1);
  }

  /** Before any event arrives the whole quantity of an order that is not void stays exposed, and
      nothing but a request conflict is alarming. */
  lemma NoDelivery(facts: seq<Fact>, r: Request, h: seq<Observation>)
    requires r.command.New? && Truthful(h, r.command.qty, r.orderId) && Delivers(facts, h, r.orderId)
    requires forall f :: f in h ==> f !in facts
    ensures var v, void := View(facts, r), Void(Status(facts, r));
            && v.active == (if void then Some(0) else if v.acknowledged then Some(r.command.qty as int) else None)
            && (v.reconciliationRequired <==> Status(facts, r).conflict)
            && v.reserved == if r.command.side.Sell? && !void then r.command.qty else 0
  {
    hide Status, Latest, Tied, Revived, Total, Exposure, Select, Missing;
    NoContradiction(facts, h, r.command.qty, r.orderId);
    ExposureIsUndelivered(facts, h, r);
    NothingDelivered(h, facts, r.command.qty, r.orderId, |h|);
    var obs := Observations(facts, r.orderId);
    assert forall f :: f in obs ==> f in facts && f in h;
    HasMember(obs);
  }

  /** The reservation of a sell covers the broker's true remainder exactly when the order is not void or
      nothing remains, and equals it exactly when, besides, no event that carries quantity is missing. */
  lemma FullDelivery(facts: seq<Fact>, r: Request, h: seq<Observation>)
    requires r.command.New? && r.command.side.Sell?
    requires Truthful(h, r.command.qty, r.orderId) && Delivers(facts, h, r.orderId)
    ensures var v, void, left := View(facts, r), Void(Status(facts, r)), Left(h, r.command.qty, |h|);
            && (v.reserved >= left <==> !void || left == 0)
            && (v.reserved == left <==> if void then left == 0 else !Misses(h, facts, |h|))
  {
    hide Status, Void, Latest, Tied, Revived, CancelledToZero, Total, Exposure, Select, Missing, Misses;
    ExposureIsUndelivered(facts, h, r);
    MissingPositive(h, facts, r.command.qty, r.orderId, |h|);
  }

  /** With the whole history in, the lifecycle tells what the broker has left: an order that was not
      rejected reads FILLED exactly when nothing is left and nothing was cancelled, and CANCELLED
      exactly when a cancellation left nothing. */
  lemma LifecycleOfFullDelivery(facts: seq<Fact>, r: Request, h: seq<Observation>)
    requires r.command.New? && Truthful(h, r.command.qty, r.orderId) && Delivers(facts, h, r.orderId)
    requires |h| > 0 && forall f :: f in h ==> f in facts
    ensures var v, rejected := View(facts, r), Status(facts, r).rejected;
            && (v.Lifecycle() == "REJECTED" <==> rejected)
            && (v.Lifecycle() == "FILLED" <==> !rejected && Left(h, r.command.qty, |h|) == 0 && v.cancelled == 0)
            && (v.Lifecycle() == "CANCELLED" <==> !rejected && CancelledToZero(facts, r.orderId))
            && Left(h, r.command.qty, |h|) == r.command.qty + v.delta - v.filled - v.cancelled
  {
    hide Status, Latest, Tied, Revived, Total, Select, Misses, Observations, CancelledToZero;
    var m := |h| - 1;
    assert h[m] in h;
    PartialDelivery(facts, r, h, m);
    ExposureIsUndelivered(facts, h, r);
    NothingMissing(h, facts, |h|);
    if CancelledToZero(facts, r.orderId) { CancelsWereCounted(facts, r.orderId); }
  }

  lemma {:induction false} NothingMissing(h: seq<Observation>, facts: seq<Fact>, n: nat)
    requires n <= |h| && forall f :: f in h ==> f in facts
    ensures Missing(h, facts, n) == 0
  {
    if n > 0 { NothingMissing(h, facts, n - 1); }
  }

  /** A cancellation to zero is a cancelled quantity. */
  lemma CancelsWereCounted(facts: seq<Fact>, oid: Id)
    requires CancelledToZero(facts, oid)
    ensures Total(CancelledBy(oid), facts) > 0
  {
    var c :| c in facts && CancelOf(oid)(c) && c.remaining == 0;
    var i :| 0 <= i < |facts| && facts[i] == c;
    CancelCounts(facts, oid, i);
  }

  lemma {:induction false} CancelCounts(facts: seq<Fact>, oid: Id, i: nat)
    requires i < |facts| && CancelOf(oid)(facts[i])
    ensures Total(CancelledBy(oid), facts) > 0
  {
    var n := |facts| - 1;
    if i < n {
      CancelCounts(facts[..n], oid, i);
    } else {
      TotalNonNegative(CancelledBy(oid), facts[..n]);
    }
  }
}
