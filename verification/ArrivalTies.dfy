/** When exactly an order's projection depends on the order in which its facts arrived. */
module ArrivalTies {
  import opened Basics
  import opened Models
  import opened Outcomes
  import opened Projection
  import opened Arrival

  /** Observations are listed by kind. */
  function Kind(f: Fact): nat { if f.Fill? then 0 else if f.Cancelled? then 1 else 2 }

  ghost predicate Yields(g: Fact, f: Fact)
    requires g.IsObservation() && f.IsObservation()
  {
    g.version < f.version || (g.version == f.version && Kind(f) <= Kind(g))
  }

  /** An observation of the highest version and, at that version, of the first kind present. */
  ghost predicate Deciding(facts: seq<Fact>, oid: Id, f: Fact): (d: bool)
    ensures d ==> f in facts && f.IsObservation()
  {
    f in facts && Observes(f, oid) && forall g :: g in facts && Observes(g, oid) ==> Yields(g, f)
  }

  /** The deciding observations agree on what remains; there may be none. */
  ghost predicate Decisive(facts: seq<Fact>, oid: Id) {
    forall a, b :: Deciding(facts, oid, a) && Deciding(facts, oid, b) ==> a.remaining == b.remaining
  }

  lemma ListedByKind(facts: seq<Fact>, oid: Id, i: nat, k: nat)
    requires i <= k < |Observations(facts, oid)|
    ensures Kind(Observations(facts, oid)[i]) <= Kind(Observations(facts, oid)[k])
  {
    hide Select;
    SelectMember(FillOf(oid), facts);
    SelectMember(CancelOf(oid), facts);
    SelectMember(AmendOf(oid), facts);
    var fills, cancels, changes := Select(FillOf(oid), facts), Select(CancelOf(oid), facts), Select(AmendOf(oid), facts);
    assert forall n :: 0 <= n < |fills| ==> fills[n] in fills;
    assert forall n :: 0 <= n < |cancels| ==> cancels[n] in cancels;
    assert forall n :: 0 <= n < |changes| ==> changes[n] in changes;
  }

  /** The latest observation is a deciding one. */
  lemma LatestDecides(facts: seq<Fact>, oid: Id)
    requires |Observations(facts, oid)| > 0
    ensures Deciding(facts, oid, Latest(Observations(facts, oid)))
  {
    hide Latest, Observations, Kind;
    var obs := Observations(facts, oid);
    var i := LatestIsFirst(obs);
    forall g | g in facts && Observes(g, oid) ensures Yields(g, obs[i]) {
      var k :| 0 <= k < |obs| && obs[k] == g;
      if k >= i { ListedByKind(facts, oid, i, k); }
    }
  }

  lemma {:induction false} SelectFront<T>(p: T -> bool, s: seq<T>)
    requires |s| > 0 && p(s[0])
    ensures |Select(p, s)| > 0 && Select(p, s)[0] == s[0]
  {
    if |s| > 1 { SelectFront(p, s[..|s| - 1]); }
  }

  /** Where the first fact stands among the observations: at the head of its kind. */
  lemma HeadOfKind(facts: seq<Fact>, oid: Id) returns (n: nat)
    requires |facts| > 0 && Observes(facts[0], oid)
    ensures n < |Observations(facts, oid)| && Observations(facts, oid)[n] == facts[0]
    ensures forall k :: 0 <= k < n ==> Kind(Observations(facts, oid)[k]) < Kind(facts[0])
  {
    hide Select;
    var f := facts[0];
    SelectMember(FillOf(oid), facts);
    SelectMember(CancelOf(oid), facts);
    var fills, cancels := Select(FillOf(oid), facts), Select(CancelOf(oid), facts);
    assert forall k :: 0 <= k < |fills| ==> fills[k] in fills;
    assert forall k :: 0 <= k < |cancels| ==> cancels[k] in cancels;
    if f.Fill? {
      SelectFront(FillOf(oid), facts);
      n := 0;
    } else if f.Cancelled? {
      SelectFront(CancelOf(oid), facts);
      n := |fills|;
    } else {
      SelectFront(AmendOf(oid), facts);
      n := |fills| + |cancels|;
    }
  }

  /** A deciding observation that arrived before everything else is the latest one. */
  lemma FirstToArriveWins(facts: seq<Fact>, oid: Id)
    requires |facts| > 0 && Deciding(facts, oid, facts[0])
    ensures |Observations(facts, oid)| > 0 && Latest(Observations(facts, oid)) == facts[0]
  {
    hide Latest, Observations, Kind;
    var n := HeadOfKind(facts, oid);
    var obs := Observations(facts, oid);
    var i := LatestIsFirst(obs);
    assert obs[i] in obs && obs[n] in obs;
    assert Yields(obs[i], facts[0]);
  }

  /** Any fact may have arrived first. */
  lemma BringForward(facts: seq<Fact>, a: Fact) returns (shuffled: seq<Fact>)
    requires a in facts
    ensures multiset(shuffled) == multiset(facts) && |shuffled| > 0 && shuffled[0] == a
  {
    var i :| 0 <= i < |facts| && facts[i] == a;
    shuffled := [a] + facts[..i] + facts[i + 1..];
    assert facts == facts[..i] + [a] + facts[i + 1..];
  }

  lemma DecidingPermuted(facts: seq<Fact>, shuffled: seq<Fact>, oid: Id, f: Fact)
    requires multiset(facts) == multiset(shuffled)
    ensures Deciding(facts, oid, f) <==> Deciding(shuffled, oid, f)
  {
    SameMembers(facts, shuffled);
  }

  lemma ActiveIsLatest(facts: seq<Fact>, r: Request)
    requires r.command.New?
    ensures Void(Status(facts, r)) || CancelledToZero(facts, r.orderId) ==> View(facts, r).active == Some(0)
    ensures !Void(Status(facts, r)) && !CancelledToZero(facts, r.orderId) && |Observations(facts, r.orderId)| > 0 ==>
              View(facts, r).active == Some(Latest(Observations(facts, r.orderId)).remaining)
    ensures View(facts, r).gap == if View(facts, r).active.None? || Void(Status(facts, r)) then None
                                  else Some(Exposure(facts, r) - View(facts, r).active.value)
  {
    hide Status, Tied, Revived, CancelledToZero, Total, Latest, Select, Observations, Exposure;
  }

  lemma SameActiveSameView(facts: seq<Fact>, shuffled: seq<Fact>, r: Request)
    requires r.command.New? && multiset(facts) == multiset(shuffled)
    requires View(facts, r).active == View(shuffled, r).active
    ensures View(shuffled, r) == View(facts, r)
  {
    hide View, Status, Exposure, Void, CancelledToZero, Observations, Latest, Tied;
    OrderIgnoresArrival(facts, shuffled, r);
    ActiveIsLatest(facts, r);
    ActiveIsLatest(shuffled, r);
    VoidPermuted(facts, shuffled, r);
    ExposurePermuted(facts, shuffled, r);
  }

  lemma VoidPermuted(facts: seq<Fact>, shuffled: seq<Fact>, r: Request)
    requires multiset(facts) == multiset(shuffled)
    ensures Void(Status(facts, r)) <==> Void(Status(shuffled, r))
  {
    hide Status;
    StatusPermuted(facts, shuffled, r);
  }

  lemma ExposurePermuted(facts: seq<Fact>, shuffled: seq<Fact>, r: Request)
    requires r.command.New? && multiset(facts) == multiset(shuffled)
    ensures Exposure(facts, r) == Exposure(shuffled, r)
  {
    hide Total;
    QuantitiesPermuted(facts, shuffled, r.orderId);
  }

  lemma DecisiveIgnoresArrival(facts: seq<Fact>, shuffled: seq<Fact>, r: Request)
    requires r.command.New? && multiset(facts) == multiset(shuffled)
    requires Void(Status(facts, r)) || CancelledToZero(facts, r.orderId) || Decisive(facts, r.orderId)
    ensures View(shuffled, r) == View(facts, r)
  {
    hide View, Status, Observations, Latest, CancelledToZero, Deciding, Void;
    var oid := r.orderId;
    VoidPermuted(facts, shuffled, r);
    ContradictionsPermuted(facts, shuffled, oid);
    LatestPermuted(facts, shuffled, oid);
    ActiveIsLatest(facts, r);
    ActiveIsLatest(shuffled, r);
    OrderIgnoresArrival(facts, shuffled, r);
    if |Observations(facts, oid)| > 0 {
      LatestDecides(facts, oid);
      LatestDecides(shuffled, oid);
      DecidingPermuted(facts, shuffled, oid, Latest(Observations(shuffled, oid)));
    } else {
      UnobservedActive(facts, shuffled, r);
    }
    SameActiveSameView(facts, shuffled, r);
  }

  lemma UnobservedActive(facts: seq<Fact>, shuffled: seq<Fact>, r: Request)
    requires r.command.New? && multiset(facts) == multiset(shuffled) && |Observations(facts, r.orderId)| == 0
    ensures View(facts, r).active == View(shuffled, r).active
  {
    hide Tied, Revived, CancelledToZero, Total, Latest, Select, Observations, Exposure, Gather, Judge;
    StatusPermuted(facts, shuffled, r);
    ContradictionsPermuted(facts, shuffled, r.orderId);
    LatestPermuted(facts, shuffled, r.orderId);
  }

  /** A deciding observation brought forward sets the active quantity. */
  lemma BroughtForwardIsActive(facts: seq<Fact>, shuffled: seq<Fact>, r: Request, a: Fact)
    requires r.command.New? && Deciding(facts, r.orderId, a)
    requires !Void(Status(facts, r)) && !CancelledToZero(facts, r.orderId)
    requires multiset(shuffled) == multiset(facts) && |shuffled| > 0 && shuffled[0] == a
    ensures View(shuffled, r).active == Some(a.remaining)
  {
    hide View, Status, Observations, Latest, CancelledToZero, Deciding, Void;
    VoidPermuted(facts, shuffled, r);
    ContradictionsPermuted(facts, shuffled, r.orderId);
    DecidingPermuted(facts, shuffled, r.orderId, a);
    FirstToArriveWins(shuffled, r.orderId);
    ActiveIsLatest(shuffled, r);
  }

  /** An order reads the same in every arrival order of its facts exactly when it is void, or was
      cancelled to zero, or its deciding observations agree. */
  lemma OrderIgnoresArrivalIff(facts: seq<Fact>, r: Request)
    requires r.command.New?
    ensures (forall shuffled :: multiset(shuffled) == multiset(facts) ==> View(shuffled, r) == View(facts, r))
       <==> Void(Status(facts, r)) || CancelledToZero(facts, r.orderId) || Decisive(facts, r.orderId)
  {
    hide View, Status, CancelledToZero, Deciding;
    var oid := r.orderId;
    if Void(Status(facts, r)) || CancelledToZero(facts, oid) || Decisive(facts, oid) {
      forall shuffled | multiset(shuffled) == multiset(facts) ensures View(shuffled, r) == View(facts, r) {
        DecisiveIgnoresArrival(facts, shuffled, r);
      }
    } else {
      var a, b :| Deciding(facts, oid, a) && Deciding(facts, oid, b) && a.remaining != b.remaining;
      var s := BringForward(facts, a);
      var t := BringForward(facts, b);
      BroughtForwardIsActive(facts, s, r, a);
      BroughtForwardIsActive(facts, t, r, b);
    }
  }
}
