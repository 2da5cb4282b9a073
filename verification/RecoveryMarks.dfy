/** What a recovery records of each request it finds unaccounted for. */
module RecoveryMarks {
  import opened Basics
  import opened Models
  import opened Outcomes
  import opened Projection
  import opened Validation
  import opened Steps
  import opened LedgerSpec
  import opened DispatchSpec
  import opened Runs
  import opened Meaning
  import opened Readiness
  import opened Correlation
  import opened Dispatch

  /** Claimed, and never seen to come back. */
  ghost predicate CutShort(facts: seq<Fact>, r: Request) {
    InDoubt(facts, r) && exists i :: LastSeen(facts, r, i) && facts[i].state.SENDING?
  }

  ghost function Mark(facts: seq<Fact>, r: Request): Boundary { if CutShort(facts, r) then UNKNOWN else RECONCILING }

  /** Of the added facts exactly the one at m names the request, and it is this boundary. */
  ghost predicate MarkedOnce(added: seq<Fact>, r: Request, m: int, state: Boundary) {
    && 0 <= m < |added| && added[m].Transport? && added[m].requestId == r.requestId && added[m].state == state
    && forall n :: 0 <= n < |added| && n != m ==> added[n].Transport? && added[n].requestId != r.requestId
  }

  lemma MarkMeans(facts: seq<Fact>, r: Request, eid: Id)
    ensures NeedsRecovery(facts, r) <==> r.decision.Accepted? && !Resolved(facts, r)
    ensures RecoveryFact(facts, r, eid) == Transport(eid, r.requestId, Mark(facts, r))
  {
    hide Status, Resolved, LastSeen;
    ResolvedMeans(facts, r);
    ObservedIsDoubt(facts, r);
    BoundaryShown(facts, r);
    LastSeenIs(facts, r);
  }

  lemma {:induction false} UnnamedMarks(facts: seq<Fact>, requests: seq<Request>, eids: seq<Id>, rid: Id)
    requires |eids| == |requests| && forall x :: x in requests ==> x.requestId != rid
    ensures forall f :: f in RecoveryFacts(facts, requests, eids) ==> f.Transport? && f.requestId != rid
  {
    hide Status;
    if |requests| > 0 {
      var n := |requests| - 1;
      assert requests[n] in requests;
      UnnamedMarks(facts, requests[..n], eids[..n], rid);
    }
  }

  lemma {:induction false} Marks(facts: seq<Fact>, requests: seq<Request>, eids: seq<Id>, r: Request)
    requires |eids| == |requests| && r in requests
    requires forall i, k :: 0 <= i < k < |requests| ==> requests[i].requestId != requests[k].requestId
    ensures var added := RecoveryFacts(facts, requests, eids);
            if NeedsRecovery(facts, r)
            then exists m :: MarkedOnce(added, r, m, Mark(facts, r))
            else forall f :: f in added ==> f.Transport? && f.requestId != r.requestId
  {
    hide NeedsRecovery, RecoveryFact, Mark, RecoveryFacts, MarkedOnce;
    var n := |requests| - 1;
    var front, last := RecoveryFacts(facts, requests[..n], eids[..n]), requests[n];
    assert requests == requests[..n] + [last];
    OneMark(facts, requests, eids);
    if last == r {
      UnnamedMarks(facts, requests[..n], eids[..n], r.requestId);
      MarkMeans(facts, r, eids[n]);
      if NeedsRecovery(facts, r) { MarkedLast(front, r, RecoveryFact(facts, r, eids[n])); }
    } else {
      Marks(facts, requests[..n], eids[..n], r);
      MarkMeans(facts, last, eids[n]);
      if NeedsRecovery(facts, r) {
        var m :| MarkedOnce(front, r, m, Mark(facts, r));
        if NeedsRecovery(facts, last) { MarkedStill(front, r, m, Mark(facts, r), RecoveryFact(facts, last, eids[n])); }
      }
    }
  }

  lemma OneMark(facts: seq<Fact>, requests: seq<Request>, eids: seq<Id>)
    requires |eids| == |requests| > 0
    ensures var n := |requests| - 1;
            RecoveryFacts(facts, requests, eids)
            == if NeedsRecovery(facts, requests[n])
               then RecoveryFacts(facts, requests[..n], eids[..n]) + [RecoveryFact(facts, requests[n], eids[n])]
               else RecoveryFacts(facts, requests[..n], eids[..n])
  {
    hide NeedsRecovery, RecoveryFact;
    var n := |requests| - 1;
    assert RecoveryFacts(facts, requests[..n], eids[..n]) + [] == RecoveryFacts(facts, requests[..n], eids[..n]);
  }

  lemma MarkedLast(front: seq<Fact>, r: Request, f: Fact)
    requires f.Transport? && f.requestId == r.requestId && forall g :: g in front ==> g.Transport? && g.requestId != r.requestId
    ensures MarkedOnce(front + [f], r, |front|, f.state)
  {
    assert forall m :: 0 <= m < |front| ==> front[m] in front;
  }

  lemma MarkedStill(front: seq<Fact>, r: Request, m: int, state: Boundary, f: Fact)
    requires MarkedOnce(front, r, m, state) && f.Transport? && f.requestId != r.requestId
    ensures MarkedOnce(front + [f], r, m, state)
  {
  }

  /** Each accepted request that is not accounted for gets one boundary: UNKNOWN if its call was cut short,
      else RECONCILING.  The others get none. */
  lemma RecoveryMarksEach(j: Journal, eids: seq<Id>, r: Request)
    requires WellFormed(j) && |eids| == |j.requests| && r in j.requests
    ensures j.facts <= Recover(j, eids).facts
    ensures var added := Recover(j, eids).facts[|j.facts|..];
            if r.decision.Accepted? && !Resolved(j.facts, r)
            then exists m :: MarkedOnce(added, r, m, Mark(j.facts, r))
            else forall f :: f in added ==> f.Transport? && f.requestId != r.requestId
  {
    hide Resolved, CutShort, RecoveryFacts, WellFormed;
    WellFormedDistinct(j);
    MarkMeans(j.facts, r, r.requestId);
    Marks(j.facts, j.requests, eids, r);
    assert Recover(j, eids).facts[|j.facts|..] == RecoveryFacts(j.facts, j.requests, eids);
  }

  lemma LastIsUnique(facts: seq<Fact>, r: Request, i: int, m: int)
    requires LastSeen(facts, r, i) && LastSeen(facts, r, m)
    ensures i == m
  {
  }

  /** After a recovery no call stands as being sent or as sent: a second recovery calls every one of them
      RECONCILING. */
  lemma NothingLeftSending(j: Journal, eids: seq<Id>, r: Request, i: int)
    requires WellFormed(j) && |eids| == |j.requests| && r in j.requests && r.decision.Accepted?
    requires var k := Recover(j, eids); InDoubt(k.facts, r) && LastSeen(k.facts, r, i)
    ensures Recover(j, eids).facts[i].state in {UNKNOWN, RECONCILING}
  {
    hide Resolved, CutShort, WellFormed, Recover;
    var k := Recover(j, eids);
    RecoveryMarksEach(j, eids, r);
    var added := k.facts[|j.facts|..];
    assert forall n :: 0 <= n < |added| ==> added[n] == k.facts[|j.facts| + n];
    if Resolved(j.facts, r) {
      StillResolved(j.facts, k.facts, r);
    } else {
      var m :| MarkedOnce(added, r, m, Mark(j.facts, r));
      assert LastSeen(k.facts, r, |j.facts| + m);
      LastIsUnique(k.facts, r, i, |j.facts| + m);
    }
  }

  lemma StillResolved(facts: seq<Fact>, later: seq<Fact>, r: Request)
    requires facts <= later && forall f :: f in later[|facts|..] ==> f.Transport? && f.requestId != r.requestId
    ensures InDoubt(later, r) ==> InDoubt(facts, r)
    ensures Resolved(facts, r) ==> !InDoubt(later, r)
  {
    hide Clashing, Untraced, Unanswered;
    assert forall f :: f in later <==> f in facts || f in later[|facts|..] by { assert later == facts + later[|facts|..]; }
  }

  /** What a recovery returns: the identifiers of the accepted requests that are not accounted for. */
  lemma {:induction false} RecoveryNames(facts: seq<Fact>, requests: seq<Request>)
    ensures forall rid :: rid in UnresolvedIds(facts, requests)
                          <==> exists r :: r in requests && r.requestId == rid && r.decision.Accepted? && !Resolved(facts, r)
  {
    hide Resolved, NeedsRecovery;
    if |requests| > 0 {
      var n := |requests| - 1;
      RecoveryNames(facts, requests[..n]);
      MarkMeans(facts, requests[n], requests[n].requestId);
      assert requests == requests[..n] + [requests[n]];
    }
  }
}
