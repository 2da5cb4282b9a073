/** Which executions get their stop rule: every ingested fill of a buy whose revision was bound when it
    arrived, in full and once, and nothing else. */
module Assigned {
  import opened Basics
  import opened Models
  import opened Outcomes
  import opened Projection
  import opened Validation
  import opened Steps
  import opened StopEvaluation
  import opened LedgerSpec
  import opened DispatchSpec
  import opened StopSignals
  import opened Runs
  import opened Worlds
  import opened Theorems
  import opened Origins

  /** The fill is of this buy, and the revision the buy was placed under is bound to this rule. */
  ghost predicate BoundBuy(j: Journal, f: Fact, r: Request, b: StopBinding) {
    && f.Fill? && r in j.requests && r.command.New? && r.command.side.Buy? && r.orderId == f.orderId
    && b in j.bindings && b.symbol == r.command.symbol && b.version == r.command.configVersion
  }

  ghost predicate DueTo(j: Journal, f: Fact, a: StopAssignment) {
    exists r, b :: BoundBuy(j, f, r, b) && a == StopAssignment(f.eventId, r.command.symbol, f.qty, b.version)
  }

  lemma OneBuy(j: Journal, f: Fact, r: Request)
    requires WellFormed(j) && f.Fill? && r in j.requests && OpensBuy(f.orderId)(r)
    ensures First(OpensBuy(f.orderId), j.requests) == Some(r)
  {
    hide DistinctRequests, DistinctEvents, AllCorrelated;
    assert Placed(j, r);
    FirstOnly(OpensBuy(f.orderId), j.requests, r);
  }

  lemma AssignmentsAreDue(j: Journal, f: Fact)
    requires WellFormed(j)
    ensures forall a :: a in AssignmentsFor(j, f) <==> DueTo(j, f, a)
    ensures |AssignmentsFor(j, f)| <= 1
  {
    hide WellFormed;
    forall r, b | BoundBuy(j, f, r, b)
      ensures AssignmentsFor(j, f) == [StopAssignment(f.eventId, r.command.symbol, f.qty, b.version)]
    {
      OneBuy(j, f, r);
      assert BindingOf(r.command.symbol, r.command.configVersion)(b);
    }
    forall a | a in AssignmentsFor(j, f) ensures DueTo(j, f, a) {
      var r := First(OpensBuy(f.orderId), j.requests).value;
      var b := First(BindingOf(r.command.symbol, r.command.configVersion), j.bindings).value;
      assert BoundBuy(j, f, r, b);
    }
  }

  /** A new fill of a buy under a bound revision commits exactly one assignment: of this fill, in full, to
      that rule.  Any other fact commits none. */
  lemma IngestAssigns(s: Session, f: Fact)
    requires WellFormed(s.journal) && Ingest(s, f).result == Ok(true)
    ensures var j, k := s.journal, Ingest(s, f).session.journal;
            && k.facts == j.facts + [f]
            && (forall a :: DueTo(j, f, a) ==> k.assignments == j.assignments + [a])
            && ((forall a :: !DueTo(j, f, a)) ==> k.assignments == j.assignments)
  {
    hide WellFormed, CheckFact, DueTo, AssignmentsFor, First;
    AssignmentsAreDue(s.journal, f);
    var given := AssignmentsFor(s.journal, f);
    if |given| == 1 { assert given[0] in given; }
    assert s.journal.assignments + [] == s.journal.assignments;
    forall a | DueTo(s.journal, f, a) ensures given == [a] { assert a in given; }
  }

  /* ----- over runs ----- */

  /** The assignments of one event. */
  ghost predicate SameAssigned(j: Journal, k: Journal, eid: Id) {
    forall a: StopAssignment :: a.fillEventId == eid ==> (a in j.assignments <==> a in k.assignments)
  }

  lemma StepKeepsAssigned(j: Journal, s: Step, f: Fact)
    requires Allowed(j, s) && f in j.facts
    ensures SameAssigned(j, Commit(j, s), f.eventId) && f in Commit(j, s).facts
  {
    hide CheckFact, Admissible, AppliedVersion, MeetsRule;
  }

  lemma {:induction false} StepsKeepAssigned(j: Journal, steps: seq<Step>, f: Fact)
    requires AllAllowed(j, steps) && f in j.facts
    ensures SameAssigned(j, CommitAll(j, steps), f.eventId) && f in CommitAll(j, steps).facts
  {
    hide Allowed, Commit;
    if |steps| > 0 {
      StepsKeepAssigned(j, steps[..|steps| - 1], f);
      StepKeepsAssigned(CommitAll(j, steps[..|steps| - 1]), steps[|steps| - 1], f);
    }
  }

  lemma {:induction false} RunKeepsAssigned(w: World, ops: seq<Op>, f: Fact)
    requires Invariant(w.Journal()) && Legal(w, ops) && f in w.Journal().facts
    ensures SameAssigned(w.Journal(), RunAll(w, ops).Journal(), f.eventId) && f in RunAll(w, ops).Journal().facts
  {
    hide Invariant, Worlds.Fresh, Perform, AllAllowed, CommitAll, Follows;
    if |ops| > 0 {
      var n := |ops| - 1;
      var mid := RunAll(w, ops[..n]);
      RunKeepsAssigned(w, ops[..n], f);
      RunIsGood(w, ops[..n]);
      GoodIsWellFormed(mid.Journal());
      PerformReaches(mid, ops[n]);
      var steps :| AllAllowed(mid.Journal(), steps) && CommitAll(mid.Journal(), steps) == Perform(mid, ops[n]).Journal();
      StepsKeepAssigned(mid.Journal(), steps, f);
    }
  }

  lemma ArrivingAssigns(w: World, op: Op, f: Fact)
    requires WellFormed(w.Journal()) && AssignmentsStand(w.Journal()) && Brings(w, op, f) && f.Fill?
    requires forall g :: g in w.Journal().facts ==> g.eventId != f.eventId
    ensures forall a :: a in Perform(w, op).Journal().assignments && a.fillEventId == f.eventId
                        <==> op.DoIngest? && DueTo(w.Journal(), f, a)
  {
    hide WellFormed, CheckFact, DueTo, AssignmentsFor, First, LinkedFill;
    var j := w.Journal();
    forall a | a in j.assignments ensures a.fillEventId != f.eventId { StandsNames(j, a); }
    assert forall a :: DueTo(j, f, a) ==> a.fillEventId == f.eventId by { DueNames(j, f); }
    if op.DoIngest? { IngestAssigns(w.session, f); }
  }

  lemma DueNames(j: Journal, f: Fact)
    ensures forall a :: DueTo(j, f, a) ==> a.fillEventId == f.eventId
  {
  }

  lemma NewEvent(j: Journal, k: Journal, f: Fact)
    requires Grows(j, k) && DistinctEvents(k) && f in k.facts && f !in j.facts
    ensures forall g :: g in j.facts ==> g.eventId != f.eventId
  {
    forall g | g in j.facts ensures g.eventId != f.eventId { if g.eventId == f.eventId { SameEvent(k, f, g); } }
  }

  /** Over runs: a fill has an assignment if and only if it was ingested while the revision of its buy was
      bound, and then it is that of the fill, in full, to that rule.  A fill derived from quarantine has none. */
  lemma FillsAreAssigned(ops: seq<Op>, f: Fact) returns (k: nat)
    requires Legal(START, ops) && f in RunAll(START, ops).Journal().facts && f.Fill?
    ensures k < |ops| && f !in Before(ops, k).Journal().facts && f in Before(ops, k + 1).Journal().facts
    ensures ops[k] == DoIngest(f) || (ops[k].DoReprocess? && f.eventId == Uuid5(ops[k].qid, "linked-fill"))
    ensures forall a :: a in RunAll(START, ops).Journal().assignments && a.fillEventId == f.eventId
                        <==> ops[k].DoIngest? && DueTo(Before(ops, k).Journal(), f, a)
  {
    hide Invariant, RunAll, Legal, Perform, DueTo, Grows, LinkedFill, Ingest, Claim;
    k := FactOrigin(ops, f);
    LaterThan(ops, k);
    LegalAt(ops, k);
    LaterThan(ops, k + 1);
    RunInvariant(ops);
    InvariantParts(RunAll(START, ops).Journal());
    InvariantParts(Before(ops, k).Journal());
    NewEvent(Before(ops, k).Journal(), RunAll(START, ops).Journal(), f);
    ArrivingAssigns(Before(ops, k), ops[k], f);
    RunKeepsAssigned(Before(ops, k + 1), ops[k + 1..], f);
  }
}
