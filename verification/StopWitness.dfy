/** A run in which a price stop fires: ten shares bought under a bound rule, and a quote below its price. */
module StopWitness {
  import opened Basics
  import opened Models
  import opened Ownership
  import opened Outcomes
  import opened Projection
  import opened Validation
  import opened Steps
  import opened StopEvaluation
  import opened LedgerSpec
  import opened Runs
  import opened Worlds
  import opened Theorems
  import opened Meaning
  import opened StopFires
  import opened Admission
  import opened Correlation
  import opened Assigned
  import opened Readiness
  import Witnesses

  const RULE: StopBinding := StopBinding("005930", 2, PriceAtOrBelow, 70000.0)
  const ENTRY: Command := New("entry", "005930", Buy, 2, None, 10, Market, None, None)
  const HOLDING: Request := Request(Uuid(1), Uuid(2), ENTRY, Accepted)
  const FILLED: Fact := Fill(Uuid(3), Uuid(2), 1, 0, 10, None, None)
  const DUE: StopAssignment := StopAssignment(Uuid(3), "005930", 10, 2)
  const LOW: Quote := Quote("005930", 69000.0, 100)
  const NOW: ObserveAt := ObserveAt(100, 2)

  const BOUND: Journal := EMPTY.(configs := [AppliedConfig("005930", 2, None)], bindings := [RULE])
  const HELD: Journal := BOUND.(requests := [HOLDING], facts := [FILLED], assignments := [DUE])

  const BUYING: seq<Op> := [DoApprove(0)] + [DoApplyStopConfig(RULE, 1)] + [DoSubmit(ENTRY, 0, Uuid(1), Uuid(2))] + [DoIngest(FILLED)]

  lemma Bound()
    ensures ApplyStopConfig(Session(EMPTY, true), RULE, 1).session == Session(BOUND, true)
  {
    ConfigChain.UnconfiguredIsFirst([], "005930");
    assert [] + [AppliedConfig("005930", 2, None)] == [AppliedConfig("005930", 2, None)] && [] + [RULE] == [RULE];
  }

  lemma QuietBound()
    ensures Calm(BOUND, "005930") && !Stopped(BOUND, "005930") && Unlatched(BOUND, "005930")
    ensures Current(BOUND, "005930", 2)
  {
    assert AppliedConfig("005930", 2, None) in BOUND.configs;
  }

  lemma Entered()
    requires Invariant(BOUND)
    ensures Submit(Session(BOUND, true), ENTRY, 0, Uuid(1), Uuid(2)).session == Session(BOUND.(requests := [HOLDING]), true)
  {
    hide Invariant, Calm, Stopped, Current, Submit;
    QuietBound();
    assert ENTRY.key[0] == 'e' && "virtual-stop:"[0] == 'v';
    SubmitTakenIff(Session(BOUND, true), ENTRY, 0, Uuid(1), Uuid(2));
    UntaggedObliges(Session(BOUND, true), ENTRY, 0, Uuid(1), Uuid(2));
    assert [] + [HOLDING] == [HOLDING];
  }

  lemma UntaggedObliges(s: Session, c: Command, now: int, rid: Id, oid: Id)
    requires c.New? && c.stopLatchVersion.None?
    ensures Submit(s, c, now, rid, oid).session.journal.obligations == s.journal.obligations
    ensures Submit(s, c, now, rid, oid).session.ready == s.ready
  {
    hide CheckSubmission, First;
    assert s.journal.obligations + [] == s.journal.obligations;
  }

  lemma Taken()
    ensures Ingest(Session(BOUND.(requests := [HOLDING]), true), FILLED).session == Session(HELD, true)
  {
    hide View;
    var j := BOUND.(requests := [HOLDING]);
    assert HOLDING in j.requests && Initial(j.requests, Uuid(2)).Some?;
    assert OpensBuy(Uuid(2))(HOLDING) && RULE in j.bindings;
    assert j.requests[..0] == [] && j.bindings[..0] == [];
    assert First(OpensBuy(Uuid(2)), j.requests) == Some(HOLDING);
    assert First(BindingOf("005930", 2), j.bindings) == Some(RULE);
    assert [] + [FILLED] == [FILLED] && [] + [DUE] == [DUE];
  }

  lemma BoundIsGood()
    ensures Legal(START, [DoApprove(0)] + [DoApplyStopConfig(RULE, 1)])
    ensures RunAll(START, [DoApprove(0)] + [DoApplyStopConfig(RULE, 1)]) == World(Session(BOUND, true), {}, []) && Invariant(BOUND)
  {
    hide Approve, ApplyStopConfig, Invariant;
    OneMore(START, [], DoApprove(0));
    OneMore(START, [DoApprove(0)], DoApplyStopConfig(RULE, 1));
    assert [] + [DoApprove(0)] == [DoApprove(0)];
    Witnesses.Approved();
    Bound();
    RunInvariant([DoApprove(0)] + [DoApplyStopConfig(RULE, 1)]);
  }

  lemma BoughtRun()
    ensures Legal(START, BUYING) && RunAll(START, BUYING) == World(Session(HELD, true), {}, []) && Invariant(HELD)
  {
    hide Submit, Ingest, Invariant, RunAll, Legal;
    var ops := [DoApprove(0)] + [DoApplyStopConfig(RULE, 1)];
    BoundIsGood();
    OneMore(START, ops, DoSubmit(ENTRY, 0, Uuid(1), Uuid(2)));
    OneMore(START, ops + [DoSubmit(ENTRY, 0, Uuid(1), Uuid(2))], DoIngest(FILLED));
    Entered();
    Taken();
    RunInvariant(BUYING);
  }

  lemma TotalOne<T>(w: T -> int, x: T)
    ensures Total(w, [x]) == w(x)
  {
    assert [x][..0] == [] && Total(w, []) == 0;
  }

  lemma HeldTotals()
    ensures Total(FilledBy(Uuid(2)), [FILLED]) == 10
    ensures Total(CancelledBy(Uuid(2)), [FILLED]) == 0 && Total(AmendedBy(Uuid(2)), [FILLED]) == 0
  {
    hide Total;
    TotalOne(FilledBy(Uuid(2)), FILLED);
    TotalOne(CancelledBy(Uuid(2)), FILLED);
    TotalOne(AmendedBy(Uuid(2)), FILLED);
  }

  lemma HeldStatus()
    ensures var s := Status([FILLED], HOLDING); !s.conflict && !Void(s) && !s.transport.Acked?
    ensures Observations([FILLED], Uuid(2)) == [FILLED]
    ensures !Tied([FILLED], Uuid(2)) && !Revived([FILLED], Uuid(2)) && !CancelledToZero([FILLED], Uuid(2))
  {
    var facts := [FILLED];
    assert facts[..0] == [] && FILLED in facts;
    assert Select(FillOf(Uuid(2)), facts) == [FILLED];
    assert Select(CancelOf(Uuid(2)), facts) == [] && Select(AmendOf(Uuid(2)), facts) == [];
  }

  lemma HeldOrder()
    ensures var v := View([FILLED], HOLDING);
            v.filled == 10 && v.reserved == 0 && !v.reconciliationRequired && !Status([FILLED], HOLDING).conflict
  {
    hide Status, Observations, Tied, Revived, CancelledToZero, Total, Select;
    HeldTotals();
    HeldStatus();
  }

  lemma HeldQuantities()
    ensures Managed(HELD, "005930") == 10 && Reserved(HELD, "005930") == 0
  {
    hide View, Total, Status;
    HeldOrder();
    assert HELD.requests[..0] == [] && First(Opens(Uuid(2)), HELD.requests) == Some(HOLDING);
    TotalOne(ManagedBy(HELD, "005930"), HOLDING);
    TotalOne(ReservedBy(HELD, "005930"), HOLDING);
    TotalZero(AllocatedTo("005930"), HELD.allocations);
  }

  lemma HeldIsCalm()
    ensures Calm(HELD, "005930")
  {
    hide View, Status;
    HeldOrder();
    assert HELD.requests[..0] == [] && First(Opens(Uuid(2)), HELD.requests) == Some(HOLDING);
    assert !Alarms(HELD, HOLDING);
  }

  lemma HeldPosition()
    ensures MaySell(HELD, "005930") && Protects(HELD, "005930", RULE) && Reached(HELD, "005930", RULE, 69000.0)
  {
    hide Managed, Reserved, Calm;
    HeldQuantities();
    HeldIsCalm();
    assert FillOfOrder(HELD, "005930", FILLED, HOLDING) by { assert FILLED in HELD.facts && HOLDING in HELD.requests; }
    assert DUE in HELD.assignments && RULE in HELD.bindings;
  }

  /** The run is legal, its fill has its assignment, and the quote then latches the rule at its price. */
  lemma PriceStopFires()
    ensures Legal(START, BUYING + [DoQuote("005930", LOW, NOW)])
    ensures RunAll(START, BUYING).Journal().assignments == [DUE]
    ensures RunAll(START, BUYING + [DoQuote("005930", LOW, NOW)]).Journal().latches
         == [StopLatch("005930", 2, PriceAtOrBelow, 69000.0, 100)]
  {
    hide RunAll, Legal, ProcessQuote, Invariant, MaySell, Protects, Reached;
    BoughtRun();
    HeldPosition();
    OneMore(START, BUYING, DoQuote("005930", LOW, NOW));
    QuoteFiresIff(Session(HELD, true), "005930", LOW, NOW);
    var l :| Retains(l, RULE, LOW) && ProcessQuote(Session(HELD, true), "005930", LOW, NOW).session.journal.latches == HELD.latches + [l];
    assert [] + [l] == [l];
  }
}
