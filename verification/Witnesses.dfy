/** Two runs of the whole ledger in which the same evidence arrives in either order, and an order that
    reads differently for it. */
module Witnesses {
  import opened Basics
  import opened Models
  import opened Ownership
  import opened Outcomes
  import opened Projection
  import opened Validation
  import opened Steps
  import opened LedgerSpec
  import opened StopEvaluation
  import opened Runs
  import opened Worlds
  import opened ArrivalTies

  const BUY: Command := New("buy", "005930", Buy, 1, None, 10, Market, None, None)
  const BOUGHT: Request := Request(Uuid(1), Uuid(2), BUY, Accepted)

  /** Two executions of two shares that claim the same version. */
  const FIVE_LEFT: Fact := Fill(Uuid(3), Uuid(2), 1, 5, 2, None, None)
  const THREE_LEFT: Fact := Fill(Uuid(4), Uuid(2), 1, 3, 2, None, None)

  const PLACED: seq<Op> := [DoApprove(0)] + [DoSubmit(BUY, 0, Uuid(1), Uuid(2))]

  function Arriving(first: Fact, second: Fact): seq<Op> { PLACED + [DoIngest(first)] + [DoIngest(second)] }

  lemma Approved()
    ensures Perform(START, DoApprove(0)) == World(Session(EMPTY, true), {}, [])
  {
    hide Status, PortfolioOf;
    assert ReviewedSymbols(EMPTY) == {};
  }

  lemma CalmPortfolio()
    ensures var p := PortfolioOf(EMPTY, "005930"); !p.entryStopped && !p.reconciliationRequired
  {
    hide Alarms, SellUnclear;
  }

  lemma Placed()
    ensures Submit(Session(EMPTY, true), BUY, 0, Uuid(1), Uuid(2)).session == Session(EMPTY.(requests := [BOUGHT]), true)
  {
    hide PortfolioOf;
    CalmPortfolio();
    assert BUY.key[0] == 'b' && STOP_PREFIX[0] == 'v';
  }

  lemma Filled(j: Journal, f: Fact)
    requires j.requests == [BOUGHT] && j.bindings == [] && f.Fill? && f.orderId == Uuid(2)
    requires forall g :: g in j.facts ==> g.eventId != f.eventId
    ensures Ingest(Session(j, true), f).session == Session(j.(facts := j.facts + [f]), true)
  {
    hide View;
    assert BOUGHT in j.requests;
    assert Initial(j.requests, Uuid(2)).Some?;
    assert j.assignments + [] == j.assignments;
  }

  lemma PlacedRun()
    ensures Legal(START, PLACED) && RunAll(START, PLACED) == World(Session(EMPTY.(requests := [BOUGHT]), true), {}, [])
  {
    hide Submit, Approve;
    OneMore(START, [], DoApprove(0));
    OneMore(START, [DoApprove(0)], DoSubmit(BUY, 0, Uuid(1), Uuid(2)));
    assert [] + [DoApprove(0)] == [DoApprove(0)];
    Approved();
    Placed();
  }

  lemma ArrivedRun(first: Fact, second: Fact)
    requires first.Fill? && second.Fill? && first.orderId == second.orderId == Uuid(2) && first.eventId != second.eventId
    ensures Legal(START, Arriving(first, second))
    ensures RunAll(START, Arriving(first, second)).Journal() == EMPTY.(requests := [BOUGHT], facts := [first, second])
  {
    hide Ingest, RunAll, Legal;
    PlacedRun();
    OneMore(START, PLACED, DoIngest(first));
    OneMore(START, PLACED + [DoIngest(first)], DoIngest(second));
    Filled(EMPTY.(requests := [BOUGHT]), first);
    Filled(EMPTY.(requests := [BOUGHT], facts := [first]), second);
    assert [first] + [second] == [first, second] && [] + [first] == [first];
  }

  lemma FirstIsActive(first: Fact, second: Fact)
    requires first.Fill? && second.Fill? && first.orderId == second.orderId == Uuid(2) && first.version == second.version
    ensures View([first, second], BOUGHT).active == Some(first.remaining)
  {
    hide View;
    var facts := [first, second];
    assert first in facts && HasFill(facts, Uuid(2));
    BroughtForwardIsActive(facts, facts, BOUGHT, first);
  }

  /** The runs are legal and hold the same request and the same evidence, and the order is active at 5 in
      the one and at 3 in the other. */
  lemma ArrivalDecides()
    ensures Legal(START, Arriving(FIVE_LEFT, THREE_LEFT)) && Legal(START, Arriving(THREE_LEFT, FIVE_LEFT))
    ensures var j, k := RunAll(START, Arriving(FIVE_LEFT, THREE_LEFT)).Journal(), RunAll(START, Arriving(THREE_LEFT, FIVE_LEFT)).Journal();
            && j.requests == k.requests == [BOUGHT] && multiset(j.facts) == multiset(k.facts)
            && View(j.facts, BOUGHT).active == Some(5) && View(k.facts, BOUGHT).active == Some(3)
            && !Decisive(j.facts, BOUGHT.orderId)
  {
    hide RunAll, Legal, View, Decisive;
    ArrivedRun(FIVE_LEFT, THREE_LEFT);
    ArrivedRun(THREE_LEFT, FIVE_LEFT);
    FirstIsActive(FIVE_LEFT, THREE_LEFT);
    FirstIsActive(THREE_LEFT, FIVE_LEFT);
    assert [FIVE_LEFT, THREE_LEFT] == [FIVE_LEFT] + [THREE_LEFT] && [THREE_LEFT, FIVE_LEFT] == [THREE_LEFT] + [FIVE_LEFT];
    TwoDecide();
  }

  lemma TwoDecide()
    ensures !Decisive([FIVE_LEFT, THREE_LEFT], BOUGHT.orderId)
  {
    var facts := [FIVE_LEFT, THREE_LEFT];
    assert facts[0] in facts && facts[1] in facts;
    assert Deciding(facts, Uuid(2), FIVE_LEFT) && Deciding(facts, Uuid(2), THREE_LEFT);
  }
}
