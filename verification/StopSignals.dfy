/** Latches are permanent and unique, quote cursors only advance, quarantined quantity is
    counted once and a discrepancy is closed once. */
module StopSignals {
  import opened Basics
  import opened Models
  import opened Outcomes
  import opened Projection
  import opened Validation
  import opened Steps
  import opened StopEvaluation
  import opened LedgerSpec

  /* ----- latches and cursors ----- */

  ghost predicate OneLatchPerSymbol(j: Journal) {
    forall i, k :: 0 <= i < k < |j.latches| ==> j.latches[i].symbol != j.latches[k].symbol
  }

  lemma OneLatchKept(j: Journal, s: Step)
    requires OneLatchPerSymbol(j) && Allowed(j, s)
    ensures OneLatchPerSymbol(Commit(j, s))
  {
    hide CheckFact, Admissible, AppliedVersion;
  }

  /** k is later than j: nothing is lost, latched symbols gained no buy, cursors did not go back. */
  ghost predicate Follows(j: Journal, k: Journal) {
    && Grows(j, k)
    && (forall i :: |j.requests| <= i < |k.requests| && k.requests[i].command.New? && k.requests[i].command.side.Buy?
          ==> !Latched(j, k.requests[i].command.symbol))
    && (forall symbol :: symbol in j.quotes ==>
          && symbol in k.quotes
          && j.quotes[symbol].receivedAt <= k.quotes[symbol].receivedAt
          && j.quotes[symbol].evaluatedAt <= k.quotes[symbol].evaluatedAt)
  }

  lemma FollowsStep(j: Journal, s: Step)
    requires Allowed(j, s)
    ensures Follows(j, Commit(j, s))
  {
    hide CheckFact, CheckCommand, CheckStopLink, AppliedVersion;
  }

  lemma FollowsTransitive(j: Journal, k: Journal, l: Journal)
    requires Follows(j, k) && Follows(k, l)
    ensures Follows(j, l)
  {
    forall i | |j.requests| <= i < |l.requests| && l.requests[i].command.New? && l.requests[i].command.side.Buy?
      ensures !Latched(j, l.requests[i].command.symbol)
    {
      if i < |k.requests| { assert l.requests[i] == k.requests[i]; }
    }
  }

  /** An accepted quote was received strictly after, and evaluated no earlier than, every quote
      accepted before it. */
  lemma AcceptedQuotesAdvance(earlier: Journal, s: Session, symbol: string, q: Quote, t: ObserveAt)
    requires Follows(earlier, s.journal)
    ensures var o := ProcessQuote(s, symbol, q, t);
            o.result.Ok? && o.result.value.accepted && symbol in earlier.quotes ==>
              earlier.quotes[symbol].receivedAt < q.receivedAt && earlier.quotes[symbol].evaluatedAt <= t.now
  {
    hide EvaluateQuote, Latched;
  }

  /* ----- what latches and assignments stand on ----- */

  /** The rule of a latch, and for a cost stop a buy of the symbol whose price the quote had dropped from. */
  ghost predicate Justifies(j: Journal, l: StopLatch, b: StopBinding) {
    && Carries(l, b)
    && (b.kind.PriceAtOrBelow? ==> l.quotePrice <= b.threshold)
    && (b.kind.AverageCostDrop? ==> DroppedFrom(j, l, 1.0 - b.threshold))
  }

  ghost predicate DroppedFrom(j: Journal, l: StopLatch, share: real) {
    exists f :: f in j.facts && PaidBuy(j, l.symbol, f) && l.quotePrice <= f.price.value * share
  }

  ghost predicate Justified(j: Journal, l: StopLatch) { exists b :: b in j.bindings && Justifies(j, l, b) }

  ghost predicate LatchesJustified(j: Journal) { forall l :: l in j.latches ==> Justified(j, l) }

  lemma MeetingJustifies(j: Journal, l: StopLatch)
    requires MeetsRule(j, l)
    ensures Justified(j, l)
  {
    hide ConfirmedCostBasis, PaidBuy;
    var b :| b in j.bindings && Meets(j, l, b);
    if b.kind.AverageCostDrop? { SomeBuyPaidIt(j, l.symbol, 1.0 - b.threshold, l.quotePrice); }
    assert Justifies(j, l, b);
  }

  lemma JustifiedLater(j: Journal, k: Journal, l: StopLatch)
    requires Grows(j, k) && Justified(j, l)
    ensures Justified(k, l)
  {
    var b :| b in j.bindings && Justifies(j, l, b);
    if b.kind.AverageCostDrop? {
      var f :| f in j.facts && PaidBuy(j, l.symbol, f) && l.quotePrice <= f.price.value * (1.0 - b.threshold);
      var r :| r in j.requests && r.command.New? && r.command.symbol == l.symbol && r.orderId == f.orderId && r.command.side.Buy?;
      assert r in k.requests && f in k.facts;
      assert PaidBuy(k, l.symbol, f);
    }
    assert b in k.bindings && Justifies(k, l, b);
  }

  lemma LatchesJustifiedKept(j: Journal, s: Step)
    requires LatchesJustified(j) && Allowed(j, s)
    ensures LatchesJustified(Commit(j, s))
  {
    hide CheckFact, Admissible, AppliedVersion, Justified, MeetsRule, Assigns;
    var k := Commit(j, s);
    forall l | l in k.latches ensures Justified(k, l) {
      if l !in j.latches { MeetingJustifies(j, l); }
      JustifiedLater(j, k, l);
    }
  }

  ghost predicate StandsOn(a: StopAssignment, f: Fact, r: Request, b: StopBinding) {
    && f.Fill? && f.eventId == a.fillEventId && f.qty == a.qty
    && r.command.New? && r.command.side.Buy? && r.orderId == f.orderId && r.command.symbol == a.symbol
    && b.symbol == a.symbol && b.version == a.ruleVersion == r.command.configVersion
  }

  /** An assignment is of one buy fill, in full, to the rule bound to its order's revision. */
  ghost predicate Stands(j: Journal, a: StopAssignment) {
    exists f, r, b :: f in j.facts && r in j.requests && b in j.bindings && StandsOn(a, f, r, b)
  }

  ghost predicate AssignmentsStand(j: Journal) {
    && (forall a :: a in j.assignments ==> Stands(j, a))
    && forall i, k :: 0 <= i < k < |j.assignments| ==> j.assignments[i].fillEventId != j.assignments[k].fillEventId
  }

  lemma StandsLater(j: Journal, k: Journal, a: StopAssignment)
    requires Grows(j, k) && Stands(j, a)
    ensures Stands(k, a)
  {
    hide StandsOn;
    var f, r, b :| f in j.facts && r in j.requests && b in j.bindings && StandsOn(a, f, r, b);
    assert f in k.facts && r in k.requests && b in k.bindings;
  }

  lemma NewAssignmentStands(j: Journal, f: Fact, given: seq<StopAssignment>)
    requires Assigns(j, f, given) && |given| > 0
    ensures |given| == 1 && given[0].fillEventId == f.eventId
    ensures Stands(Commit(j, AddFact(f, given)), given[0])
  {
    var r, b :| && r in j.requests && r.command.New? && r.command.side.Buy? && r.orderId == f.orderId
                && b in j.bindings && b.symbol == r.command.symbol && b.version == r.command.configVersion
                && given == [StopAssignment(f.eventId, r.command.symbol, f.qty, b.version)];
    assert StandsOn(given[0], f, r, b);
  }

  lemma AssignmentsStandKept(j: Journal, s: Step)
    requires AssignmentsStand(j) && Allowed(j, s)
    ensures AssignmentsStand(Commit(j, s))
  {
    hide CheckFact, Admissible, AppliedVersion, Assigns, StandsOn, MeetsRule;
    var k := Commit(j, s);
    if s.AddFact? && |s.given| > 0 { NewAssignmentStands(j, s.fact, s.given); }
    forall a | a in k.assignments ensures Stands(k, a) {
      if a in j.assignments { StandsLater(j, k, a); }
    }
    forall i | 0 <= i < |j.assignments|
      ensures s.AddFact? ==> j.assignments[i].fillEventId != s.fact.eventId
    {
      StandsNames(j, j.assignments[i]);
    }
  }

  lemma StandsNames(j: Journal, a: StopAssignment)
    requires Stands(j, a)
    ensures exists f :: f in j.facts && f.eventId == a.fillEventId
  {
  }

  /* ----- quarantine ----- */

  /** A release stands on its quarantined source and on the fill derived from it. */
  ghost predicate Sourced(j: Journal, f: Fact)
    requires f.QuarantineReleased?
  {
    && f.fillId == Uuid5(f.quarantineId, "linked-fill")
    && exists q, d :: q in j.facts && d in j.facts && q.QuarantinedFill? && q.eventId == f.quarantineId && DerivedFrom(d, q)
  }

  ghost predicate DerivedFrom(d: Fact, q: Fact) {
    && d.Fill? && q.QuarantinedFill? && d.eventId == Uuid5(q.eventId, "linked-fill")
    && d.qty == q.qty && d.remaining == q.remaining && d.version == q.version
  }

  ghost predicate CountedOnce(j: Journal) {
    && (forall f :: f in j.facts && f.QuarantineReleased? ==> Sourced(j, f))
    && (forall i, k :: 0 <= i < k < |j.facts| && j.facts[i].QuarantineReleased? && j.facts[k].QuarantineReleased? ==>
          j.facts[i].quarantineId != j.facts[k].quarantineId)
  }

  lemma LinkedFillDerives(j: Journal, qid: Id)
    requires LinkedFill(j, qid).Ok?
    ensures exists q :: q in j.facts && q.QuarantinedFill? && q.eventId == qid && DerivedFrom(LinkedFill(j, qid).value, q)
  {
    hide Initial, Select;
    var q := First(QuarantineWith(qid), j.facts).value;
    assert q in j.facts && DerivedFrom(LinkedFill(j, qid).value, q);
  }

  lemma ReleaseIsSourced(j: Journal, f: Fact)
    requires f.QuarantineReleased? && CheckFact(j, f).Ok?
    ensures Sourced(j, f)
    ensures forall g :: g in j.facts && g.QuarantineReleased? ==> g.quarantineId != f.quarantineId
  {
    hide LinkedFill;
    LinkedFillDerives(j, f.quarantineId);
  }

  lemma CountedOnceKept(j: Journal, s: Step)
    requires CountedOnce(j) && Allowed(j, s)
    ensures CountedOnce(Commit(j, s))
  {
    hide CheckFact, Admissible, AppliedVersion, DerivedFrom;
    var k := Commit(j, s);
    assert forall f :: f in j.facts ==> f in k.facts;
    if s.AddFact? && s.fact.QuarantineReleased? { ReleaseIsSourced(j, s.fact); }
    forall f | f in k.facts && f.QuarantineReleased? ensures Sourced(k, f) {
      assert Sourced(j, f);
    }
  }

  /** Each released quarantine has one source and one derived fill of its quantity. */
  lemma ReleasedOnce(j: Journal, f: Fact)
    requires DistinctEvents(j) && CountedOnce(j) && f in j.facts && f.QuarantineReleased?
    ensures exists q, d :: q in j.facts && d in j.facts && q.QuarantinedFill? && q.eventId == f.quarantineId && DerivedFrom(d, q)
    ensures forall d :: d in j.facts && d.Fill? && d.eventId == Uuid5(f.quarantineId, "linked-fill") ==>
              exists q :: q in j.facts && DerivedFrom(d, q) && q.eventId == f.quarantineId
    ensures forall g :: g in j.facts && g.QuarantineReleased? && g.quarantineId == f.quarantineId ==> g == f
  {
    assert Sourced(j, f);
    var q, d :| q in j.facts && d in j.facts && q.QuarantinedFill? && q.eventId == f.quarantineId && DerivedFrom(d, q);
    forall e | e in j.facts && e.Fill? && e.eventId == Uuid5(f.quarantineId, "linked-fill")
      ensures DerivedFrom(e, q)
    {
      SameEvent(j, e, d);
    }
  }

  /** Until its release a quarantined fill leaves its symbol nothing to sell and admits no buy. */
  lemma QuarantineBlocks(j: Journal, q: Fact, c: Command)
    requires q in j.facts && q.QuarantinedFill?
    requires forall g :: g in j.facts && g.QuarantineReleased? ==> g.quarantineId != q.eventId
    requires c.New? && c.symbol == q.symbol
    ensures PortfolioOf(j, q.symbol).Available() == 0
    ensures CheckCommand(j, c).Err?
  {
    hide Managed, Reserved, AnyAlarm, AnySellUnclear, LastControl, OpenDiscrepancy;
    assert OpenQuarantine(j.facts, q.symbol);
  }

  /* ----- discrepancies ----- */

  ghost predicate Closes(d: Fact, f: Fact) {
    && d.Discrepancy? && f.Reconciled? && d.eventId == f.discrepancyId && d.symbol == f.symbol
    && f.query.Complete() && f.query.revisionAtFinish == f.reviewedRevision
    && f.query.observedManaged == f.observedManaged
  }

  /** Each closed discrepancy is an earlier one of the same symbol, closed once and on complete evidence
      of the quantity it was closed at. */
  ghost predicate ClosedOnce(j: Journal) {
    && (forall f :: f in j.facts && f.Reconciled? ==> exists d :: d in j.facts && Closes(d, f))
    && (forall i, k :: 0 <= i < k < |j.facts| && j.facts[i].Reconciled? && j.facts[k].Reconciled? ==>
          j.facts[i].discrepancyId != j.facts[k].discrepancyId)
  }

  lemma CheckedClosureCloses(j: Journal, f: Fact)
    requires f.Reconciled? && CheckFact(j, f).Ok?
    ensures exists d :: d in j.facts && Closes(d, f)
    ensures forall g :: g in j.facts && g.Reconciled? ==> g.discrepancyId != f.discrepancyId
  {
    hide KeepsOpen, PortfolioOf;
    var d :| d in j.facts && d.Discrepancy? && d.eventId == f.discrepancyId && d.symbol == f.symbol;
    assert Closes(d, f);
  }

  lemma ClosedOnceKept(j: Journal, s: Step)
    requires ClosedOnce(j) && Allowed(j, s)
    ensures ClosedOnce(Commit(j, s))
  {
    hide CheckFact, Admissible, AppliedVersion, Closes, Assigns, MeetsRule;
    var k := Commit(j, s);
    assert forall f :: f in j.facts ==> f in k.facts;
    if s.AddFact? && s.fact.Reconciled? { CheckedClosureCloses(j, s.fact); }
    forall f | f in k.facts && f.Reconciled? ensures exists d :: d in k.facts && Closes(d, f) {
      var d :| d in j.facts && Closes(d, f);
    }
  }
}
