/** Exactly which evidence is taken, told in the requests it names and the facts already there. */
module Correlation {
  import opened Basics
  import opened Models
  import opened Ownership
  import opened QueryEvidence
  import opened Outcomes
  import opened Projection
  import opened Validation
  import opened Steps
  import opened LedgerSpec
  import opened Oversell
  import opened Runs
  import opened Meaning
  import opened StopFires
  import opened Admission
  import opened Claims
  import opened Readiness
  import Dispatch

  /** The accepted request that the evidence names. */
  ghost predicate Accepted(j: Journal, rid: Id, r: Request) { r in j.requests && r.requestId == rid && r.decision.Accepted? }

  ghost predicate NoEffectYet(facts: seq<Fact>, r: Request) {
    forall g :: g in facts && About(g, r) ==> !g.Amended? && !g.Cancelled?
  }

  ghost predicate HeardOf(facts: seq<Fact>, r: Request) { exists g :: g in facts && About(g, r) }

  /** The last boundary of the request. */
  ghost predicate LastSeen(facts: seq<Fact>, r: Request, i: int) {
    && 0 <= i < |facts| && facts[i].Transport? && facts[i].requestId == r.requestId
    && forall k :: i < k < |facts| && facts[k].Transport? ==> facts[k].requestId != r.requestId
  }

  /** A call that is in doubt, of which nothing was executed and which was not seen to return. */
  ghost predicate MayBeUnsent(facts: seq<Fact>, r: Request) {
    && InDoubt(facts, r) && (forall g :: g in facts ==> !ExecutedBy(g, r))
    && exists i :: LastSeen(facts, r, i) && !facts[i].state.SENT?
  }

  /** Every accepted request acknowledged under the broker's number is of this order, and one at least is. */
  ghost predicate LeadsTo(j: Journal, brokerOrderNo: string, o: Request) {
    && o in j.requests && o.command.New?
    && (exists t :: AcknowledgedUnder(j, brokerOrderNo, t))
    && forall t :: AcknowledgedUnder(j, brokerOrderNo, t) ==> t.orderId == o.orderId
  }

  ghost predicate AcknowledgedUnder(j: Journal, brokerOrderNo: string, t: Request) {
    && t in j.requests && t.decision.Accepted?
    && exists f :: f in j.facts && f.Ack? && f.brokerOrderNo == brokerOrderNo && f.requestId == t.requestId
  }

  /** The execution that the quarantined one stands for. */
  ghost predicate StandsFor(j: Journal, qid: Id, q: Fact, o: Request, d: Fact) {
    && q in j.facts && q.QuarantinedFill? && q.eventId == qid
    && LeadsTo(j, q.brokerOrderNo, o) && o.command.symbol == q.symbol
    && d == Fill(Uuid5(qid, "linked-fill"), o.orderId, q.version, q.remaining, q.qty, None, None)
  }

  ghost predicate Closable(j: Journal, f: Fact)
    requires f.Reconciled?
  {
    && (exists d :: d in j.facts && d.Discrepancy? && d.eventId == f.discrepancyId && d.symbol == f.symbol)
    && (forall g :: g in j.facts && g.Reconciled? ==> g.discrepancyId != f.discrepancyId)
    && j.Revision() == f.reviewedRevision == f.query.revisionAtFinish && f.query.Complete()
    && f.query.observedManaged == f.observedManaged == Managed(j, f.symbol)
    && forall r :: r in j.requests && r.command.symbol == f.symbol ==> Resolved(j.facts, r) && Uncontradicted(j, r)
  }

  ghost predicate Uncontradicted(j: Journal, r: Request) {
    forall o :: o in j.requests && o.command.New? && o.orderId == r.orderId ==> !View(j.facts, o).reconciliationRequired
  }

  /** The evidence that is taken. */
  ghost predicate Fits(j: Journal, f: Fact) {
    match f
    case Fill(_, oid, _, _, _, _, _) => exists r :: r in j.requests && r.command.New? && r.orderId == oid
    case Ack(_, rid, _) => exists r :: Accepted(j, rid, r)
    case Transport(_, rid, _) => exists r :: Accepted(j, rid, r)
    case Amended(_, oid, _, _, rid, delta) =>
      exists r :: Accepted(j, rid, r) && r.command.Amend? && r.orderId == oid && r.command.qtyDelta == delta && NoEffectYet(j.facts, r)
    case Cancelled(_, oid, _, _, rid, qty) =>
      exists r :: Accepted(j, rid, r) && r.command.Cancel? && r.orderId == oid && qty <= r.command.cancelQty && NoEffectYet(j.facts, r)
    case SendFailed(_, rid, proof, _) =>
      exists r :: Accepted(j, rid, r) && if proof.NotInvoked? then Untouched(j.facts, r) else MayBeUnsent(j.facts, r)
    case Rejected(_, rid, _) => exists r :: Accepted(j, rid, r) && HeardOf(j.facts, r)
    case EffectRejected(_, rid, _) => exists r :: Accepted(j, rid, r) && HeardOf(j.facts, r) && r.command.IsChange()
    case Discrepancy(_, _, _) => true
    case QuarantinedFill(_, _, _, _, _, _) => true
    case QuarantineReleased(_, qid, fid, _) =>
      && (exists q, o, d :: StandsFor(j, qid, q, o, d) && d in j.facts && fid == d.eventId)
      && forall g :: g in j.facts && g.QuarantineReleased? ==> g.quarantineId != qid
    case Reconciled(_, _, _, _, _, _, _) => Closable(j, f)
  }

  lemma AcceptedMeans(j: Journal, rid: Id, r: Request)
    requires WellFormed(j) && Accepted(j, rid, r)
    ensures AcceptedRequest(j, rid) == Ok(r)
  {
    hide WellFormed;
    Lookup(j, r);
  }

  lemma NoneAccepted(j: Journal, rid: Id)
    ensures AcceptedRequest(j, rid).Ok? ==> Accepted(j, rid, AcceptedRequest(j, rid).value)
  {
  }

  lemma EffectMeans(facts: seq<Fact>, r: Request)
    requires r.command.IsChange()
    ensures Status(facts, r).effect == Some(CONFIRMED) <==> !NoEffectYet(facts, r)
  {
    hide LastBoundary;
  }

  lemma {:induction false} LastSeenIs(facts: seq<Fact>, r: Request)
    ensures forall i :: LastSeen(facts, r, i) ==> LastBoundary(facts, r.requestId) == Some(facts[i].state)
    ensures LastBoundary(facts, r.requestId).Some? ==> exists i :: LastSeen(facts, r, i)
  {
    if |facts| > 0 {
      var n := |facts| - 1;
      LastSeenIs(facts[..n], r);
      if facts[n].Transport? && facts[n].requestId == r.requestId {
        assert LastSeen(facts, r, n);
      } else {
        assert forall i :: LastSeen(facts, r, i) ==> LastSeen(facts[..n], r, i);
        assert forall i :: LastSeen(facts[..n], r, i) ==> LastSeen(facts, r, i);
      }
    }
  }

  lemma UnsentMeans(facts: seq<Fact>, r: Request)
    ensures Status(facts, r).transport.IntentPersisted? && !Status(facts, r).positiveEvidence <==> Untouched(facts, r)
    ensures Status(facts, r).transport.Observed? && !Status(facts, r).transport.state.SENT? && !Status(facts, r).positiveEvidence
       <==> MayBeUnsent(facts, r)
  {
    hide Status, LastSeen, Gather;
    ObservedIsDoubt(facts, r);
    IntentIsUntouched(facts, r);
    BoundaryShown(facts, r);
    LastSeenIs(facts, r);
  }

  lemma BoundaryShown(facts: seq<Fact>, r: Request)
    ensures Status(facts, r).transport.Observed? ==> LastBoundary(facts, r.requestId) == Some(Status(facts, r).transport.state)
  {
  }

  lemma RequestEvidence(j: Journal, f: Fact)
    requires WellFormed(j) && f.NamesRequest()
    ensures CheckFact(j, f).Ok? <==> Fits(j, f)
  {
    hide WellFormed, Status, NoEffectYet, Untouched, MayBeUnsent, HeardOf, AcceptedRequest, Accepted;
    var found := AcceptedRequest(j, f.requestId);
    NoneAccepted(j, f.requestId);
    AcceptedIs(j, f.requestId);
    forall r | Accepted(j, f.requestId, r) ensures found == Ok(r) { AcceptedMeans(j, f.requestId, r); }
    if found.Ok? {
      var r := found.value;
      UnsentMeans(j.facts, r);
      IntentIsUntouched(j.facts, r);
      HeardMeans(j.facts, r);
      if r.command.IsChange() { EffectMeans(j.facts, r); }
    }
  }

  lemma AcceptedIs(j: Journal, rid: Id)
    ensures forall r :: Accepted(j, rid, r) ==> r.requestId == rid && r.decision.Accepted?
  {
  }

  lemma HeardMeans(facts: seq<Fact>, r: Request)
    ensures HeardOf(facts, r) <==> !Status(facts, r).transport.IntentPersisted?
  {
    hide Status;
    IntentIsUntouched(facts, r);
  }

  /* ----- quarantine ----- */

  lemma TargetsAre(j: Journal, brokerOrderNo: string)
    ensures forall t :: t in Select(AcknowledgedAs(j.facts, brokerOrderNo), j.requests) <==> AcknowledgedUnder(j, brokerOrderNo, t)
  {
    SelectMember(AcknowledgedAs(j.facts, brokerOrderNo), j.requests);
  }

  /** A quarantined execution is linked if and only if its broker number leads to one order of its symbol, and
      then to the fill of that order which it stands for. */
  lemma LinkedIff(j: Journal, qid: Id)
    requires WellFormed(j)
    ensures LinkedFill(j, qid).Ok? <==> exists q, o, d :: StandsFor(j, qid, q, o, d)
    ensures forall q, o, d :: StandsFor(j, qid, q, o, d) ==> LinkedFill(j, qid) == Ok(d)
  {
    hide WellFormed, AcknowledgedUnder, Select;
    forall q, o, d | StandsFor(j, qid, q, o, d) ensures LinkedFill(j, qid) == Ok(d) { StandsIsLinked(j, qid, q, o, d); }
    if LinkedFill(j, qid).Ok? {
      var q := First(QuarantineWith(qid), j.facts).value;
      var targets := Select(AcknowledgedAs(j.facts, q.brokerOrderNo), j.requests);
      TargetsAre(j, q.brokerOrderNo);
      assert targets[0] in targets;
      var o := Initial(j.requests, targets[0].orderId).value;
      assert StandsFor(j, qid, q, o, LinkedFill(j, qid).value);
    }
  }

  lemma StandsIsLinked(j: Journal, qid: Id, q: Fact, o: Request, d: Fact)
    requires WellFormed(j) && StandsFor(j, qid, q, o, d)
    ensures LinkedFill(j, qid) == Ok(d)
  {
    hide WellFormed, AcknowledgedUnder, Select;
    Dispatch.WellFormedDistinct(j);
    forall x | x in j.facts && QuarantineWith(qid)(x) ensures x == q { SameEvent(j, x, q); }
    FirstOnly(QuarantineWith(qid), j.facts, q);
    var targets := Select(AcknowledgedAs(j.facts, q.brokerOrderNo), j.requests);
    TargetsAre(j, q.brokerOrderNo);
    var t :| AcknowledgedUnder(j, q.brokerOrderNo, t);
    assert t in targets && targets[0] in targets;
    Lookup(j, o);
  }

  lemma ReleaseEvidence(j: Journal, f: Fact)
    requires WellFormed(j) && f.QuarantineReleased?
    ensures CheckFact(j, f).Ok? <==> Fits(j, f)
  {
    hide WellFormed, LinkedFill, StandsFor;
    LinkedIff(j, f.quarantineId);
    StandsAs(j, f.quarantineId);
  }

  lemma StandsAs(j: Journal, qid: Id)
    ensures forall q, o, d :: StandsFor(j, qid, q, o, d) ==> d.Fill?
  {
  }

  /* ----- reconciliation ----- */

  lemma KeepsOpenMeans(j: Journal, r: Request)
    requires WellFormed(j) && r in j.requests
    ensures !KeepsOpen(j, r) <==> Resolved(j.facts, r) && Uncontradicted(j, r)
  {
    hide WellFormed, Status, View, Resolved;
    ResolvedMeans(j.facts, r);
    var o := OpenerOf(j, r);
    forall x | x in j.requests && x.command.New? && x.orderId == r.orderId ensures x == o { Lookup(j, x); }
  }

  lemma ClosureEvidence(j: Journal, f: Fact)
    requires WellFormed(j) && f.Reconciled?
    ensures CheckFact(j, f).Ok? <==> Fits(j, f)
  {
    hide WellFormed, KeepsOpen, Resolved, Uncontradicted, Managed, Reserved, Discrepant, AnySellUnclear, LastControl;
    forall r | r in j.requests ensures !KeepsOpen(j, r) <==> Resolved(j.facts, r) && Uncontradicted(j, r) { KeepsOpenMeans(j, r); }
    ManagedIs(j, f.symbol);
  }

  lemma ManagedIs(j: Journal, symbol: string)
    ensures PortfolioOf(j, symbol).managed == Managed(j, symbol)
  {
    hide Managed, Reserved, Discrepant, AnySellUnclear, LastControl;
  }

  /** New evidence is taken if and only if it fits, and is then journalled as it is. */
  lemma EvidenceTakenIff(s: Session, f: Fact)
    requires Invariant(s.journal) && forall g :: g in s.journal.facts ==> g.eventId != f.eventId
    ensures var j, o := s.journal, Ingest(s, f);
            && (o.result == Ok(true) <==> Fits(j, f)) && (o.result == Ok(true) || (o.result.Err? && o.session == s))
            && (Fits(j, f) ==> o.session == s.(journal := j.(facts := j.facts + [f], assignments := o.session.journal.assignments)))
  {
    hide Invariant, WellFormed, Fits, CheckFact, AssignmentsFor;
    var j := s.journal;
    Parts(j);
    PlainEvidence(j, f);
    if f.NamesRequest() { RequestEvidence(j, f); }
    if f.QuarantineReleased? { ReleaseEvidence(j, f); }
    if f.Reconciled? { ClosureEvidence(j, f); }
    assert First(EventIs(f.eventId), j.facts).None?;
  }

  lemma PlainEvidence(j: Journal, f: Fact)
    ensures f.Fill? || f.Discrepancy? || f.QuarantinedFill? ==> (CheckFact(j, f).Ok? <==> Fits(j, f))
  {
    hide View;
  }

  /* ----- retiring an intention, releasing a quarantine ----- */

  /** An intention is retired if and only if the review is of the current state, in a reviewed session, and
      nothing was ever heard of the accepted request. */
  lemma DiscardedIff(s: Session, rid: Id, reason: string, revision: int)
    requires Invariant(s.journal) && forall g :: g in s.journal.facts ==> g.eventId != Uuid5(rid, "local-discard")
    ensures var j, o := s.journal, Discard(s, rid, reason, revision);
            && (o.result == Ok(true) <==> s.ready && revision == j.Revision() && exists r :: Accepted(j, rid, r) && Untouched(j.facts, r))
            && o.session == s.(journal := j.(facts := j.facts
                 + if o.result == Ok(true) then [SendFailed(Uuid5(rid, "local-discard"), rid, NotInvoked, reason)] else []))
  {
    hide Invariant, WellFormed, CheckFact, Untouched;
    var j, f := s.journal, DiscardFact(rid, reason);
    Parts(j);
    RequestEvidence(j, f);
    assert First(EventIs(f.eventId), j.facts).None?;
    assert j.facts + [] == j.facts && j.assignments + [] == j.assignments;
  }

  ghost predicate Unreleased(j: Journal, qid: Id) {
    forall g :: g in j.facts && g.QuarantineReleased? ==> g.quarantineId != qid
  }

  /** A quarantined execution may be released: it stands for this fill, which is there already or can be. */
  ghost predicate Releasable(j: Journal, qid: Id, d: Fact) {
    && (exists q, o :: StandsFor(j, qid, q, o, d)) && Unreleased(j, qid)
    && (d in j.facts || forall g :: g in j.facts ==> g.eventId != d.eventId)
  }

  lemma LinkedStays(j: Journal, k: Journal, qid: Id, d: Fact)
    requires k.requests == j.requests && k.facts == j.facts + [d] && d.Fill?
    requires exists q, o :: StandsFor(j, qid, q, o, d)
    ensures exists q, o :: StandsFor(k, qid, q, o, d)
  {
    var q, o :| StandsFor(j, qid, q, o, d);
    forall t ensures AcknowledgedUnder(j, q.brokerOrderNo, t) <==> AcknowledgedUnder(k, q.brokerOrderNo, t) {}
    assert StandsFor(k, qid, q, o, d);
  }

  lemma LinkedFits(j: Journal, qid: Id, d: Fact)
    requires WellFormed(j) && exists q, o :: StandsFor(j, qid, q, o, d)
    ensures d.Fill? && CheckFact(j, d).Ok? && LinkedFill(j, qid) == Ok(d) && d.eventId == Uuid5(qid, "linked-fill")
  {
    hide WellFormed, AcknowledgedUnder, LinkedFill, View;
    var q, o :| StandsFor(j, qid, q, o, d);
    LinkedIff(j, qid);
  }

  lemma AddedFill(j: Journal, d: Fact)
    requires WellFormed(j) && d.Fill? && CheckFact(j, d).Ok? && forall g :: g in j.facts ==> g.eventId != d.eventId
    ensures var k := Commit(j, AddFact(d, [])); WellFormed(k) && k == j.(facts := j.facts + [d])
  {
    hide WellFormed, CheckFact;
    WellFormedKept(j, AddFact(d, []));
    assert j.assignments + [] == j.assignments;
  }

  /** The release passes its guard once the fill is there. */
  lemma ReleaseGoes(j: Journal, qid: Id, d: Fact, proof: string)
    requires WellFormed(j) && d in j.facts && exists q, o :: StandsFor(j, qid, q, o, d)
    ensures CheckFact(j, ReleaseFact(qid, proof)).Ok? <==> Unreleased(j, qid)
  {
    hide WellFormed, LinkedFill, CheckFact, StandsFor;
    LinkedFits(j, qid, d);
    ReleaseEvidence(j, ReleaseFact(qid, proof));
    if Unreleased(j, qid) {
      var q, o :| StandsFor(j, qid, q, o, d);
      assert Fits(j, ReleaseFact(qid, proof));
    }
  }

  /** The world after a release: the derived fill, unless it was there, and the release are committed. */
  function Released(j: Journal, qid: Id, d: Fact, proof: string): Journal {
    j.(facts := j.facts + (if d in j.facts then [] else [d])
                + [QuarantineReleased(Uuid5(qid, "release"), qid, Uuid5(qid, "linked-fill"), proof)])
  }

  lemma ReprocessLinked(s: Session, qid: Id, d: Fact, proof: string, revision: int)
    requires Invariant(s.journal) && forall g :: g in s.journal.facts ==> g.eventId != Uuid5(qid, "release")
    requires exists q, o :: StandsFor(s.journal, qid, q, o, d)
    ensures var j, o := s.journal, Reprocess(s, qid, proof, revision);
            && (o.result == Ok(true) <==> revision == j.Revision() && Releasable(j, qid, d))
            && o.session == s.(journal := if o.result == Ok(true) then Released(j, qid, d, proof) else j)
  {
    hide Invariant, WellFormed, CheckFact, StandsFor, LinkedFill;
    var j, f := s.journal, ReleaseFact(qid, proof);
    Parts(j);
    LinkedFits(j, qid, d);
    assert First(EventIs(f.eventId), j.facts).None?;
    ReplayedMeans(j, d);
    if d in j.facts {
      ReleaseGoes(j, qid, d, proof);
      assert j.facts + [] + [f] == j.facts + [f];
    } else if forall g :: g in j.facts ==> g.eventId != d.eventId {
      var k := Commit(j, AddFact(d, []));
      AddedFill(j, d);
      LinkedStays(j, k, qid, d);
      ReleaseGoes(k, qid, d, proof);
    }
    assert j.assignments + [] == j.assignments;
  }

  lemma ReplayedMeans(j: Journal, f: Fact)
    requires DistinctEvents(j)
    ensures Replayed(j, f) == Ok(true) <==> f in j.facts
    ensures Replayed(j, f) == Ok(false) <==> forall g :: g in j.facts ==> g.eventId != f.eventId
  {
    if f in j.facts {
      forall x | x in j.facts && EventIs(f.eventId)(x) ensures x == f { SameEvent(j, x, f); }
      FirstOnly(EventIs(f.eventId), j.facts, f);
    }
  }

  /** A quarantined execution is released if and only if the review is of the current state, its broker number
      leads to one order of its symbol, its derived fill is there or can be, and it was not released before. */
  lemma ReleasedIff(s: Session, qid: Id, proof: string, revision: int)
    requires Invariant(s.journal) && forall g :: g in s.journal.facts ==> g.eventId != Uuid5(qid, "release")
    ensures var j, o := s.journal, Reprocess(s, qid, proof, revision);
            && (o.result == Ok(true) <==> revision == j.Revision() && exists d :: Releasable(j, qid, d))
            && (o.result != Ok(true) ==> o.session == s)
            && forall d :: Releasable(j, qid, d) && o.result == Ok(true) ==> o.session == s.(journal := Released(j, qid, d, proof))
  {
    hide Invariant, WellFormed, StandsFor, LinkedFill, Reprocess, Released, Unreleased;
    var j := s.journal;
    Parts(j);
    LinkedIff(j, qid);
    if LinkedFill(j, qid).Ok? {
      var q, o, d :| StandsFor(j, qid, q, o, d);
      ReprocessLinked(s, qid, d, proof, revision);
      forall x | Releasable(j, qid, x) ensures x == d {
        var q', o' :| StandsFor(j, qid, q', o', x);
      }
    } else {
      UnlinkedIsRefused(s, qid, proof, revision);
    }
  }

  lemma UnlinkedIsRefused(s: Session, qid: Id, proof: string, revision: int)
    requires LinkedFill(s.journal, qid).Err? && forall g :: g in s.journal.facts ==> g.eventId != Uuid5(qid, "release")
    ensures Reprocess(s, qid, proof, revision).result.Err? && Reprocess(s, qid, proof, revision).session == s
  {
    hide LinkedFill, CheckFact;
    assert First(EventIs(Uuid5(qid, "release")), s.journal.facts).None?;
  }

  /* ----- the effect of a change, and evidence seen before ----- */

  ghost predicate Confirming(facts: seq<Fact>, r: Request) {
    exists g :: g in facts && About(g, r) && (g.Amended? || g.Cancelled?)
  }

  ghost predicate Declining(facts: seq<Fact>, r: Request) {
    exists g :: g in facts && About(g, r) && (g.SendFailed? || g.Rejected? || g.EffectRejected?)
  }

  /** The call is in doubt, and a recovery or its caller said so. */
  ghost predicate SaidUnknown(facts: seq<Fact>, r: Request) {
    InDoubt(facts, r) && exists i :: LastSeen(facts, r, i) && facts[i].state in {UNKNOWN, RECONCILING}
  }

  /** Of a change the confirmation counts first, then any refusal, then that its call is unknown. */
  lemma EffectIs(facts: seq<Fact>, r: Request)
    ensures Status(facts, r).effect
         == if !r.command.IsChange() then None
            else if Confirming(facts, r) then Some(CONFIRMED)
            else if Declining(facts, r) then Some(REFUSED)
            else if SaidUnknown(facts, r) then Some(UNKNOWN_EFFECT) else Some(PENDING)
  {
    hide LastSeen, LastBoundary;
    ObservedIsDoubt(facts, r);
    LastSeenIs(facts, r);
    BoundaryShown(facts, r);
    assert Confirming(facts, r) <==> Confirmed(facts, r.requestId);
    assert Declining(facts, r)
           <==> Failed(facts, r.requestId) || Refused(facts, r.requestId) || EffectRefused(facts, r.requestId);
  }

  /** Evidence journalled before is taken once; other content under its identifier is refused. */
  lemma KnownEventAnswers(s: Session, f: Fact, known: Fact)
    requires WellFormed(s.journal) && known in s.journal.facts && known.eventId == f.eventId
    ensures Ingest(s, f) == Outcome(if f == known then Ok(false) else Err("CONFLICT_EVENT_ID_MISMATCH"), s)
  {
    hide WellFormed, CheckFact;
    Dispatch.WellFormedDistinct(s.journal);
    forall x | x in s.journal.facts && EventIs(f.eventId)(x) ensures x == known { SameEvent(s.journal, x, known); }
    FirstOnly(EventIs(f.eventId), s.journal.facts, known);
  }
}
