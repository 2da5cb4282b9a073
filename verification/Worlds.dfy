/** The ledger, its single dispatcher and crashes as one transition system over operations. */
module Worlds {
  import opened Basics
  import opened Ownership
  import opened Models
  import opened Settings
  import opened Outcomes
  import opened Projection
  import opened Validation
  import opened Steps
  import opened StopEvaluation
  import opened LedgerSpec
  import opened DispatchSpec
  import opened StopSignals
  import opened Runs

  /** A committed session, the claims whose call is still to be made, and every call ever made.
      A crash loses the pending claims and the readiness; commits and calls are for ever. */
  datatype World = World(session: Session, armed: set<Id>, calls: seq<Id>) {
    function Journal(): Journal { session.journal }
  }

  datatype Op =
    | DoAllocate(allocation: Allocation)
    | DoControl(control: Control)
    | DoApplyConfig(symbol: string, expected: int, version: Positive)
    | DoApplyStopConfig(binding: StopBinding, expected: int)
    | DoApplyInbox(scope: Scope, command: ConfigCommand, digest: Digest)
    | DoSubmit(order: Command, now: int, rid: Id, oid: Id)
    | DoIngest(fact: Fact)
    | DoDiscard(rid: Id, reason: string, revision: int)
    | DoReprocess(qid: Id, proof: string, revision: int)
    | DoQuote(symbol: string, quote: Quote, timing: ObserveAt)
    | DoLatch(kind: RuleKind, symbol: string, seen: Option<Quote>, timing: ObserveAt)
    | DoApprove(revision: int)
    | DoClaim(rid: Id, market: Option<MarketSession>, now: int, eid: Id)
    | DoCall(rid: Id)
    | DoRecover(eids: seq<Id>)
    | Crash

  function Perform(w: World, op: Op): World {
    var s := w.session;
    match op
    case DoAllocate(a) => w.(session := Allocate(s, a).session)
    case DoControl(c) => w.(session := SetControl(s, c).session)
    case DoApplyConfig(symbol, expected, version) => w.(session := ApplyConfig(s, symbol, expected, version).session)
    case DoApplyStopConfig(b, expected) => w.(session := ApplyStopConfig(s, b, expected).session)
    case DoApplyInbox(scope, c, digest) => w.(session := ApplyInboxConfig(s, scope, c, digest).session)
    case DoSubmit(c, now, rid, oid) => w.(session := Submit(s, c, now, rid, oid).session)
    case DoIngest(f) => w.(session := Ingest(s, f).session)
    case DoDiscard(rid, reason, revision) => w.(session := Discard(s, rid, reason, revision).session)
    case DoReprocess(qid, proof, revision) => w.(session := Reprocess(s, qid, proof, revision).session)
    case DoQuote(symbol, q, t) => w.(session := ProcessQuote(s, symbol, q, t).session)
    case DoLatch(kind, symbol, q, t) => w.(session := LatchStop(s, kind, symbol, q, t).session)
    case DoApprove(revision) => w.(session := Approve(s, revision).session)
    case DoClaim(rid, market, now, eid) =>
      var o := Claim(s, rid, market, now, eid);
      if o.result == Ok(true) then World(o.session, w.armed + {rid}, w.calls) else w
    case DoCall(rid) => if rid in w.armed then World(s, w.armed - {rid}, w.calls + [rid]) else w
    case DoRecover(eids) =>
      if |eids| == |s.journal.requests| then w.(session := s.(journal := Recover(s.journal, eids))) else w
    case Crash => World(s.(ready := false), {}, w.calls)
  }

  /** Identifiers that uuid4 supplies to the operation have never been used. */
  ghost predicate Fresh(w: World, op: Op) {
    match op
    case DoSubmit(_, _, rid, oid) => NewRequestId(w.Journal(), rid) && NewOrderId(w.Journal(), oid)
    case DoClaim(_, _, _, eid) => NewEventId(w.Journal(), eid)
    case DoRecover(eids) => FreshIds(w.Journal(), eids)
    case _ => true
  }

  function RunAll(w: World, ops: seq<Op>): World {
    if |ops| == 0 then w else Perform(RunAll(w, ops[..|ops| - 1]), ops[|ops| - 1])
  }

  ghost predicate Legal(w: World, ops: seq<Op>) {
    |ops| == 0 || (Legal(w, ops[..|ops| - 1]) && Fresh(RunAll(w, ops[..|ops| - 1]), ops[|ops| - 1]))
  }

  lemma OneMore(w: World, ops: seq<Op>, op: Op)
    ensures RunAll(w, ops + [op]) == Perform(RunAll(w, ops), op)
    ensures Legal(w, ops + [op]) <==> Legal(w, ops) && Fresh(RunAll(w, ops), op)
  {
    hide Perform, Fresh;
    assert (ops + [op])[..|ops|] == ops;
  }

  const START: World := World(Session(EMPTY, false), {}, [])

  lemma SimpleReaches(w: World, op: Op)
    requires op.DoAllocate? || op.DoControl? || op.DoApplyConfig? || op.DoApplyStopConfig? || op.DoApprove?
    ensures Reaches(w.Journal(), Perform(w, op).Journal())
  {
    hide Reaches, PortfolioOf, AppliedVersion, Status;
    var j := w.Journal();
    ReachesSelf(j);
    match op
    case DoAllocate(a) => if First(AllocationOf(a.symbol), j.allocations).None?
                             && !exists r :: r in j.requests && r.command.symbol == a.symbol {
      ReachesStep(j, AddAllocation(a));
    }
    case DoControl(c) => ReachesStep(j, AddControl(c));
    case DoApplyConfig(symbol, expected, version) =>
      if AppliedVersion(j.configs, symbol) == expected < version {
        ConfigReaches(w.session, AppliedConfig(symbol, version, None), []);
      }
    case DoApplyStopConfig(b, expected) =>
      if AppliedVersion(j.configs, b.symbol) == expected < b.version {
        ConfigReaches(w.session, AppliedConfig(b.symbol, b.version, None), [b]);
      }
    case DoApprove(_) =>
  }

  /** Every operation commits allowed steps only. */
  lemma PerformReaches(w: World, op: Op)
    requires WellFormed(w.Journal()) && Fresh(w, op)
    ensures Reaches(w.Journal(), Perform(w, op).Journal())
  {
    hide Reaches, WellFormed, Submit, Ingest, Discard, Reprocess, ProcessQuote, LatchStop, Claim,
         ApplyInboxConfig, Allocate, SetControl, ApplyConfig, ApplyStopConfig, Approve, RecoveryFacts, NewEventId;
    var s := w.session;
    ReachesSelf(s.journal);
    match op
    case DoApplyInbox(scope, c, digest) => InboxReaches(s, scope, c, digest);
    case DoSubmit(c, now, rid, oid) => SubmitReaches(s, c, now, rid, oid);
    case DoIngest(f) => IngestReaches(s, f);
    case DoDiscard(rid, reason, revision) => DiscardReaches(s, rid, reason, revision);
    case DoReprocess(qid, proof, revision) => ReprocessReaches(s, qid, proof, revision);
    case DoQuote(symbol, q, t) => QuoteReaches(s, symbol, q, t);
    case DoLatch(kind, symbol, q, t) => LatchReaches(s, kind, symbol, q, t);
    case DoClaim(rid, market, now, eid) => ClaimReaches(s, rid, market, now, eid);
    case DoRecover(eids) =>
      if |eids| == |s.journal.requests| { RecoverReaches(s.journal, s.journal.requests, eids); }
    case DoCall(_) =>
    case Crash =>
    case _ => SimpleReaches(w, op);
  }

  /** In every run, whatever the order, the replays, the restarts: the invariant of the journal. */
  lemma {:induction false} RunIsGood(w: World, ops: seq<Op>)
    requires Invariant(w.Journal()) && Legal(w, ops)
    ensures Invariant(RunAll(w, ops).Journal()) && Follows(w.Journal(), RunAll(w, ops).Journal())
  {
    hide Invariant, Follows, Perform, Fresh, Reaches;
    if |ops| == 0 {
      FollowsSelf(w.Journal());
    } else {
      var n := |ops| - 1;
      var mid := RunAll(w, ops[..n]);
      RunIsGood(w, ops[..n]);
      GoodIsWellFormed(mid.Journal());
      PerformReaches(mid, ops[n]);
      ReachedIsGood(mid.Journal(), Perform(mid, ops[n]).Journal());
      FollowsTransitive(w.Journal(), mid.Journal(), Perform(mid, ops[n]).Journal());
    }
  }

  lemma FollowsSelf(j: Journal)
    ensures Follows(j, j)
  {
  }

  lemma GoodIsWellFormed(j: Journal)
    requires Invariant(j)
    ensures WellFormed(j)
  {
  }
}
