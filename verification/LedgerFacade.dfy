/** The transactional facade over the journal (execution/ledger.py, execution/quarantine.py), as it
    changes the journal step by step.  Each transaction does to the session exactly what LedgerSpec
    says, by allowed steps of the journal, and nothing at all once the lease is gone. */
module LedgerFacade {
  import opened Basics
  import opened Models
  import opened Outcomes
  import opened Settings
  import opened Ownership
  import opened Projection
  import opened Validation
  import opened Steps
  import opened StopEvaluation
  import opened LedgerSpec
  import opened Runs
  import opened Worlds

  /** Every transaction is entered through the lease. */
  function Gate<T>(held: bool, s: Session, o: Outcome<T>): Outcome<T> { if held then o else Refuse(s, NOT_OWNED) }

  lemma {:induction false} FirstAt<T>(p: T -> bool, s: seq<T>, i: nat)
    requires i < |s| && p(s[i]) && forall k :: 0 <= k < i ==> !p(s[k])
    ensures First(p, s) == Some(s[i])
  {
    if i < |s| - 1 { FirstAt(p, s[..|s| - 1], i); }
  }

  lemma FreshSubmitReaches(s: Session, c: Command, now: int, rid: Id, oid: Id)
    ensures NewRequestId(s.journal, rid) && NewOrderId(s.journal, oid) ==>
              Reaches(s.journal, LedgerSpec.Submit(s, c, now, rid, oid).session.journal)
  {
    hide NewRequestId, NewOrderId, Reaches, LedgerSpec.Submit;
    if NewRequestId(s.journal, rid) && NewOrderId(s.journal, oid) { SubmitReaches(s, c, now, rid, oid); }
  }

  class Ledger {
    const lease: AccountLease
    var journal: Journal

    ghost predicate Valid()
      reads this, lease
    {
      lease.Valid()
    }

    ghost function Now(): Session
      reads this, lease
    {
      Session(journal, lease.ready)
    }

    /** Opens the journal that the database holds. */
    constructor (lease: AccountLease, stored: Journal)
      requires lease.Valid()
      ensures Valid() && this.lease == lease && journal == stored
    {
      this.lease, this.journal := lease, stored;
    }

    method Allocate(a: Allocation) returns (result: Result<()>)
      requires Valid()
      modifies `journal
      ensures Outcome(result, Now()) == Gate(lease.held, old(Now()), LedgerSpec.Allocate(old(Now()), a))
      ensures Reaches(old(journal), journal)
    {
      hide Reaches;
      ReachesSelf(journal);
      SimpleReaches(World(Now(), {}, []), DoAllocate(a));
      if !lease.held { return Err(NOT_OWNED); }
      var existing := First(AllocationOf(a.symbol), journal.allocations);
      if existing == Some(a) { return Ok(()); }
      var _ :- lease.RequireReady();
      if existing.Some? || exists r :: r in journal.requests && r.command.symbol == a.symbol {
        return Err("ALLOCATION_ALREADY_STARTED");
      }
      journal := journal.(allocations := journal.allocations + [a]);
      result := Ok(());
    }

    method SetControl(c: Control) returns (result: Result<()>)
      requires Valid()
      modifies `journal
      ensures Outcome(result, Now()) == Gate(lease.held, old(Now()), LedgerSpec.SetControl(old(Now()), c))
      ensures Reaches(old(journal), journal)
    {
      hide Reaches;
      ReachesSelf(journal);
      SimpleReaches(World(Now(), {}, []), DoControl(c));
      var _ :- lease.RequireReady();
      journal := journal.(controls := journal.controls + [c]);
      result := Ok(());
    }

    method ApplyConfig(symbol: string, expected: int, version: Positive) returns (result: Result<()>)
      requires Valid()
      modifies `journal
      ensures Outcome(result, Now())
           == Gate(lease.held, old(Now()), LedgerSpec.ApplyConfig(old(Now()), symbol, expected, version))
      ensures Reaches(old(journal), journal)
    {
      hide AppliedVersion, Reaches;
      ReachesSelf(journal);
      SimpleReaches(World(Now(), {}, []), DoApplyConfig(symbol, expected, version));
      var _ :- lease.RequireReady();
      if AppliedVersion(journal.configs, symbol) != expected { return Err("STALE_CONFIG_VERSION"); }
      if version <= expected { return Err("CONFIG_VERSION_MUST_ADVANCE"); }
      journal := journal.(configs := journal.configs + [AppliedConfig(symbol, version, None)]);
      assert old(journal).bindings + [] == old(journal).bindings;
      result := Ok(());
    }

    method ApplyStopConfig(b: StopBinding, expected: int) returns (result: Result<()>)
      requires Valid()
      modifies `journal
      ensures Outcome(result, Now()) == Gate(lease.held, old(Now()), LedgerSpec.ApplyStopConfig(old(Now()), b, expected))
      ensures Reaches(old(journal), journal)
    {
      hide AppliedVersion, Reaches;
      ReachesSelf(journal);
      SimpleReaches(World(Now(), {}, []), DoApplyStopConfig(b, expected));
      var _ :- lease.RequireReady();
      if AppliedVersion(journal.configs, b.symbol) != expected { return Err("STALE_CONFIG_VERSION"); }
      if b.version <= expected { return Err("CONFIG_VERSION_MUST_ADVANCE"); }
      journal := journal.(configs := journal.configs + [AppliedConfig(b.symbol, b.version, None)]);
      journal := journal.(bindings := journal.bindings + [b]);
      result := Ok(());
    }

    method ApplyInboxConfig(c: ConfigCommand, digest: Digest) returns (result: Result<AppliedConfig>)
      requires Valid()
      modifies `journal
      ensures lease.held ==>
                Outcome(result, Now()) == LedgerSpec.ApplyInboxConfig(old(Now()), lease.scope, c, digest)
      ensures !lease.held ==> result.Err? && journal == old(journal)
      ensures Reaches(old(journal), journal)
    {
      hide AppliedVersion, ExistingApplication, Reaches;
      ReachesSelf(journal);
      InboxReaches(Now(), lease.scope, c, digest);
      if c.settings.accountId != lease.scope.accountId || c.settings.environment != lease.scope.environment {
        return Err("CONFIG_EXECUTION_SCOPE_MISMATCH");
      }
      if Sha256(c) != digest { return Err("CONFIG_COMMAND_DIGEST_MISMATCH"); }
      var binding := BindingFor(c);
      var _ :- lease.RequireReady();
      var existing :- ExistingApplication(journal, c, digest);
      if existing.Some? { return Ok(existing.value); }
      var _ :- CheckApplyVersion(journal, c);
      if exists b :: b in journal.bindings && b.symbol == binding.symbol && b.version == binding.version {
        return Err("CONFLICT_CONFIG_APPLY_VERSION");
      }
      var applied := AppliedConfig(binding.symbol, binding.version, Some((c.commandId, digest)));
      journal := journal.(configs := journal.configs + [applied]);
      journal := journal.(bindings := journal.bindings + [binding]);
      result := Ok(applied);
    }

    /** The identifiers come from uuid4. */
    method Submit(c: Command, now: int, rid: Id, oid: Id) returns (result: Result<Submission>)
      requires Valid()
      modifies `journal
      ensures Outcome(result, Now()) == Gate(lease.held, old(Now()), LedgerSpec.Submit(old(Now()), c, now, rid, oid))
      ensures NewRequestId(old(journal), rid) && NewOrderId(old(journal), oid) ==> Reaches(old(journal), journal)
    {
      hide CheckFreshness, CheckStopLink, CheckCommand, First, Reaches, NewRequestId, NewOrderId;
      ReachesSelf(journal);
      if !lease.held { return Err(NOT_OWNED); }
      var i := 0;
      while i < |journal.requests|
        invariant 0 <= i <= |journal.requests| && journal == old(journal)
        invariant forall k :: 0 <= k < i ==> journal.requests[k].command.key != c.key
      {
        var existing := journal.requests[i];
        if existing.command.key == c.key {
          FirstAt(KeyIs(c.key), journal.requests, i);
          if existing.command != c { return Err("CONFLICT_IDEMPOTENCY_MISMATCH"); }
          return Ok(Submission(existing, false));
        }
        i := i + 1;
      }
      assert First(KeyIs(c.key), journal.requests).None?;
      var _ :- lease.RequireReady();
      var _ :- CheckFreshness(journal, c, now);
      if c.New? && c.side.Buy? && exists l :: l in journal.latches && l.symbol == c.symbol {
        return Err("ENTRY_STOP_LATCHED");
      }
      var _ :- CheckStopLink(journal, c);
      var _ :- CheckCommand(journal, c);
      var order, decision;
      match c {
        case New(_, _, _, _, _, _, _, _, _) => order, decision := oid, Accepted;
        case Amend(_, _, _, _, _, target, _, delta, _) =>
          order, decision := target, if delta > 0 then RejectedUnsupported else Accepted;
        case Cancel(_, _, _, _, _, target, _, _) => order, decision := target, Accepted;
      }
      var request := Request(rid, order, c, decision);
      journal := journal.(requests := journal.requests + [request]);
      if c.New? && c.stopLatchVersion.Some? {
        var obligation := StopObligation(rid, order, c.symbol, c.qty, c.stopLatchVersion.value);
        journal := journal.(obligations := journal.obligations + [obligation]);
      } else {
        assert old(journal).obligations + [] == old(journal).obligations;
      }
      FreshSubmitReaches(old(Now()), c, now, rid, oid);
      result := Ok(Submission(request, true));
    }

    /** The search that every commit of a fact begins with. */
    method FindReplay(f: Fact) returns (result: Result<bool>)
      ensures result == Replayed(journal, f)
    {
      hide First;
      var i := 0;
      while i < |journal.facts|
        invariant 0 <= i <= |journal.facts|
        invariant forall k :: 0 <= k < i ==> journal.facts[k].eventId != f.eventId
      {
        var existing := journal.facts[i];
        if existing.eventId == f.eventId {
          FirstAt(EventIs(f.eventId), journal.facts, i);
          return if existing != f then Err("CONFLICT_EVENT_ID_MISMATCH") else Ok(true);
        }
        i := i + 1;
      }
      assert First(EventIs(f.eventId), journal.facts).None?;
      result := Ok(false);
    }

    method Ingest(f: Fact) returns (result: Result<bool>)
      requires Valid()
      modifies `journal
      ensures Outcome(result, Now()) == Gate(lease.held, old(Now()), LedgerSpec.Ingest(old(Now()), f))
      ensures Reaches(old(journal), journal)
    {
      hide CheckFact, Replayed, First, Reaches;
      ReachesSelf(journal);
      IngestReaches(Now(), f);
      if !lease.held { return Err(NOT_OWNED); }
      var replayed := FindReplay(f);
      if replayed.Err? { return Err(replayed.code); }
      if replayed.value { return Ok(false); }
      var _ :- CheckFact(journal, f);
      journal := journal.(facts := journal.facts + [f]);
      assert old(journal).assignments + [] == old(journal).assignments;
      if f.Fill? {
        var buy := First(OpensBuy(f.orderId), journal.requests);
        if buy.Some? {
          var placed := buy.value.command;
          var binding := First(BindingOf(placed.symbol, placed.configVersion), journal.bindings);
          if binding.Some? {
            var assignment := StopAssignment(f.eventId, placed.symbol, f.qty, binding.value.version);
            journal := journal.(assignments := journal.assignments + [assignment]);
          }
        }
      }
      result := Ok(true);
    }

    method Discard(rid: Id, reason: string, expectedRevision: int) returns (result: Result<bool>)
      requires Valid()
      modifies `journal
      ensures Outcome(result, Now())
           == Gate(lease.held, old(Now()), LedgerSpec.Discard(old(Now()), rid, reason, expectedRevision))
      ensures Reaches(old(journal), journal)
    {
      hide CheckFact, Replayed, Reaches;
      ReachesSelf(journal);
      DiscardReaches(Now(), rid, reason, expectedRevision);
      var f := SendFailed(Uuid5(rid, "local-discard"), rid, NotInvoked, reason);
      if !lease.held { return Err(NOT_OWNED); }
      var replayed := FindReplay(f);
      if replayed.Err? { return Err(replayed.code); }
      if replayed.value { return Ok(false); }
      var _ :- lease.RequireReady();
      if journal.Revision() != expectedRevision { return Err("STALE_DISCARD_REVIEW"); }
      var _ :- CheckFact(journal, f);
      journal := journal.(facts := journal.facts + [f]);
      assert old(journal).assignments + [] == old(journal).assignments;
      result := Ok(true);
    }

    /** The derived fill is appended before the release is checked; a refusal takes it back. */
    method Reprocess(qid: Id, proof: string, expectedRevision: int) returns (result: Result<bool>)
      requires Valid()
      modifies `journal
      ensures Outcome(result, Now())
           == Gate(lease.held, old(Now()), LedgerSpec.Reprocess(old(Now()), qid, proof, expectedRevision))
      ensures Reaches(old(journal), journal)
    {
      hide CheckFact, Replayed, LinkedFill, Reaches;
      ReachesSelf(journal);
      ReprocessReaches(Now(), qid, proof, expectedRevision);
      var release := QuarantineReleased(Uuid5(qid, "release"), qid, Uuid5(qid, "linked-fill"), proof);
      if !lease.held { return Err(NOT_OWNED); }
      var replayed := FindReplay(release);
      if replayed.Err? { return Err(replayed.code); }
      if replayed.value { return Ok(false); }
      if journal.Revision() != expectedRevision { return Err("STALE_QUARANTINE_REVIEW"); }
      var fill :- LinkedFill(journal, qid);
      var before := journal;
      var known := FindReplay(fill);
      if known.Err? { return Err(known.code); }
      if !known.value {
        var _ :- CheckFact(journal, fill);
        journal := journal.(facts := journal.facts + [fill]);
      }
      assert before.assignments + [] == before.assignments;
      var checked := CheckFact(journal, release);
      if checked.Err? {
        journal := before;
        return Err(checked.code);
      }
      journal := journal.(facts := journal.facts + [release]);
      result := Ok(true);
    }

    method ProcessVirtualStopQuote(symbol: string, quote: Quote, timing: ObserveAt) returns (result: Result<StopInput>)
      requires Valid()
      modifies `journal
      ensures Outcome(result, Now())
           == Gate(lease.held, old(Now()), LedgerSpec.ProcessQuote(old(Now()), symbol, quote, timing))
      ensures Reaches(old(journal), journal)
    {
      hide EvaluateQuote, QuoteRejection, First, Reaches;
      ReachesSelf(journal);
      QuoteReaches(Now(), symbol, quote, timing);
      var _ :- lease.RequireReady();
      var rejection := QuoteRejection(journal, symbol, quote, timing);
      if rejection.Some? {
        var kept := First(LatchOf(symbol), journal.latches);
        return Ok(StopInput(false, Unavailable(rejection.value),
                            if rejection.value == "STOP_ALREADY_LATCHED" then kept else None));
      }
      var (observation, binding) := EvaluateQuote(journal, symbol, quote, timing);
      journal := journal.(quotes := journal.quotes[symbol := QuoteCheckpoint(quote.price, quote.receivedAt, timing.now)]);
      var latch := None;
      if observation.Triggered? && binding.Some? {
        var b := binding.value;
        var retained := StopLatch(symbol, b.version, b.kind, quote.price, quote.receivedAt);
        journal := journal.(latches := journal.latches + [retained]);
        latch := Some(retained);
      }
      result := Ok(StopInput(true, observation, latch));
    }

    method LatchVirtualStop(kind: RuleKind, symbol: string, quote: Option<Quote>, timing: ObserveAt)
      returns (result: Result<Option<StopLatch>>)
      requires Valid()
      modifies `journal
      ensures Outcome(result, Now())
           == Gate(lease.held, old(Now()), LedgerSpec.LatchStop(old(Now()), kind, symbol, quote, timing))
      ensures Reaches(old(journal), journal)
    {
      hide PortfolioOf, ConfirmedHoldings, ConfirmedCostBasis, EvaluateStop, First, Reaches;
      ReachesSelf(journal);
      LatchReaches(Now(), kind, symbol, quote, timing);
      var _ :- lease.RequireReady();
      var existing := First(LatchOf(symbol), journal.latches);
      if existing.Some? { return Ok(if existing.value.kind == kind then existing else None); }
      var position := PortfolioOf(journal, symbol);
      var held := None;
      if kind.PriceAtOrBelow? {
        held := ConfirmedHoldings(journal, symbol);
      } else {
        held := ConfirmedCostBasis(journal, symbol);
      }
      if quote.None? || held.None? || position.reconciliationRequired || position.sellUncertain
         || position.Available() == 0 {
        return Ok(None);
      }
      var binding := First(BindingOf(symbol, held.value.ruleVersion), journal.bindings);
      if binding.None? || binding.value.kind != kind { return Ok(None); }
      var observation := EvaluateStop(symbol, held.value, quote.value, binding.value, timing);
      if !observation.Triggered? { return Ok(None); }
      var latch := StopLatch(symbol, binding.value.version, binding.value.kind, quote.value.price, quote.value.receivedAt);
      journal := journal.(latches := journal.latches + [latch]);
      result := Ok(Some(latch));
    }

    /** Opens the session's gate when nothing of the reviewed revision is left unresolved. */
    method ApproveVirtualReconciliation(expectedRevision: int) returns (result: Result<()>)
      requires Valid()
      modifies lease`ready
      ensures Valid()
      ensures Outcome(result, Now()) == Gate(lease.held, old(Now()), LedgerSpec.Approve(old(Now()), expectedRevision))
    {
      hide Status, PortfolioOf, ReviewedSymbols;
      if !lease.held { return Err(NOT_OWNED); }
      if journal.Revision() != expectedRevision { return Err("STALE_RECONCILIATION_REVIEW"); }
      var symbols := ReviewedSymbols(journal);
      if (exists r :: r in journal.requests && Status(journal.facts, r).Unresolved())
         || (exists symbol :: symbol in symbols && PortfolioOf(journal, symbol).reconciliationRequired) {
        return Err(NOT_READY);
      }
      result := lease.ApproveVirtualReview();
    }
  }
}
