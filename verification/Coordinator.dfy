/** The coordinator between the two stores, step by step; what it leaves behind is safe, and once it has
    resumed, settled. */
module Coordinator {
  import opened Basics
  import opened Settings
  import opened Ownership
  import opened Models
  import opened LedgerSpec
  import opened LedgerFacade
  import opened Runs
  import opened Inbox
  import opened InboxStore
  import opened ConfigApply
  import opened TwoStores
  import opened Convergence
  import opened Resumption

  lemma {:induction false} ErrorEnds(st: Stores, scope: Scope, ids: seq<Id>, i: nat)
    requires i <= |ids| && Resume(st, scope, ids[..i], false).result.Err?
    ensures Resume(st, scope, ids, false) == Resume(st, scope, ids[..i], false)
    decreases |ids|
  {
    hide Apply;
    if i == |ids| {
      assert ids[..i] == ids;
    } else {
      assert ids[..|ids| - 1][..i] == ids[..i];
      ErrorEnds(st, scope, ids[..|ids| - 1], i);
    }
  }

  lemma BegunBears(rows: seq<Row>, cid: Id, retryBlocked: bool)
    ensures BeginApply(rows, cid, retryBlocked).result.Ok? ==>
              BeginApply(rows, cid, retryBlocked).result.value.command.commandId == cid
  {
    hide Rewrite;
  }

  class ConfigApplyCoordinator {
    const inbox: ConfigInbox
    const ledger: Ledger

    ghost predicate Valid()
      reads this, ledger, ledger.lease
    {
      ledger.Valid()
    }

    ghost function Here(): Stores
      reads this, inbox, ledger, ledger.lease
    {
      Stores(inbox.rows, ledger.Now())
    }

    constructor (inbox: ConfigInbox, ledger: Ledger)
      requires ledger.Valid()
      ensures Valid() && this.inbox == inbox && this.ledger == ledger
    {
      this.inbox, this.ledger := inbox, ledger;
    }

    method ApplyCommand(cid: Id, retryBlocked: bool) returns (result: Result<Application>)
      requires Valid()
      modifies inbox, ledger`journal
      ensures Attempt(result, Here()) == Apply(old(Here()), ledger.lease.scope, cid, retryBlocked)
      ensures SafeStores(old(Here())) ==> SafeStores(Here())
    {
      hide SafeStores, BeginApply, BlockApply, MarkApplied, ApplyInboxConfig;
      if SafeStores(Here()) { ApplyKeepsSafe(Here(), ledger.lease.scope, cid, retryBlocked); }
      if !ledger.lease.ready { return Err(NOT_READY); }
      var begun := inbox.Begin(cid, retryBlocked);
      if begun.Err? || !begun.value.state.Applying? { return begun; }
      var a := begun.value;
      BegunBears(old(inbox.rows), cid, retryBlocked);
      var scope := ledger.lease.scope;
      if a.command.settings.accountId != scope.accountId || a.command.settings.environment != scope.environment {
        result := inbox.Block(a.command.commandId, "CONFIG_EXECUTION_SCOPE_MISMATCH");
        return;
      }
      var applied := ledger.ApplyInboxConfig(a.command, a.digest);
      if applied.Err? {
        result := inbox.Block(a.command.commandId, applied.code);
        return;
      }
      result := inbox.Mark(cid, a.digest, applied.value.version);
    }

    method ApplyAll(ids: seq<Id>) returns (result: Result<seq<Application>>)
      requires Valid()
      modifies inbox, ledger`journal
      ensures Attempt(result, Here()) == Resume(old(Here()), ledger.lease.scope, ids, false)
    {
      hide Apply;
      var results := [];
      var i := 0;
      while i < |ids|
        invariant 0 <= i <= |ids| && Valid()
        invariant Attempt(Ok(results), Here()) == Resume(old(Here()), ledger.lease.scope, ids[..i], false)
      {
        assert ids[..i + 1][..i] == ids[..i];
        var one := ApplyCommand(ids[i], false);
        if one.Err? {
          ErrorEnds(old(Here()), ledger.lease.scope, ids, i + 1);
          return Err(one.code);
        }
        results := results + [one.value];
        i := i + 1;
      }
      assert ids[..i] == ids;
      result := Ok(results);
    }

    /** Recovers the applications that a crash left in flight. */
    method ResumeApplying() returns (result: Result<seq<Application>>)
      requires Valid()
      modifies inbox, ledger`journal
      ensures Attempt(result, Here())
           == Resume(old(Here()), ledger.lease.scope, ApplyingIds(old(inbox.rows)), false)
      ensures SafeStores(old(Here())) ==> SafeStores(Here())
    {
      hide SafeStores, Resume;
      if SafeStores(Here()) { ResumeKeepsSafe(Here(), ledger.lease.scope, ApplyingIds(inbox.rows), false); }
      result := ApplyAll(ApplyingIds(inbox.rows));
    }

    /** Applies everything accepted and not yet applied, oldest version first. */
    method ResumeAllPending() returns (result: Result<seq<Application>>)
      requires Valid()
      modifies inbox, ledger`journal
      ensures Attempt(result, Here()) == ResumePending(old(Here()), ledger.lease.scope)
      ensures Sound(old(Here()), ledger.lease.scope) && NoneBlocked(old(inbox.rows), ledger.lease.scope) ==>
                result.Ok? && Settled(Here(), ledger.lease.scope)
    {
      hide Sound, NoneBlocked, Settled, Resume, PendingIds;
      if Sound(Here(), ledger.lease.scope) && NoneBlocked(inbox.rows, ledger.lease.scope) {
        ResumptionSettles(Here(), ledger.lease.scope);
      }
      if !ledger.lease.ready { return Err(NOT_READY); }
      result := ApplyAll(PendingIds(inbox.rows));
    }
  }
}
