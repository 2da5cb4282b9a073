/** The session gate of one account (execution/ownership.py): ownership of the lock, readiness after
    a review, and the one database the lease serves. */
module Ownership {
  import opened Basics

  /** The account and environment of a lease. */
  datatype Scope = Scope(accountId: string, environment: string)

  const NOT_OWNED: string := "ACCOUNT_LOCK_NOT_OWNED"
  const NOT_READY: string := "SESSION_RECONCILIATION_REQUIRED"

  class AccountLease {
    const scope: Scope
    var held: bool
    var ready: bool
    var database: Option<string>

    ghost predicate Valid()
      reads this
    {
      ready ==> held
    }

    /** A lease that just took the lock still has to be reviewed. */
    constructor (scope: Scope)
      ensures Valid() && held && !ready && database.None? && this.scope == scope
    {
      this.scope := scope;
      held, ready, database := true, false, None;
    }

    method BindDatabase(path: string) returns (result: Result<()>)
      requires Valid()
      modifies `database
      ensures result.Ok? <==> held && (old(database).None? || old(database) == Some(path))
      ensures result.Ok? ==> database == Some(path)
      ensures result.Err? ==> database == old(database)
    {
      if !held { return Err(NOT_OWNED); }
      if database.Some? && database != Some(path) { return Err("ACCOUNT_LEDGER_ALREADY_BOUND"); }
      database := Some(path);
      result := Ok(());
    }

    method RequireReady() returns (result: Result<()>)
      requires Valid()
      ensures result == if !held then Err(NOT_OWNED) else if !ready then Err(NOT_READY) else Ok(())
      ensures result.Ok? <==> ready
    {
      if !held { return Err(NOT_OWNED); }
      if !ready { return Err(NOT_READY); }
      result := Ok(());
    }

    method ApproveVirtualReview() returns (result: Result<()>)
      requires Valid()
      modifies `ready
      ensures Valid() && ready == held
      ensures result == if held then Ok(()) else Err(NOT_OWNED)
    {
      if !held { return Err(NOT_OWNED); }
      ready := true;
      result := Ok(());
    }

    /** Ends every use of the lease: what it is asked from now on it refuses. */
    method Retire()
      modifies `held, `ready
      ensures Valid() && !held && !ready
    {
      held, ready := false, false;
    }
  }
}
