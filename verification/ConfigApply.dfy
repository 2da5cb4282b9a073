/** The bridge from the inbox to the ledger (execution/config_apply.py): three commits in two stores,
    each of them a point where a crash may come. */
module ConfigApply {
  import opened Basics
  import opened Settings
  import opened Ownership
  import opened Models
  import opened LedgerSpec
  import opened Inbox

  /** What the ledger's turn decides for the last commit. */
  datatype Ending = Blocking(why: string) | Completing(version: Positive)

  /** The second commit: the ledger's. */
  function LedgerTurn(s: Session, scope: Scope, a: Application): (Ending, Session) {
    if a.command.settings.accountId != scope.accountId || a.command.settings.environment != scope.environment then
      (Blocking("CONFIG_EXECUTION_SCOPE_MISMATCH"), s)
    else
      var o := ApplyInboxConfig(s, scope, a.command, a.digest);
      if o.result.Err? then (Blocking(o.result.code), o.session) else (Completing(o.result.value.version), o.session)
  }

  /** The third commit: the inbox's. */
  function Finish(rows: seq<Row>, a: Application, ending: Ending): Change<Application> {
    match ending
    case Blocking(reason) => BlockApply(rows, a.command.commandId, reason)
    case Completing(version) => MarkApplied(rows, a.command.commandId, a.digest, version)
  }

  datatype Stores = Stores(rows: seq<Row>, session: Session)

  datatype Attempt<+T> = Attempt(result: Result<T>, stores: Stores)

  /** One undisturbed application. */
  function Apply(st: Stores, scope: Scope, cid: Id, retryBlocked: bool): Attempt<Application> {
    if !st.session.ready then Attempt(Err(NOT_READY), st)
    else
      var begun := BeginApply(st.rows, cid, retryBlocked);
      if begun.result.Err? || !begun.result.value.state.Applying? then
        Attempt(begun.result, st.(rows := begun.rows))
      else
        var (ending, session) := LedgerTurn(st.session, scope, begun.result.value);
        var done := Finish(begun.rows, begun.result.value, ending);
        Attempt(done.result, Stores(done.rows, session))
  }

  /** The listed commands in turn, up to the first error. */
  function Resume(st: Stores, scope: Scope, ids: seq<Id>, retryBlocked: bool): Attempt<seq<Application>> {
    if |ids| == 0 then Attempt(Ok([]), st)
    else
      var front := Resume(st, scope, ids[..|ids| - 1], retryBlocked);
      if front.result.Err? then front
      else
        var one := Apply(front.stores, scope, ids[|ids| - 1], retryBlocked);
        if one.result.Err? then Attempt(Err(one.result.code), one.stores)
        else Attempt(Ok(front.result.value + [one.result.value]), one.stores)
  }

  function ResumePending(st: Stores, scope: Scope): Attempt<seq<Application>> {
    if !st.session.ready then Attempt(Err(NOT_READY), st) else Resume(st, scope, PendingIds(st.rows), false)
  }
}
