/** The inbox as it updates its rows in place: each call does to the rows what Inbox says, and keeps the
    accepted chain and every row's desire. */
module InboxStore {
  import opened Basics
  import opened Settings
  import opened Inbox
  import opened AcceptedChain

  class ConfigInbox {
    var rows: seq<Row>

    constructor (stored: seq<Row>)
      ensures rows == stored
    {
      rows := stored;
    }

    method ReceiveCommand(c: ConfigCommand, auth: Authentication, now: int) returns (result: Result<string>)
      modifies this
      ensures Change(result, rows) == Receive(old(rows), c, auth, now)
      ensures Ordered(Desires(old(rows))) ==> Ordered(Desires(rows))
    {
      hide Ordered, Desires, CurrentVersion, Decide, Select;
      if Ordered(Desires(rows)) { ReceiveKeepsOrder(rows, c, auth, now); }
      match auth {
        case NoAuthenticator => return Ok("CONFIG_AUTHENTICATION_UNAVAILABLE");
        case NoContext => return Ok("CONFIG_AUTHENTICATION_EVIDENCE_REQUIRED");
        case Unknown => return Ok("CONFIG_AUTHENTICATION_FAILED");
        case Authentic(actor) =>
          if actor.accountId != c.settings.accountId || actor.environment != c.settings.environment || !actor.mayWrite {
            return Ok("CONFIG_UNAUTHORIZED");
          }
          var known := Select(SameIdentity(c), rows);
          if |known| > 0 {
            if |known| != 1 || known[0].command != c { return Err("CONFLICT_CONFIG_COMMAND_IDENTITY"); }
            return Ok(known[0].reason);
          }
          var current := CurrentVersion(rows, KeyOf(c));
          var reason := Decide(c, actor, current, now);
          var accepted := if reason == "ACCEPTED" then Some(c.settings.version) else None;
          rows := rows + [Row(c, Sha256(c), reason, accepted, actor.actorId, NotApplied, None, None)];
          return Ok(reason);
      }
    }

    /** Updates the application fields of each row that bears the identifier. */
    method UpdateRows(cid: Id, change: Row -> Row)
      modifies this
      ensures rows == Rewrite(old(rows), cid, change)
    {
      var i := 0;
      while i < |rows|
        invariant 0 <= i <= |rows| == |old(rows)|
        invariant forall k :: 0 <= k < i ==> rows[k] == if Bears(cid)(old(rows)[k]) then change(old(rows)[k]) else old(rows)[k]
        invariant forall k :: i <= k < |rows| ==> rows[k] == old(rows)[k]
      {
        if rows[i].command.commandId == cid { rows := rows[i := change(rows[i])]; }
        i := i + 1;
      }
    }

    method Begin(cid: Id, retryBlocked: bool) returns (result: Result<Application>)
      modifies this
      ensures Change(result, rows) == BeginApply(old(rows), cid, retryBlocked)
      ensures Desires(rows) == Desires(old(rows))
    {
      hide Desires;
      BeginKeepsDesires(rows, cid, retryBlocked);
      var row :- AcceptedRow(rows, cid);
      if row.state.ApplyBlocked? && (!retryBlocked || row.applyReason == Some(LEGACY)) { return Ok(Reported(row)); }
      var state, reason := row.state, row.applyReason;
      if state.NotApplied? || state.ApplyBlocked? {
        UpdateRows(cid, ToApplying());
        state, reason := Applying, None;
      }
      result := Ok(Application(row.command, row.digest, state, reason, row.appliedVersion));
    }

    method Block(cid: Id, reason: string) returns (result: Result<Application>)
      modifies this
      ensures Change(result, rows) == BlockApply(old(rows), cid, reason)
      ensures Desires(rows) == Desires(old(rows))
    {
      hide Desires;
      BlockKeepsDesires(rows, cid, reason);
      var row :- AcceptedRow(rows, cid);
      if row.state.Applied? { return Err("CONFIG_ALREADY_APPLIED"); }
      if row.state.ApplyBlocked? && row.applyReason == Some(reason) {
      } else if row.state.Applying? {
        UpdateRows(cid, ToBlocked(reason));
      } else {
        return Err("CONFIG_APPLY_NOT_IN_PROGRESS");
      }
      result := Ok(Application(row.command, row.digest, ApplyBlocked, Some(reason), row.appliedVersion));
    }

    method Mark(cid: Id, fingerprint: Digest, version: Positive) returns (result: Result<Application>)
      modifies this
      ensures Change(result, rows) == MarkApplied(old(rows), cid, fingerprint, version)
      ensures Desires(rows) == Desires(old(rows))
    {
      hide Desires;
      MarkKeepsDesires(rows, cid, fingerprint, version);
      var row :- AcceptedRow(rows, cid);
      if row.digest != fingerprint { return Err("CONFLICT_CONFIG_COMMAND_IDENTITY"); }
      if version != row.command.settings.version { return Err("CONFLICT_CONFIG_APPLIED_VERSION"); }
      var reason := row.applyReason;
      if row.state.Applied? {
        if row.appliedVersion != Some(version) { return Err("CONFLICT_CONFIG_APPLIED_VERSION"); }
      } else if row.state.Applying? {
        UpdateRows(cid, ToApplied(version));
        reason := None;
      } else {
        return Err("CONFIG_APPLY_NOT_IN_PROGRESS");
      }
      result := Ok(Application(row.command, row.digest, Applied, reason, Some(version)));
    }
  }
}
