/** The inbox of desired settings, a store of its own (contracts/inbox.py).  Its rows are never
    deleted; the application fields of a row are updated in place. */
module Inbox {
  import opened Basics
  import opened Settings

  datatype ApplyState = NotApplied | Applying | Applied | ApplyBlocked

  datatype Row = Row(
    command: ConfigCommand, digest: Digest, reason: string, acceptedVersion: Option<Positive>, actorId: string,
    state: ApplyState, applyReason: Option<string>, appliedVersion: Option<Positive>)
  {
    predicate Accepted() { reason == "ACCEPTED" }
  }

  /** A desired command with its local application status. */
  datatype Application = Application(
    command: ConfigCommand, digest: Digest, state: ApplyState, reason: Option<string>, appliedVersion: Option<Positive>)

  /** What the injected authenticator made of the transient context. */
  datatype Authentication = NoAuthenticator | NoContext | Unknown | Authentic(actor: Actor)

  datatype Change<+T> = Change(result: Result<T>, rows: seq<Row>)

  function KeyOf(c: ConfigCommand): (string, string, string) {
    (c.settings.accountId, c.settings.environment, c.settings.symbol)
  }

  /* ----- receiving ----- */

  /** The highest accepted version of one setting, 0 before the first. */
  function CurrentVersion(rows: seq<Row>, key: (string, string, string)): nat {
    if |rows| == 0 then 0
    else
      var before, last := CurrentVersion(rows[..|rows| - 1], key), rows[|rows| - 1];
      if KeyOf(last.command) == key && last.acceptedVersion.Some? && last.acceptedVersion.value > before
      then last.acceptedVersion.value else before
  }

  /** Earlier rows of the account and environment that bear the key or the identifier of the command. */
  function SameIdentity(c: ConfigCommand): Row -> bool {
    (r: Row) =>
      && r.command.settings.accountId == c.settings.accountId
      && r.command.settings.environment == c.settings.environment
      && ((r.command.settings.symbol == c.settings.symbol && r.command.idempotencyKey == c.idempotencyKey)
          || r.command.commandId == c.commandId)
  }

  function Received(c: ConfigCommand, a: Actor, reason: string): Row {
    Row(c, Sha256(c), reason, if reason == "ACCEPTED" then Some(c.settings.version) else None, a.actorId,
        NotApplied, None, None)
  }

  /** The reason of the decision, and the rows after it. */
  function Receive(rows: seq<Row>, c: ConfigCommand, auth: Authentication, now: int): Change<string> {
    match auth
    case NoAuthenticator => Change(Ok("CONFIG_AUTHENTICATION_UNAVAILABLE"), rows)
    case NoContext => Change(Ok("CONFIG_AUTHENTICATION_EVIDENCE_REQUIRED"), rows)
    case Unknown => Change(Ok("CONFIG_AUTHENTICATION_FAILED"), rows)
    case Authentic(a) =>
      if !InScope(a, c.settings) then Change(Ok("CONFIG_UNAUTHORIZED"), rows)
      else
        var known := Select(SameIdentity(c), rows);
        if |known| > 0 then
          if |known| != 1 || known[0].command != c then Change(Err("CONFLICT_CONFIG_COMMAND_IDENTITY"), rows)
          else Change(Ok(known[0].reason), rows)
        else
          var reason := Decide(c, a, CurrentVersion(rows, KeyOf(c)), now);
          Change(Ok(reason), rows + [Received(c, a, reason)])
  }

  /* ----- applying ----- */

  function Bears(cid: Id): Row -> bool { (r: Row) => r.command.commandId == cid }

  /** An update of every row that bears the identifier. */
  function Rewrite(rows: seq<Row>, cid: Id, change: Row -> Row): (after: seq<Row>)
    ensures |after| == |rows|
    ensures forall i :: 0 <= i < |rows| ==> after[i] == if Bears(cid)(rows[i]) then change(rows[i]) else rows[i]
  {
    if |rows| == 0 then []
    else
      var last := rows[|rows| - 1];
      Rewrite(rows[..|rows| - 1], cid, change) + [if Bears(cid)(last) then change(last) else last]
  }

  function ToApplying(): Row -> Row { (r: Row) => r.(state := Applying, applyReason := None) }
  function ToBlocked(reason: string): Row -> Row { (r: Row) => r.(state := ApplyBlocked, applyReason := Some(reason)) }
  function ToApplied(version: Positive): Row -> Row {
    (r: Row) => r.(state := Applied, applyReason := None, appliedVersion := Some(version))
  }

  /** The row an identifier leads to: the first that bears it. */
  function AcceptedRow(rows: seq<Row>, cid: Id): (r: Result<Row>)
    ensures r.Ok? ==> r.value in rows && r.value.command.commandId == cid && r.value.Accepted()
  {
    match First(Bears(cid), rows)
    case None => Err("CONFIG_COMMAND_NOT_FOUND")
    case Some(row) => if row.Accepted() then Ok(row) else Err("CONFIG_COMMAND_NOT_ACCEPTED")
  }

  function Reported(r: Row): Application { Application(r.command, r.digest, r.state, r.applyReason, r.appliedVersion) }

  const LEGACY: string := "LEGACY_AUTHENTICATION_UNVERIFIED"

  function BeginApply(rows: seq<Row>, cid: Id, retryBlocked: bool): Change<Application> {
    match AcceptedRow(rows, cid)
    case Err(code) => Change(Err(code), rows)
    case Ok(row) =>
      if row.state.Applied? || row.state.Applying? then Change(Ok(Reported(row)), rows)
      else if row.state.ApplyBlocked? && (!retryBlocked || row.applyReason == Some(LEGACY)) then
        Change(Ok(Reported(row)), rows)
      else Change(Ok(Reported(ToApplying()(row))), Rewrite(rows, cid, ToApplying()))
  }

  function BlockApply(rows: seq<Row>, cid: Id, reason: string): Change<Application> {
    match AcceptedRow(rows, cid)
    case Err(code) => Change(Err(code), rows)
    case Ok(row) =>
      if row.state.Applied? then Change(Err("CONFIG_ALREADY_APPLIED"), rows)
      else if row.state.ApplyBlocked? && row.applyReason == Some(reason) then Change(Ok(Reported(row)), rows)
      else if row.state.Applying? then
        Change(Ok(Reported(ToBlocked(reason)(row))), Rewrite(rows, cid, ToBlocked(reason)))
      else Change(Err("CONFIG_APPLY_NOT_IN_PROGRESS"), rows)
  }

  function MarkApplied(rows: seq<Row>, cid: Id, fingerprint: Digest, version: Positive): Change<Application> {
    match AcceptedRow(rows, cid)
    case Err(code) => Change(Err(code), rows)
    case Ok(row) =>
      if row.digest != fingerprint then Change(Err("CONFLICT_CONFIG_COMMAND_IDENTITY"), rows)
      else if version != row.command.settings.version then Change(Err("CONFLICT_CONFIG_APPLIED_VERSION"), rows)
      else if row.state.Applied? then
        if row.appliedVersion != Some(version) then Change(Err("CONFLICT_CONFIG_APPLIED_VERSION"), rows)
        else Change(Ok(Reported(row)), rows)
      else if row.state.Applying? then
        Change(Ok(Reported(ToApplied(version)(row))), Rewrite(rows, cid, ToApplied(version)))
      else Change(Err("CONFIG_APPLY_NOT_IN_PROGRESS"), rows)
  }

  /* ----- listings ----- */

  /** What a begin would take up, blocked rows only on an explicit retry. */
  function CanBegin(retryBlocked: bool): Row -> bool {
    (r: Row) =>
      && r.Accepted()
      && (r.state.NotApplied? || r.state.Applying?
          || (retryBlocked && r.state.ApplyBlocked? && r.applyReason != Some(LEGACY)))
  }

  function IsInFlight(): Row -> bool { (r: Row) => r.Accepted() && r.state.Applying? }
  function IsPending(): Row -> bool { (r: Row) => r.Accepted() && (r.state.NotApplied? || r.state.Applying?) }

  function IdsOf(rows: seq<Row>): (ids: seq<Id>)
    ensures |ids| == |rows|
    ensures forall i :: 0 <= i < |rows| ==> ids[i] == rows[i].command.commandId
  {
    if |rows| == 0 then [] else IdsOf(rows[..|rows| - 1]) + [rows[|rows| - 1].command.commandId]
  }

  /** The order of accepted versions; a row without one comes first. */
  function ByVersion(): Row -> int { (r: Row) => if r.acceptedVersion.Some? then r.acceptedVersion.value else 0 }

  function ApplyingIds(rows: seq<Row>): seq<Id> { IdsOf(Select(IsInFlight(), rows)) }

  /** Ordered by accepted version, then by arrival. */
  function PendingIds(rows: seq<Row>): seq<Id> { IdsOf(Sorted(ByVersion(), Select(IsPending(), rows))) }
}
