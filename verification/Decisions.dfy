/** Exactly which desired settings are accepted, and how the application of one moves its row. */
module Decisions {
  import opened Basics
  import opened Settings
  import opened Inbox
  import opened TwoStores
  import opened AcceptedChain

  /* ----- acceptance ----- */

  /** The actor may write settings of this account and environment. */
  ghost predicate MayWrite(a: Actor, c: ConfigCommand) {
    a.mayWrite && a.accountId == c.settings.accountId && a.environment == c.settings.environment
  }

  ghost predicate SameSetting(r: Row, c: ConfigCommand) {
    && r.command.settings.accountId == c.settings.accountId && r.command.settings.environment == c.settings.environment
    && r.command.settings.symbol == c.settings.symbol
  }

  /** The command follows the highest version accepted for its setting, 0 before any. */
  ghost predicate FollowsHighest(rows: seq<Row>, c: ConfigCommand) {
    && (forall r :: r in rows && SameSetting(r, c) && r.acceptedVersion.Some? ==> r.acceptedVersion.value <= c.expectedVersion)
    && (c.expectedVersion > 0 ==> exists r :: r in rows && SameSetting(r, c) && r.acceptedVersion == Some(c.expectedVersion))
    && c.expectedVersion < c.settings.version
  }

  /** An earlier row of the account and environment under the same identifier, or under the same key of the
      same symbol. */
  ghost predicate SharesIdentity(r: Row, c: ConfigCommand) {
    && r.command.settings.accountId == c.settings.accountId && r.command.settings.environment == c.settings.environment
    && (r.command.commandId == c.commandId
        || (r.command.settings.symbol == c.settings.symbol && r.command.idempotencyKey == c.idempotencyKey))
  }

  lemma CurrentMeans(rows: seq<Row>, c: ConfigCommand)
    ensures CurrentVersion(rows, KeyOf(c)) == c.expectedVersion && c.expectedVersion < c.settings.version <==> FollowsHighest(rows, c)
  {
    CurrentIsHighest(rows, KeyOf(c));
    assert forall r :: SameSetting(r, c) <==> KeyOf(r.command) == KeyOf(c);
  }

  lemma NoneKnown(rows: seq<Row>, c: ConfigCommand)
    ensures |Select(SameIdentity(c), rows)| == 0 <==> forall r :: r in rows ==> !SharesIdentity(r, c)
  {
    var known := Select(SameIdentity(c), rows);
    SelectMember(SameIdentity(c), rows);
    HasMember(known);
    assert forall r :: SameIdentity(c)(r) <==> SharesIdentity(r, c);
    if |known| > 0 { assert known[0] in known; }
  }

  /** A new command is recorded if and only if somebody authentic may write its setting.  It is accepted if and
      only if its deadline has not come and it goes beyond the highest accepted version, which it names. */
  lemma AcceptedIff(rows: seq<Row>, c: ConfigCommand, auth: Authentication, now: int)
    requires forall r :: r in rows ==> !SharesIdentity(r, c)
    ensures var o := Receive(rows, c, auth, now);
            && o.result.Ok?
            && (o.rows != rows <==> auth.Authentic? && MayWrite(auth.actor, c))
            && (o.result == Ok("ACCEPTED") <==> auth.Authentic? && MayWrite(auth.actor, c) && now < c.expiresAt && FollowsHighest(rows, c))
            && (o.rows != rows ==>
                  o.rows == rows + [Row(c, Sha256(c), o.result.value,
                                        if o.result == Ok("ACCEPTED") then Some(c.settings.version) else None,
                                        auth.actor.actorId, NotApplied, None, None)])
  {
    hide CurrentVersion, FollowsHighest, Select;
    NoneKnown(rows, c);
    CurrentMeans(rows, c);
  }

  ghost predicate DistinctIdentities(rows: seq<Row>) {
    forall i, k :: 0 <= i < k < |rows| ==> !SharesIdentity(rows[i], rows[k].command)
  }

  lemma SharesBothWays(r: Row, x: Row)
    ensures SharesIdentity(r, x.command) <==> SharesIdentity(x, r.command)
  {
  }

  lemma {:induction false} OnlyKnown(rows: seq<Row>, i: nat)
    requires i < |rows| && DistinctIdentities(rows)
    ensures Select(SameIdentity(rows[i].command), rows) == [rows[i]]
  {
    var n := |rows| - 1;
    var p := SameIdentity(rows[i].command);
    assert rows == rows[..n] + [rows[n]];
    assert p(rows[n]) <==> SharesIdentity(rows[n], rows[i].command);
    SelectAppend(p, rows[..n], rows[n]);
    if i < n {
      OnlyKnown(rows[..n], i);
      SharesBothWays(rows[n], rows[i]);
    } else {
      NoneKnown(rows[..n], rows[n].command);
    }
  }

  /** A command that was received before is answered as it was then, whatever the time, and recorded no more. */
  lemma RepeatIsAnswered(rows: seq<Row>, i: nat, a: Actor, now: int)
    requires DistinctIdentities(rows) && i < |rows| && MayWrite(a, rows[i].command)
    ensures Receive(rows, rows[i].command, Authentic(a), now) == Change(Ok(rows[i].reason), rows)
  {
    hide Select, CurrentVersion;
    OnlyKnown(rows, i);
  }

  lemma ReceiveKeepsIdentities(rows: seq<Row>, c: ConfigCommand, auth: Authentication, now: int)
    requires DistinctIdentities(rows)
    ensures DistinctIdentities(Receive(rows, c, auth, now).rows)
  {
    hide CurrentVersion, Select;
    NoneKnown(rows, c);
  }

  /** Identities concern what is desired only. */
  lemma DesiredIdentities(rows: seq<Row>, after: seq<Row>)
    requires DistinctIdentities(rows) && Desires(after) == Desires(rows)
    ensures DistinctIdentities(after)
  {
    assert |after| == |rows|;
    forall i | 0 <= i < |rows| ensures after[i].command == rows[i].command {
      assert Desires(after)[i] == Desires(rows)[i];
    }
  }

  lemma {:induction false} RunsKeepIdentities(scope: Ownership.Scope, moves: seq<Move>)
    ensures DistinctIdentities(RunMoves(BLANK, scope, moves).rows)
  {
    hide Receive, BeginApply, ConfigApply.Finish, ConfigApply.LedgerTurn, DistinctIdentities, Worlds.Perform;
    if |moves| == 0 {
      NoIdentities();
    } else {
      var n := |moves| - 1;
      var s := RunMoves(BLANK, scope, moves[..n]);
      RunsKeepIdentities(scope, moves[..n]);
      match moves[n]
      case Receives(c, auth, now) => ReceiveKeepsIdentities(s.rows, c, auth, now);
      case Begins(cid, retry) =>
        BeginKeepsDesires(s.rows, cid, retry);
        DesiredIdentities(s.rows, BeginApply(s.rows, cid, retry).rows);
      case Ends(i) =>
        if i < |s.tasks| && s.tasks[i].ending.Some? {
          FinishKeepsDesires(s.rows, s.tasks[i].application, s.tasks[i].ending.value);
          DesiredIdentities(s.rows, ConfigApply.Finish(s.rows, s.tasks[i].application, s.tasks[i].ending.value).rows);
        }
      case _ =>
    }
  }

  lemma NoIdentities()
    ensures DistinctIdentities(BLANK.rows)
  {
  }

  /* ----- application ----- */

  lemma {:induction false} RewritesOne(rows: seq<Row>, i: nat, change: Row -> Row)
    requires DistinctIds(rows) && i < |rows|
    ensures Rewrite(rows, rows[i].command.commandId, change) == rows[i := change(rows[i])]
  {
    var n := |rows| - 1;
    if i < n {
      RewritesOne(rows[..n], i, change);
    } else {
      RewritesNone(rows[..n], rows[n].command.commandId, change);
    }
  }

  lemma {:induction false} RewritesNone(rows: seq<Row>, cid: Id, change: Row -> Row)
    requires forall r :: r in rows ==> r.command.commandId != cid
    ensures Rewrite(rows, cid, change) == rows
  {
    if |rows| > 0 {
      assert rows[|rows| - 1] in rows;
      RewritesNone(rows[..|rows| - 1], cid, change);
    }
  }

  lemma RowFound(rows: seq<Row>, i: nat)
    requires DistinctIds(rows) && i < |rows|
    ensures AcceptedRow(rows, rows[i].command.commandId)
         == if rows[i].reason == "ACCEPTED" then Ok(rows[i]) else Err("CONFIG_COMMAND_NOT_ACCEPTED")
  {
    var r := rows[i];
    forall x | x in rows && Bears(r.command.commandId)(x) ensures x == r { SameIdSameRow(rows, x, r); }
    FirstOnly(Bears(r.command.commandId), rows, r);
  }

  /** An accepted row is taken up unless it is done, in progress, or blocked without a retry; what a migration
      left unverified is never retried. */
  lemma BeginsIff(rows: seq<Row>, i: nat, retry: bool)
    requires DistinctIds(rows) && i < |rows|
    ensures var r, o := rows[i], BeginApply(rows, rows[i].command.commandId, retry);
            var taken := r.state.NotApplied?
                         || (r.state.ApplyBlocked? && retry && r.applyReason != Some("LEGACY_AUTHENTICATION_UNVERIFIED"));
            && (o.result.Ok? <==> r.reason == "ACCEPTED")
            && o.rows == rows[i := if r.reason == "ACCEPTED" && taken then r.(state := Applying, applyReason := None) else r]
            && (o.result.Ok? ==> o.result.value.command == r.command && o.result.value.digest == r.digest
                                 && o.result.value.state == o.rows[i].state)
  {
    hide Rewrite, DistinctIds;
    RowFound(rows, i);
    RewritesOne(rows, i, ToApplying());
    assert rows[i := rows[i]] == rows;
  }

  /** Only a row in progress is blocked, and it keeps the reason. */
  lemma BlocksIff(rows: seq<Row>, i: nat, reason: string)
    requires DistinctIds(rows) && i < |rows|
    ensures var r, o := rows[i], BlockApply(rows, rows[i].command.commandId, reason);
            && (o.result.Ok?
                <==> r.reason == "ACCEPTED" && (r.state.Applying? || (r.state.ApplyBlocked? && r.applyReason == Some(reason))))
            && o.rows == rows[i := if o.result.Ok? then r.(state := ApplyBlocked, applyReason := Some(reason)) else r]
  {
    hide Rewrite, DistinctIds;
    RowFound(rows, i);
    RewritesOne(rows, i, ToBlocked(reason));
    assert rows[i := rows[i]] == rows;
  }

  /** Only a row in progress is marked, by its own digest and at its own version; doing so again is the same. */
  lemma MarksIff(rows: seq<Row>, i: nat, fingerprint: Digest, version: Positive)
    requires DistinctIds(rows) && i < |rows|
    ensures var r, o := rows[i], MarkApplied(rows, rows[i].command.commandId, fingerprint, version);
            && (o.result.Ok?
                <==> r.reason == "ACCEPTED" && fingerprint == r.digest && version == r.command.settings.version
                     && (r.state.Applying? || (r.state.Applied? && r.appliedVersion == Some(version))))
            && o.rows == rows[i := if o.result.Ok? && r.state.Applying?
                                   then r.(state := Applied, applyReason := None, appliedVersion := Some(version)) else r]
  {
    hide Rewrite, DistinctIds;
    RowFound(rows, i);
    RewritesOne(rows, i, ToApplied(version));
    assert rows[i := rows[i]] == rows;
  }

  /** An application that is taken up ends applied at its own version when the ledger takes its setting, and else
      blocked for the ledger's reason. */
  lemma AppliesOrBlocks(st: ConfigApply.Stores, scope: Ownership.Scope, i: nat, retry: bool)
    requires DistinctIds(st.rows) && i < |st.rows| && st.rows[i].reason == "ACCEPTED" && st.session.ready
    requires var r := st.rows[i];
             r.state.NotApplied? || r.state.Applying?
             || (r.state.ApplyBlocked? && retry && r.applyReason != Some("LEGACY_AUTHENTICATION_UNVERIFIED"))
    requires st.rows[i].digest == Sha256(st.rows[i].command)
    ensures var r, o := st.rows[i], ConfigApply.Apply(st, scope, st.rows[i].command.commandId, retry);
            var taken := LedgerSpec.ApplyInboxConfig(st.session, scope, r.command, r.digest);
            && o.result.Ok? && o.stores.session == taken.session
            && o.stores.rows == st.rows[i :=
                 if taken.result.Ok? then r.(state := Applied, applyReason := None, appliedVersion := Some(r.command.settings.version))
                 else r.(state := ApplyBlocked, applyReason := Some(taken.result.code))]
  {
    hide BeginApply, BlockApply, MarkApplied, LedgerSpec.ApplyInboxConfig, DistinctIds;
    var r := st.rows[i];
    var begun := BeginApply(st.rows, r.command.commandId, retry);
    BeginsIff(st.rows, i, retry);
    StillDistinct(st.rows, i, begun.rows[i]);
    var taken := LedgerSpec.ApplyInboxConfig(st.session, scope, r.command, r.digest);
    ScopeFirst(st.session, scope, r.command, r.digest);
    if taken.result.Ok? {
      AppliedIsHeld(st.session, scope, r.command, r.digest);
      MarksIff(begun.rows, i, r.digest, taken.result.value.version);
    } else {
      BlocksIff(begun.rows, i, taken.result.code);
    }
  }

  lemma StillDistinct(rows: seq<Row>, i: nat, r: Row)
    requires DistinctIds(rows) && i < |rows| && r.command == rows[i].command
    ensures DistinctIds(rows[i := r])
  {
  }

  lemma ScopeFirst(s: LedgerSpec.Session, scope: Ownership.Scope, c: ConfigCommand, digest: Digest)
    ensures c.settings.accountId != scope.accountId || c.settings.environment != scope.environment ==>
              LedgerSpec.ApplyInboxConfig(s, scope, c, digest) == LedgerSpec.Outcome(Err("CONFIG_EXECUTION_SCOPE_MISMATCH"), s)
  {
  }

  /** The rows in flight are listed in the order in which they arrived. */
  lemma {:induction false} ApplyingAre(rows: seq<Row>, i: nat, k: nat)
    requires i < k < |rows| && rows[i].reason == rows[k].reason == "ACCEPTED" && rows[i].state == rows[k].state == Applying
    ensures exists m, n :: 0 <= m < n < |ApplyingIds(rows)|
                           && ApplyingIds(rows)[m] == rows[i].command.commandId && ApplyingIds(rows)[n] == rows[k].command.commandId
    ensures forall cid :: cid in ApplyingIds(rows)
                          <==> exists r :: r in rows && r.reason == "ACCEPTED" && r.state.Applying? && r.command.commandId == cid
  {
    SelectMember(IsInFlight(), rows);
    var flying := Select(IsInFlight(), rows);
    var m, n := InFlightPlaces(rows, i, k);
    assert ApplyingIds(rows)[m] == rows[i].command.commandId && ApplyingIds(rows)[n] == rows[k].command.commandId;
    assert forall r :: r in flying ==> IsInFlight()(r);
    forall cid ensures cid in ApplyingIds(rows)
        <==> exists r :: r in rows && r.reason == "ACCEPTED" && r.state.Applying? && r.command.commandId == cid
    {
      if cid in ApplyingIds(rows) {
        var x :| 0 <= x < |flying| && ApplyingIds(rows)[x] == cid;
        assert flying[x] in flying;
      }
      forall r | r in rows && r.reason == "ACCEPTED" && r.state.Applying? && r.command.commandId == cid ensures cid in ApplyingIds(rows) {
        assert r in flying;
        var x :| 0 <= x < |flying| && flying[x] == r;
        assert ApplyingIds(rows)[x] == cid;
      }
    }
  }

  lemma {:induction false} InFlightPlaces(rows: seq<Row>, i: nat, k: nat) returns (m: nat, n: nat)
    requires i < k < |rows| && IsInFlight()(rows[i]) && IsInFlight()(rows[k])
    ensures var flying := Select(IsInFlight(), rows); m < n < |flying| && flying[m] == rows[i] && flying[n] == rows[k]
  {
    hide Select;
    var front, last := rows[..|rows| - 1], rows[|rows| - 1];
    assert rows == front + [last];
    SelectAppend(IsInFlight(), front, last);
    if k < |front| {
      m, n := InFlightPlaces(front, i, k);
    } else {
      SelectMember(IsInFlight(), front);
      assert rows[i] in front;
      var flying := Select(IsInFlight(), front);
      m :| 0 <= m < |flying| && flying[m] == rows[i];
      n := |flying|;
    }
  }
}
