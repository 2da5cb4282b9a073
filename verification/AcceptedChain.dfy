/** Accepted versions of a setting form a chain, each naming the one before it, and a ledger that is
    configured from the inbox only takes that chain in its order. */
module AcceptedChain {
  import opened Basics
  import opened Settings
  import opened Ownership
  import opened Models
  import opened Validation
  import opened Steps
  import opened StopEvaluation
  import opened LedgerSpec
  import opened ConfigChain
  import opened Replay
  import opened Runs
  import opened Worlds
  import opened Inbox
  import opened ConfigApply
  import opened TwoStores

  /* ----- what is desired, apart from how far it got ----- */

  function Bare(r: Row): Row { r.(state := NotApplied, applyReason := None, appliedVersion := None) }

  function Desires(rows: seq<Row>): (ds: seq<Row>)
    ensures |ds| == |rows| && forall i :: 0 <= i < |rows| ==> ds[i] == Bare(rows[i])
  {
    if |rows| == 0 then [] else Desires(rows[..|rows| - 1]) + [Bare(rows[|rows| - 1])]
  }

  lemma {:induction false} DesiresVersion(rows: seq<Row>, key: (string, string, string))
    ensures CurrentVersion(Desires(rows), key) == CurrentVersion(rows, key)
  {
    if |rows| > 0 { DesiresVersion(rows[..|rows| - 1], key); }
  }

  /** Only application fields are ever rewritten. */
  lemma {:induction false} RewriteKeepsDesires(rows: seq<Row>, cid: Id, change: Row -> Row)
    requires forall r: Row :: Bare(change(r)) == Bare(r)
    ensures Desires(Rewrite(rows, cid, change)) == Desires(rows)
  {
  }

  lemma BeginKeepsDesires(rows: seq<Row>, cid: Id, retry: bool)
    ensures Desires(BeginApply(rows, cid, retry).rows) == Desires(rows)
  {
    hide Desires, Rewrite;
    RewriteKeepsDesires(rows, cid, ToApplying());
  }

  lemma BlockKeepsDesires(rows: seq<Row>, cid: Id, reason: string)
    ensures Desires(BlockApply(rows, cid, reason).rows) == Desires(rows)
  {
    hide Desires, Rewrite;
    RewriteKeepsDesires(rows, cid, ToBlocked(reason));
  }

  lemma MarkKeepsDesires(rows: seq<Row>, cid: Id, fingerprint: Digest, version: Positive)
    ensures Desires(MarkApplied(rows, cid, fingerprint, version).rows) == Desires(rows)
  {
    hide Desires, Rewrite;
    RewriteKeepsDesires(rows, cid, ToApplied(version));
  }

  lemma FinishKeepsDesires(rows: seq<Row>, a: Application, ending: Ending)
    ensures Desires(Finish(rows, a, ending).rows) == Desires(rows)
  {
    hide Desires, BlockApply, MarkApplied;
    match ending
    case Blocking(reason) => BlockKeepsDesires(rows, a.command.commandId, reason);
    case Completing(version) => MarkKeepsDesires(rows, a.command.commandId, a.digest, version);
  }

  /* ----- the accepted chain ----- */

  /** An accepted row has its own version, which goes beyond the current one it expected. */
  ghost predicate Links(ds: seq<Row>, i: nat)
    requires i < |ds|
  {
    var r := ds[i];
    if r.Accepted() then
      && r.acceptedVersion == Some(r.command.settings.version)
      && r.command.expectedVersion == CurrentVersion(ds[..i], KeyOf(r.command))
      && r.command.expectedVersion < r.command.settings.version
    else r.acceptedVersion.None?
  }

  ghost predicate Ordered(ds: seq<Row>) { forall i :: 0 <= i < |ds| ==> Links(ds, i) }

  lemma {:induction false} CurrentIsHighest(ds: seq<Row>, key: (string, string, string))
    ensures forall r :: r in ds && KeyOf(r.command) == key && r.acceptedVersion.Some? ==>
              r.acceptedVersion.value <= CurrentVersion(ds, key)
    ensures CurrentVersion(ds, key) > 0 ==>
              exists r :: r in ds && KeyOf(r.command) == key && r.acceptedVersion == Some(CurrentVersion(ds, key))
  {
    if |ds| > 0 {
      var n := |ds| - 1;
      CurrentIsHighest(ds[..n], key);
      assert ds == ds[..n] + [ds[n]];
      assert ds[n] in ds;
    }
  }

  /** Of the accepted versions of its setting a row expects the highest one below its own. */
  lemma Predecessor(ds: seq<Row>, r: Row)
    requires Ordered(ds) && r in ds && r.Accepted()
    ensures r.command.expectedVersion < r.command.settings.version
    ensures r.command.expectedVersion > 0 ==>
              exists x :: x in ds && Precedes(x, r) && x.command.settings.version == r.command.expectedVersion
    ensures forall x :: x in ds && Precedes(x, r) && x.command.settings.version < r.command.settings.version ==>
              x.command.settings.version <= r.command.expectedVersion
    ensures forall x :: x in ds && Precedes(x, r) && x.command.settings.version == r.command.settings.version ==> x == r
  {
    hide CurrentVersion;
    var i :| 0 <= i < |ds| && ds[i] == r;
    var key := KeyOf(r.command);
    assert Links(ds, i);
    CurrentIsHighest(ds[..i], key);
    if r.command.expectedVersion > 0 {
      var x :| x in ds[..i] && KeyOf(x.command) == key && x.acceptedVersion == Some(r.command.expectedVersion);
      var k :| 0 <= k < i && ds[k] == x;
      assert Links(ds, k);
      assert Precedes(x, r);
    }
    forall x | x in ds && Precedes(x, r)
      ensures x == r || (x.command.settings.version <= r.command.expectedVersion)
                     || r.command.settings.version < x.command.settings.version
    {
      var k :| 0 <= k < |ds| && ds[k] == x;
      assert Links(ds, k);
      if k < i {
        assert ds[..i][k] == x;
      } else if k > i {
        CurrentIsHighest(ds[..k], key);
        assert ds[..k][i] == r;
      }
    }
  }

  /** Accepted rows of one setting. */
  ghost predicate Precedes(x: Row, r: Row) { x.Accepted() && KeyOf(x.command) == KeyOf(r.command) }

  lemma ReceiveKeepsOrder(rows: seq<Row>, c: ConfigCommand, auth: Authentication, now: int)
    requires Ordered(Desires(rows))
    ensures Ordered(Desires(Receive(rows, c, auth, now).rows))
  {
    hide CurrentVersion;
    var after := Receive(rows, c, auth, now).rows;
    var ds, es := Desires(rows), Desires(after);
    if after != rows {
      DesiresVersion(rows, KeyOf(c));
      assert es[..|ds|] == ds;
      forall i | 0 <= i < |es| ensures Links(es, i) {
        if i < |ds| {
          assert Links(ds, i);
          assert es[..i] == ds[..i];
        }
      }
    }
  }

  /* ----- a ledger configured from the inbox only ----- */

  predicate InLease(scope: Scope, c: ConfigCommand) {
    c.settings.accountId == scope.accountId && c.settings.environment == scope.environment
  }

  predicate Mine(scope: Scope, r: Row) { r.Accepted() && InLease(scope, r.command) }

  ghost predicate InLedger(configs: seq<AppliedConfig>, c: ConfigCommand) { exists e :: e in configs && e.Proves(c) }

  ghost predicate FromRow(ds: seq<Row>, scope: Scope, e: AppliedConfig) {
    exists r :: r in ds && Mine(scope, r) && e.Proves(r.command)
  }

  ghost predicate FromInbox(ds: seq<Row>, scope: Scope, configs: seq<AppliedConfig>) {
    forall e :: e in configs ==> FromRow(ds, scope, e)
  }

  ghost predicate Earlier(scope: Scope, r: Row, x: Row) {
    && Mine(scope, r) && Mine(scope, x) && r.command.settings.symbol == x.command.settings.symbol
    && r.command.settings.version <= x.command.settings.version
  }

  /** No accepted version is skipped. */
  ghost predicate InOrder(ds: seq<Row>, scope: Scope, configs: seq<AppliedConfig>) {
    forall r, x :: r in ds && x in ds && Earlier(scope, r, x) && InLedger(configs, x.command) ==>
      InLedger(configs, r.command)
  }

  /** Everything below r is in the ledger. */
  ghost predicate PathClear(ds: seq<Row>, scope: Scope, configs: seq<AppliedConfig>, r: Row) {
    forall x :: x in ds && Earlier(scope, x, r) && x.command.settings.version < r.command.settings.version ==>
      InLedger(configs, x.command)
  }

  lemma SourceOf(ds: seq<Row>, scope: Scope, configs: seq<AppliedConfig>, e: AppliedConfig) returns (x: Row)
    requires FromInbox(ds, scope, configs) && e in configs
    ensures x in ds && Mine(scope, x) && e.Proves(x.command) && InLedger(configs, x.command)
  {
    assert FromRow(ds, scope, e);
    x :| x in ds && Mine(scope, x) && e.Proves(x.command);
  }

  /** Where a row may still go, every applied version of its symbol is below it. */
  lemma LedgerStopsBelow(ds: seq<Row>, scope: Scope, configs: seq<AppliedConfig>, r: Row)
    requires Ordered(ds) && FromInbox(ds, scope, configs) && InOrder(ds, scope, configs)
    requires r in ds && Mine(scope, r) && !InLedger(configs, r.command)
    ensures forall e :: e in configs && e.symbol == r.command.settings.symbol ==> e.version <= r.command.expectedVersion
  {
    hide Ordered, InLedger, FromInbox;
    Predecessor(ds, r);
    forall e | e in configs && e.symbol == r.command.settings.symbol ensures e.version <= r.command.expectedVersion {
      var x := SourceOf(ds, scope, configs, e);
      assert Precedes(x, r);
      assert Earlier(scope, r, x) <==> r.command.settings.version <= x.command.settings.version;
    }
  }

  /** With a clear path the ledger stands exactly at the version the row expects. */
  lemma VersionFits(ds: seq<Row>, scope: Scope, j: Journal, r: Row)
    requires Chained(j) && Ordered(ds) && FromInbox(ds, scope, j.configs) && InOrder(ds, scope, j.configs)
    requires r in ds && Mine(scope, r) && !InLedger(j.configs, r.command) && PathClear(ds, scope, j.configs, r)
    ensures CheckApplyVersion(j, r.command) == Ok(())
  {
    hide Ordered, FromInbox, InOrder, Select;
    var symbol, expected := r.command.settings.symbol, r.command.expectedVersion;
    LedgerStopsBelow(ds, scope, j.configs, r);
    Predecessor(ds, r);
    AppliedIsHighest(j.configs, symbol);
    if expected > 0 {
      var x :| x in ds && Precedes(x, r) && x.command.settings.version == expected;
      assert Earlier(scope, x, r);
      var e :| e in j.configs && e.Proves(x.command);
    }
  }

  /** An application already in the ledger is recognised, down to its rule. */
  lemma HeldIsExisting(j: Journal, c: ConfigCommand)
    requires Chained(j) && InLedger(j.configs, c)
    ensures exists e :: e in j.configs && ExistingApplication(j, c, Sha256(c)) == Ok(Some(e))
  {
    hide First;
    var e :| e in j.configs && e.Proves(c);
    assert BindingFor(c) in j.bindings;
    forall x | x in j.configs && CommandIs(c.commandId)(x) ensures x == e {}
    FirstOnly(CommandIs(c.commandId), j.configs, e);
    FirstOnly(BindingOf(c.settings.symbol, c.settings.version), j.bindings, BindingFor(c));
  }

  lemma UnheldIsNew(ds: seq<Row>, scope: Scope, j: Journal, r: Row)
    requires DistinctIds(ds) && FromInbox(ds, scope, j.configs) && r in ds && !InLedger(j.configs, r.command)
    ensures ExistingApplication(j, r.command, Sha256(r.command)) == Ok(None)
  {
    hide FromInbox;
    var found := First(CommandIs(r.command.commandId), j.configs);
    if found.Some? {
      var x := SourceOf(ds, scope, j.configs, found.value);
      SameIdSameRow(ds, x, r);
    }
  }

  /** With a clear path the ledger takes the row, or finds that it already has. */
  lemma LedgerTakes(ds: seq<Row>, scope: Scope, s: Session, r: Row)
    requires s.ready && Chained(s.journal) && DistinctIds(ds) && Ordered(ds)
    requires FromInbox(ds, scope, s.journal.configs) && InOrder(ds, scope, s.journal.configs)
    requires r in ds && Mine(scope, r) && PathClear(ds, scope, s.journal.configs, r)
    ensures ApplyInboxConfig(s, scope, r.command, Sha256(r.command)).result.Ok?
  {
    hide DistinctIds, Ordered, FromInbox, InOrder, PathClear, InLedger, ExistingApplication, CheckApplyVersion, Chained, First;
    VersionConflictUnreachable(s, scope, r.command, Sha256(r.command));
    if InLedger(s.journal.configs, r.command) {
      HeldIsExisting(s.journal, r.command);
    } else {
      UnheldIsNew(ds, scope, s.journal, r);
      VersionFits(ds, scope, s.journal, r);
    }
  }

  /** A revision the ledger takes skips nothing. */
  lemma TakenIsNext(ds: seq<Row>, scope: Scope, j: Journal, r: Row)
    requires Chained(j) && Ordered(ds) && FromInbox(ds, scope, j.configs) && InOrder(ds, scope, j.configs)
    requires r in ds && Mine(scope, r) && CheckApplyVersion(j, r.command).Ok?
    ensures PathClear(ds, scope, j.configs, r)
  {
    hide Ordered, FromInbox, Select, InLedger;
    var symbol, expected := r.command.settings.symbol, r.command.expectedVersion;
    Predecessor(ds, r);
    AppliedIsHighest(j.configs, symbol);
    forall x | x in ds && Earlier(scope, x, r) && x.command.settings.version < r.command.settings.version
      ensures InLedger(j.configs, x.command)
    {
      assert Precedes(x, r);
      var e :| e in j.configs && e.symbol == symbol && e.version == expected;
      var top := SourceOf(ds, scope, j.configs, e);
      assert Earlier(scope, x, top);
    }
  }

  lemma TurnKeepsOrder(ds: seq<Row>, scope: Scope, s: Session, a: Application)
    requires Chained(s.journal) && Ordered(ds)
    requires FromInbox(ds, scope, s.journal.configs) && InOrder(ds, scope, s.journal.configs)
    requires exists r :: r in ds && r.Accepted() && r.command == a.command
    ensures var configs := LedgerTurn(s, scope, a).1.journal.configs;
            FromInbox(ds, scope, configs) && InOrder(ds, scope, configs) && s.journal.configs <= configs
  {
    hide Chained, Ordered, FromInbox, InOrder, ExistingApplication, CheckApplyVersion, First;
    var j, after := s.journal, LedgerTurn(s, scope, a).1.journal;
    if after != j {
      var r :| r in ds && r.Accepted() && r.command == a.command;
      TakenIsNext(ds, scope, j, r);
      AppendKeepsOrder(ds, scope, j.configs, r, after.configs[|j.configs|]);
      assert after.configs == j.configs + [after.configs[|j.configs|]];
    }
  }

  lemma AppendKeepsOrder(ds: seq<Row>, scope: Scope, configs: seq<AppliedConfig>, r: Row, e: AppliedConfig)
    requires Ordered(ds) && FromInbox(ds, scope, configs) && InOrder(ds, scope, configs)
    requires r in ds && Mine(scope, r) && e.Proves(r.command) && PathClear(ds, scope, configs, r)
    ensures FromInbox(ds, scope, configs + [e]) && InOrder(ds, scope, configs + [e])
  {
    hide Ordered;
    var after := configs + [e];
    Predecessor(ds, r);
    assert FromRow(ds, scope, e);
    assert forall x: ConfigCommand :: InLedger(configs, x) ==> InLedger(after, x);
    assert InLedger(after, r.command);
    forall x, y | x in ds && y in ds && Earlier(scope, x, y) && InLedger(after, y.command)
      ensures InLedger(after, x.command)
    {
      if !InLedger(configs, y.command) {
        assert e.Proves(y.command);
        assert Precedes(x, r);
        if x.command.settings.version < r.command.settings.version { assert Earlier(scope, x, r); }
      }
    }
  }
}
