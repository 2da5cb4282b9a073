/** From whatever state crashes have left, one resumption applies everything that was accepted. */
module Convergence {
  import opened Basics
  import opened Settings
  import opened Ownership
  import opened Models
  import opened Validation
  import opened Steps
  import opened LedgerSpec
  import opened ConfigChain
  import opened Projection
  import opened StopEvaluation
  import opened DispatchSpec
  import opened StopSignals
  import opened Runs
  import opened Worlds
  import opened Inbox
  import opened ConfigApply
  import opened TwoStores
  import opened AcceptedChain

  /* ----- runs in which only the inbox configures ----- */

  predicate Configures(op: Op) { op.DoApplyConfig? || op.DoApplyStopConfig? || op.DoApplyInbox? }

  ghost predicate InboxOnly(moves: seq<Move>) {
    forall m :: m in moves && m.Elsewhere? ==> !Configures(m.op)
  }

  ghost predicate Listed(ds: seq<Row>, t: Task) { exists r :: r in ds && r.Accepted() && r.command == t.application.command }

  ghost predicate Orderly(s: System, scope: Scope) {
    var ds := Desires(s.rows);
    && Ordered(ds) && FromInbox(ds, scope, s.Journal().configs) && InOrder(ds, scope, s.Journal().configs)
    && forall t :: t in s.tasks ==> Listed(ds, t)
  }

  lemma ConfigsStay(w: World, op: Op)
    requires !Configures(op)
    ensures Perform(w, op).Journal().configs == w.Journal().configs
  {
    hide CheckFact, CheckSubmission, First, AssignmentsFor, QuoteRejection, EvaluateQuote, LinkedFill, RecoveryFacts,
         Claimable, StopMayGo, CheckFreshness, BuyMayGo, PortfolioOf, ConfirmedHoldings, ConfirmedCostBasis, EvaluateStop;
  }

  lemma DistinctDesires(rows: seq<Row>)
    requires DistinctIds(rows)
    ensures DistinctIds(Desires(rows))
  {
  }

  /** A received command is new to the ledger and goes beyond everything accepted before. */
  lemma ReceiveKeepsPath(rows: seq<Row>, c: ConfigCommand, auth: Authentication, now: int,
                         scope: Scope, configs: seq<AppliedConfig>)
    requires DistinctIds(rows) && DistinctIds(Receive(rows, c, auth, now).rows) && Ordered(Desires(rows))
    requires FromInbox(Desires(rows), scope, configs) && InOrder(Desires(rows), scope, configs)
    ensures var es := Desires(Receive(rows, c, auth, now).rows);
            && Ordered(es) && FromInbox(es, scope, configs) && InOrder(es, scope, configs)
            && forall r :: r in Desires(rows) ==> r in es
  {
    hide Ordered, CurrentVersion, Decide, FromInbox;
    var after := Receive(rows, c, auth, now).rows;
    var ds, es := Desires(rows), Desires(after);
    ReceiveKeepsOrder(rows, c, auth, now);
    if after != rows {
      var last := es[|ds|];
      assert es == ds + [last];
      DistinctDesires(after);
      MoreRows(ds, last, scope, configs);
      forall r, x | r in es && x in es && Earlier(scope, r, x) && InLedger(configs, x.command)
        ensures InLedger(configs, r.command)
      {
        var e :| e in configs && e.Proves(x.command);
        var y := SourceOf(ds, scope, configs, e);
        SameIdSameRow(es, x, y);
        if r == last { NewestIsHighest(ds, last, x); }
      }
    }
  }

  lemma MoreRows(ds: seq<Row>, last: Row, scope: Scope, configs: seq<AppliedConfig>)
    requires FromInbox(ds, scope, configs)
    ensures FromInbox(ds + [last], scope, configs)
  {
    forall e | e in configs ensures FromRow(ds + [last], scope, e) {
      var x := SourceOf(ds, scope, configs, e);
      assert x in ds + [last];
    }
  }

  lemma NewestIsHighest(ds: seq<Row>, last: Row, x: Row)
    requires Ordered(ds + [last]) && last.Accepted() && x in ds && Precedes(x, last)
    ensures x.command.settings.version < last.command.settings.version
  {
    var es, n := ds + [last], |ds|;
    assert Links(es, n);
    assert es[..n] == ds;
    CurrentIsHighest(ds, KeyOf(last.command));
    var k :| 0 <= k < n && ds[k] == x;
    assert Links(es, k) && es[k] == x;
  }

  lemma BegunIsListed(rows: seq<Row>, cid: Id, retry: bool)
    ensures var o := BeginApply(rows, cid, retry);
            o.result.Ok? ==> exists r :: r in Desires(rows) && r.Accepted() && r.command == o.result.value.command
  {
    hide First, Rewrite;
    var found := AcceptedRow(rows, cid);
    if found.Ok? {
      var i :| 0 <= i < |rows| && rows[i] == found.value;
      assert Desires(rows)[i].command == found.value.command && Desires(rows)[i].Accepted();
    }
  }

  lemma SafeIsChained(s: System)
    requires Safe(s)
    ensures Chained(s.Journal()) && DistinctIds(s.rows)
  {
  }

  lemma NextIsOrderly(s: System, scope: Scope, m: Move)
    requires Safe(s) && Permitted(s, m) && Orderly(s, scope) && (m.Elsewhere? ==> !Configures(m.op))
    ensures Orderly(Next(s, scope, m), scope)
  {
    hide Safe, Ordered, FromInbox, InOrder, Desires, Perform, Receive, BeginApply, LedgerTurn, Finish, Permitted, Chained,
         DistinctIds, Listed;
    var configs := s.Journal().configs;
    SafeIsChained(s);
    match m
    case Receives(c, auth, now) =>
      NextIsSafe(s, scope, m);
      SafeIsChained(Next(s, scope, m));
      ReceiveKeepsPath(s.rows, c, auth, now, scope, configs);
      forall t | t in s.tasks ensures Listed(Desires(Next(s, scope, m).rows), t) {
        StillListed(Desires(s.rows), Desires(Next(s, scope, m).rows), t);
      }
    case Begins(cid, retry) =>
      BeginKeepsDesires(s.rows, cid, retry);
      BegunIsListed(s.rows, cid, retry);
      var begun := BeginApply(s.rows, cid, retry);
      if begun.result.Ok? { ListedIs(Desires(s.rows), Task(begun.result.value, None)); }
    case TurnsToLedger(i) =>
      if i < |s.tasks| && s.tasks[i].ending.None? {
        assert Listed(Desires(s.rows), s.tasks[i]);
        ListedIs(Desires(s.rows), s.tasks[i]);
        TurnKeepsOrder(Desires(s.rows), scope, s.world.session, s.tasks[i].application);
        ListedAsWell(Desires(s.rows), s.tasks[i], Next(s, scope, m).tasks[i]);
      }
    case Ends(i) =>
      if i < |s.tasks| && s.tasks[i].ending.Some? {
        FinishKeepsDesires(s.rows, s.tasks[i].application, s.tasks[i].ending.value);
      }
    case Elsewhere(op) => ConfigsStay(s.world, op);
    case Fails => ConfigsStay(s.world, Crash);
  }

  lemma StillListed(ds: seq<Row>, es: seq<Row>, t: Task)
    requires Listed(ds, t) && forall r :: r in ds ==> r in es
    ensures Listed(es, t)
  {
    var r :| r in ds && r.Accepted() && r.command == t.application.command;
    assert r in es;
  }

  lemma ListedIs(ds: seq<Row>, t: Task)
    ensures Listed(ds, t) <==> exists r :: r in ds && r.Accepted() && r.command == t.application.command
  {
  }

  lemma ListedAsWell(ds: seq<Row>, t: Task, u: Task)
    requires Listed(ds, t) && u.application == t.application
    ensures Listed(ds, u)
  {
  }

  lemma {:induction false} RunIsOrderly(s: System, scope: Scope, moves: seq<Move>)
    requires Safe(s) && Orderly(s, scope) && AllPermitted(s, scope, moves) && InboxOnly(moves)
    ensures Orderly(RunMoves(s, scope, moves), scope)
  {
    hide Safe, Orderly, Next, Permitted;
    if |moves| > 0 {
      var front := moves[..|moves| - 1];
      RunIsOrderly(s, scope, front);
      RunIsSafe(s, scope, front);
      NextIsOrderly(RunMoves(s, scope, front), scope, moves[|moves| - 1]);
    }
  }

  /** In every run the accepted versions of each setting form a chain: each row expected exactly the
      version accepted before it, and goes beyond it. */
  lemma {:induction false} AcceptedVersionsChain(scope: Scope, moves: seq<Move>)
    ensures Ordered(Desires(RunMoves(BLANK, scope, moves).rows))
  {
    hide Ordered, Desires, Receive, BeginApply, Finish, LedgerTurn, Perform;
    if |moves| > 0 {
      var front, m := RunMoves(BLANK, scope, moves[..|moves| - 1]), moves[|moves| - 1];
      AcceptedVersionsChain(scope, moves[..|moves| - 1]);
      match m
      case Receives(c, auth, now) => ReceiveKeepsOrder(front.rows, c, auth, now);
      case Begins(cid, retry) => BeginKeepsDesires(front.rows, cid, retry);
      case Ends(i) =>
        if i < |front.tasks| && front.tasks[i].ending.Some? {
          FinishKeepsDesires(front.rows, front.tasks[i].application, front.tasks[i].ending.value);
        }
      case _ =>
    } else {
      NoRowsOrdered();
    }
  }

  lemma NoRowsOrdered()
    ensures Ordered(Desires([]))
  {
  }

  /* ----- one application ----- */

  /** A state that a resumption can work on. */
  ghost predicate Sound(st: Stores, scope: Scope) {
    && st.session.ready && Invariant(st.session.journal)
    && DistinctIds(st.rows) && SafeRows(st.session.journal, st.rows)
    && Ordered(Desires(st.rows))
    && FromInbox(Desires(st.rows), scope, st.session.journal.configs)
    && InOrder(Desires(st.rows), scope, st.session.journal.configs)
  }

  /** Only the rows of this command were touched. */
  ghost predicate TouchesOnly(rows: seq<Row>, after: seq<Row>, cid: Id) {
    && |after| == |rows| && Desires(after) == Desires(rows)
    && forall i :: 0 <= i < |rows| && rows[i].command.commandId != cid ==> after[i] == rows[i]
  }

  lemma TurnKeepsReady(s: Session, scope: Scope, a: Application)
    ensures LedgerTurn(s, scope, a).1.ready == s.ready
  {
    hide ExistingApplication, CheckApplyVersion, First;
  }

  /** The row of a command after it was begun. */
  lemma BegunRow(rows: seq<Row>, i: nat, retry: bool)
    requires DistinctIds(rows) && i < |rows| && CanBegin(retry)(rows[i])
    ensures var r := rows[i];
            var begun := BeginApply(rows, r.command.commandId, retry);
            && begun.result.Ok? && begun.result.value.state.Applying?
            && begun.result.value.command == r.command && begun.result.value.digest == r.digest
            && |begun.rows| == |rows| && begun.rows[i].Accepted() && begun.rows[i].state.Applying?
            && TouchesOnly(rows, begun.rows, r.command.commandId)
  {
    hide Desires, Rewrite;
    var r := rows[i];
    FirstOnly(Bears(r.command.commandId), rows, r);
    BeginKeepsDesires(rows, r.command.commandId, retry);
  }

  /** The row of a command after its ending. */
  lemma EndedRow(rows: seq<Row>, i: nat, ending: Ending)
    requires DistinctIds(rows) && i < |rows| && rows[i].Accepted() && rows[i].state.Applying?
    requires ending.Completing? ==> ending.version == rows[i].command.settings.version
    ensures var r := rows[i];
            var a := Application(r.command, r.digest, Applying, None, r.appliedVersion);
            var done := Finish(rows, a, ending);
            && done.result.Ok? && |done.rows| == |rows|
            && done.rows[i].state == (if ending.Completing? then Applied else ApplyBlocked)
            && TouchesOnly(rows, done.rows, r.command.commandId)
  {
    hide Desires, Rewrite;
    var r := rows[i];
    FirstOnly(Bears(r.command.commandId), rows, r);
    FinishKeepsDesires(rows, Application(r.command, r.digest, Applying, None, r.appliedVersion), ending);
  }

  lemma FinishUsesCommand(rows: seq<Row>, a: Application, b: Application, ending: Ending)
    requires a.command == b.command && a.digest == b.digest
    ensures Finish(rows, a, ending) == Finish(rows, b, ending)
  {
  }

  lemma DesiresAt(rows: seq<Row>, after: seq<Row>, i: nat)
    requires Desires(rows) == Desires(after) && i < |rows|
    ensures |after| == |rows|
    ensures after[i].command == rows[i].command && after[i].digest == rows[i].digest && after[i].reason == rows[i].reason
    ensures Bare(rows[i]) in Desires(rows)
  {
    assert |Desires(rows)| == |rows| && |Desires(after)| == |after|;
    assert Desires(rows)[i] == Bare(rows[i]) && Desires(after)[i] == Bare(after[i]);
  }

  /** Everything of the ledger's turn that the rest of an application relies on. */
  lemma TurnOutcome(st: Stores, scope: Scope, rows: seq<Row>, i: nat, a: Application)
    requires Sound(st, scope) && Desires(rows) == Desires(st.rows) && i < |rows| && rows[i].Accepted()
    requires DistinctIds(rows) && SafeRows(st.session.journal, rows)
    requires a.command == rows[i].command && a.digest == Sha256(a.command)
    requires Mine(scope, rows[i]) ==> PathClear(Desires(rows), scope, st.session.journal.configs, Bare(rows[i]))
    ensures var (ending, session) := LedgerTurn(st.session, scope, a);
            && Sound(Stores(rows, session), scope) && st.session.journal.configs <= session.journal.configs
            && (ending.Completing? <==> Mine(scope, rows[i]))
            && SafeTask(session.journal, Task(a, Some(ending)))
  {
    hide Invariant, Ordered, FromInbox, InOrder, PathClear, SafeRows, SafeTask, ApplyInboxConfig, Reaches, DistinctIds, Desires, Grows;
    var ds := Desires(rows);
    var (ending, session) := LedgerTurn(st.session, scope, a);
    DesiresAt(rows, rows, i);
    GoodIsChained(st.session.journal);
    DistinctDesires(rows);
    TurnReaches(st.session, scope, a);
    GrowsAndGood(st.session.journal, session.journal);
    StaysSafe(st.session.journal, session.journal, rows, []);
    TurnIsSafe(st.session, scope, a);
    TurnKeepsReady(st.session, scope, a);
    assert exists r :: r in ds && r.Accepted() && r.command == a.command by { assert Bare(rows[i]) in ds; }
    TurnKeepsOrder(ds, scope, st.session, a);
    if Mine(scope, rows[i]) { LedgerTakes(ds, scope, st.session, Bare(rows[i])); }
  }

  lemma GoodIsChained(j: Journal)
    requires Invariant(j)
    ensures Chained(j)
  {
  }

  /** An application of a row whose path is clear completes it; a foreign row is blocked. */
  lemma ApplyRow(st: Stores, scope: Scope, i: nat, retry: bool)
    requires Sound(st, scope) && i < |st.rows| && CanBegin(retry)(st.rows[i])
    requires Mine(scope, st.rows[i]) ==> PathClear(Desires(st.rows), scope, st.session.journal.configs, Bare(st.rows[i]))
    ensures var cid := st.rows[i].command.commandId;
            var out := Apply(st, scope, cid, retry);
            && out.result.Ok? && Sound(out.stores, scope) && TouchesOnly(st.rows, out.stores.rows, cid)
            && st.session.journal.configs <= out.stores.session.journal.configs
            && (Mine(scope, st.rows[i]) ==> out.stores.rows[i].state.Applied?)
  {
    hide Invariant, Ordered, FromInbox, InOrder, PathClear, SafeRows, SafeTask, DistinctIds, Desires,
         LedgerTurn, BeginApply, Finish;
    var r, cid := st.rows[i], st.rows[i].command.commandId;
    RowIsSafe(st, scope, i);
    BegunRow(st.rows, i, retry);
    BeginKeepsSafe(st.session.journal, st.rows, cid, retry);
    var begun := BeginApply(st.rows, cid, retry);
    var a := begun.result.value;
    DesiresAt(st.rows, begun.rows, i);
    TurnOutcome(st, scope, begun.rows, i, a);
    var (ending, session) := LedgerTurn(st.session, scope, a);
    var b := Application(r.command, r.digest, Applying, None, begun.rows[i].appliedVersion);
    if ending.Completing? { TaskVersion(session.journal, Task(a, Some(ending))); }
    EndedRow(begun.rows, i, ending);
    FinishUsesCommand(begun.rows, a, b, ending);
    FinishKeepsSafe(session.journal, begun.rows, Task(a, Some(ending)));
  }

  lemma TaskVersion(j: Journal, t: Task)
    requires SafeTask(j, t) && t.ending.Some? && t.ending.value.Completing?
    ensures t.ending.value.version == t.application.command.settings.version
  {
  }

  lemma RowIsSafe(st: Stores, scope: Scope, i: nat)
    requires Sound(st, scope) && i < |st.rows|
    ensures st.rows[i].digest == Sha256(st.rows[i].command)
  {
    assert st.rows[i] in st.rows && SafeRow(st.session.journal, st.rows[i]);
  }
}
