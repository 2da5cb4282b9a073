/** The inbox keeps command identifiers unique within an account and environment, but looks rows up
    by the identifier alone.  Marking one command applied is therefore sound exactly when no other
    row, of whatever account, bears its identifier. */
module SharedIdentifiers {
  import opened Basics
  import S = Settings
  import opened Models
  import opened Steps
  import opened LedgerSpec
  import opened ConfigChain
  import opened Ownership
  import StopSignals
  import opened Runs
  import opened Worlds
  import opened Witnesses
  import opened Inbox
  import opened TwoStores

  /** The inbox is about to record the completion of this application. */
  ghost predicate Marks(rows: seq<Row>, a: Application) {
    var found := AcceptedRow(rows, a.command.commandId);
    found.Ok? && found.value.state.Applying? && found.value.digest == a.digest && found.value.command == a.command
  }

  lemma MarkedRows(rows: seq<Row>, a: Application)
    requires Marks(rows, a)
    ensures MarkApplied(rows, a.command.commandId, a.digest, a.command.settings.version).rows
         == Rewrite(rows, a.command.commandId, ToApplied(a.command.settings.version))
  {
  }

  /** One identifier, one applied command. */
  lemma HeldOnce(j: Journal, c: S.ConfigCommand, d: S.ConfigCommand)
    requires Chained(j) && Holds(j, c) && Holds(j, d) && c.commandId == d.commandId
    ensures c == d
  {
    var e :| e in j.configs && e.Proves(c);
    var f :| f in j.configs && f.Proves(d);
    assert e == f;
  }

  lemma MarkingIsSafeIff(j: Journal, rows: seq<Row>, a: Application)
    requires Chained(j) && SafeRows(j, rows) && Marks(rows, a) && Holds(j, a.command)
    ensures var after := MarkApplied(rows, a.command.commandId, a.digest, a.command.settings.version).rows;
            SafeRows(j, after)
            <==> forall r :: r in rows && r.command.commandId == a.command.commandId ==> r.command == a.command && r.Accepted()
  {
    hide Chained, Holds, Marks, MarkApplied, SafeRow, SafeRows;
    SafeRowsAt(j, rows);
    var cid, version := a.command.commandId, a.command.settings.version;
    var after := Rewrite(rows, cid, ToApplied(version));
    MarkedRows(rows, a);
    forall i | 0 <= i < |rows|
      ensures SafeRow(j, after[i])
         <==> (rows[i].command.commandId == cid ==> rows[i].command == a.command && rows[i].Accepted())
    {
      assert SafeRow(j, rows[i]);
      if rows[i].command.commandId == cid { MarkedRowIsSafeIff(j, rows[i], a); }
    }
    SafeRowsAt(j, after);
    assert forall i :: 0 <= i < |rows| ==> rows[i] in rows;
  }

  lemma SafeRowsAt(j: Journal, rows: seq<Row>)
    ensures SafeRows(j, rows) <==> forall i :: 0 <= i < |rows| ==> SafeRow(j, rows[i])
  {
    hide SafeRow;
    assert forall i :: 0 <= i < |rows| ==> rows[i] in rows;
  }

  lemma MarkedRowIsSafeIff(j: Journal, r: Row, a: Application)
    requires Chained(j) && SafeRow(j, r) && Holds(j, a.command) && r.command.commandId == a.command.commandId
    ensures SafeRow(j, ToApplied(a.command.settings.version)(r)) <==> r.command == a.command && r.Accepted()
  {
    hide Chained, Holds;
    if Holds(j, r.command) { HeldOnce(j, a.command, r.command); }
  }

  /* ----- the family in which it fails ----- */

  function CommandOf(account: string, version: Positive): S.ConfigCommand {
    S.ConfigCommand(Uuid(7), "key", 0, 100, S.Settings(account, "PAPER", "005930", version, PriceAtOrBelow, 1.0))
  }

  function OwnerOf(account: string): Authentication { Authentic(S.Actor("operator", account, "PAPER", true)) }

  function Waiting(account: string, version: Positive): Row {
    Received(CommandOf(account, version), S.Actor("operator", account, "PAPER", true), "ACCEPTED")
  }

  lemma FirstAccepted()
    ensures Receive([], CommandOf("A", 1), OwnerOf("A"), 0) == Change(Ok("ACCEPTED"), [Waiting("A", 1)])
  {
    assert Select(SameIdentity(CommandOf("A", 1)), []) == [];
    assert CurrentVersion([], KeyOf(CommandOf("A", 1))) == 0;
  }

  lemma SecondAccepted()
    ensures Receive([Waiting("A", 1)], CommandOf("B", 2), OwnerOf("B"), 0)
         == Change(Ok("ACCEPTED"), [Waiting("A", 1), Waiting("B", 2)])
  {
    var b, rows := CommandOf("B", 2), [Waiting("A", 1)];
    assert "A"[0] == 'A' && "B"[0] == 'B';
    assert rows[..0] == [];
    assert Select(SameIdentity(b), rows[..0]) == [] && !SameIdentity(b)(rows[0]);
    assert CurrentVersion(rows[..0], KeyOf(b)) == 0;
  }

  /** Two rows of one identifier are begun and marked together. */
  lemma MarkedTogether(p: Row, q: Row, version: Positive)
    requires p.command.commandId == q.command.commandId && p.Accepted() && p.state.NotApplied?
    requires version == p.command.settings.version
    ensures var cid := p.command.commandId;
            var begun := BeginApply([p, q], cid, false);
            var marked := MarkApplied(begun.rows, cid, p.digest, version);
            begun.result.Ok? && marked.result.Ok? && |marked.rows| == 2 && marked.rows[1] == ToApplied(version)(q)
  {
    hide Rewrite;
    var cid := p.command.commandId;
    FirstOfTwo(cid, p, q);
    var begun := BeginApply([p, q], cid, false).rows;
    assert begun == [ToApplying()(p), ToApplying()(q)];
    FirstOfTwo(cid, begun[0], begun[1]);
  }

  lemma FirstOfTwo(cid: Id, p: Row, q: Row)
    requires p.command.commandId == cid
    ensures First(Bears(cid), [p, q]) == Some(p)
  {
    assert [p, q][..1] == [p] && [p][..0] == [];
    assert First(Bears(cid), [p]) == Some(p);
  }

  /** The run that opens a session and applies the first account's command. */
  function AppliedOps(): seq<Op> {
    var c := CommandOf("A", 1);
    [DoApprove(0)] + [DoApplyInbox(Scope("A", "PAPER"), c, S.Sha256(c))]
  }

  lemma FirstApplied()
    ensures ApplyInboxConfig(Session(EMPTY, true), Scope("A", "PAPER"), CommandOf("A", 1), S.Sha256(CommandOf("A", 1))).result.Ok?
  {
  }

  lemma AppliedRun()
    ensures Legal(START, AppliedOps())
    ensures var j := RunAll(START, AppliedOps()).Journal(); Chained(j) && Holds(j, CommandOf("A", 1))
  {
    hide ApplyInboxConfig, Approve, Invariant, Holds, Chained, StopSignals.Follows;
    var c := CommandOf("A", 1);
    var ops := AppliedOps();
    OneMore(START, [], DoApprove(0));
    assert [] + [DoApprove(0)] == [DoApprove(0)];
    OneMore(START, [DoApprove(0)], ops[1]);
    Approved();
    FirstApplied();
    AppliedIsHeld(Session(EMPTY, true), Scope("A", "PAPER"), c, S.Sha256(c));
    EmptyInvariant();
    RunIsGood(START, ops);
    GoodJournalIsChained(RunAll(START, ops).Journal());
  }

  lemma GoodJournalIsChained(j: Journal)
    requires Invariant(j)
    ensures Chained(j)
  {
  }

  /** Two accounts may both have a command of one identifier accepted; once the ledger of a legal run has
      applied the first account's, marking it marks the second's as well, at a version that is not its
      own and that the ledger does not hold. */
  lemma SharedIdentifierExample()
    ensures Legal(START, AppliedOps()) && Holds(RunAll(START, AppliedOps()).Journal(), CommandOf("A", 1))
    ensures var j := RunAll(START, AppliedOps()).Journal();
            var first := Receive([], CommandOf("A", 1), OwnerOf("A"), 0);
            var second := Receive(first.rows, CommandOf("B", 2), OwnerOf("B"), 0);
            var begun := BeginApply(second.rows, Uuid(7), false);
            var marked := MarkApplied(begun.rows, Uuid(7), S.Sha256(CommandOf("A", 1)), 1);
            && first.result == second.result == Ok("ACCEPTED") && begun.result.Ok? && marked.result.Ok?
            && |marked.rows| == 2 && marked.rows[1].state.Applied? && marked.rows[1].command == CommandOf("B", 2)
            && marked.rows[1].appliedVersion == Some(1) && !Holds(j, CommandOf("B", 2))
  {
    hide Chained, Holds, Receive, BeginApply, MarkApplied, RunAll, Legal;
    var j := RunAll(START, AppliedOps()).Journal();
    AppliedRun();
    FirstAccepted();
    SecondAccepted();
    MarkedTogether(Waiting("A", 1), Waiting("B", 2), 1);
    if Holds(j, CommandOf("B", 2)) { HeldOnce(j, CommandOf("A", 1), CommandOf("B", 2)); }
  }
}
