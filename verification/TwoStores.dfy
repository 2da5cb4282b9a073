/** Two independent stores that commit at different moments, crashes in between, any number of
    coordinators, and anything else the ledger may be asked meanwhile: an application recorded as
    done has been done. */
module TwoStores {
  import opened Basics
  import opened Settings
  import opened Ownership
  import opened Models
  import opened Validation
  import opened Steps
  import opened StopEvaluation
  import opened LedgerSpec
  import opened ConfigChain
  import opened StopSignals
  import opened Runs
  import opened Worlds
  import opened Inbox
  import opened ConfigApply

  /** A coordinator between its commits: the ledger's turn is to come, or the ending is. */
  datatype Task = Task(application: Application, ending: Option<Ending>)

  datatype System = System(rows: seq<Row>, world: World, tasks: seq<Task>) {
    function Journal(): Journal { world.Journal() }
  }

  datatype Move =
    | Receives(command: ConfigCommand, auth: Authentication, now: int)
    | Begins(cid: Id, retryBlocked: bool)
    | TurnsToLedger(i: nat)
    | Ends(i: nat)
    | Elsewhere(op: Op)
    | Fails

  function Without<T>(s: seq<T>, i: nat): seq<T>
    requires i < |s|
  {
    s[..i] + s[i + 1..]
  }

  function Next(s: System, scope: Scope, m: Move): System {
    match m
    case Receives(c, auth, now) => s.(rows := Receive(s.rows, c, auth, now).rows)
    case Begins(cid, retry) =>
      var begun := BeginApply(s.rows, cid, retry);
      if !s.world.session.ready then s
      else if begun.result.Err? || !begun.result.value.state.Applying? then s.(rows := begun.rows)
      else s.(rows := begun.rows, tasks := s.tasks + [Task(begun.result.value, None)])
    case TurnsToLedger(i) =>
      if i >= |s.tasks| || s.tasks[i].ending.Some? then s
      else
        var (ending, session) := LedgerTurn(s.world.session, scope, s.tasks[i].application);
        s.(world := s.world.(session := session), tasks := s.tasks[i := Task(s.tasks[i].application, Some(ending))])
    case Ends(i) =>
      if i >= |s.tasks| || s.tasks[i].ending.None? then s
      else s.(rows := Finish(s.rows, s.tasks[i].application, s.tasks[i].ending.value).rows, tasks := Without(s.tasks, i))
    case Elsewhere(op) => s.(world := Perform(s.world, op))
    case Fails => System(s.rows, Perform(s.world, Crash), [])
  }

  function RunMoves(s: System, scope: Scope, moves: seq<Move>): System {
    if |moves| == 0 then s else Next(RunMoves(s, scope, moves[..|moves| - 1]), scope, moves[|moves| - 1])
  }

  /** Command identifiers are globally unique: no other account's row bears that of a received one. */
  ghost predicate OwnId(rows: seq<Row>, c: ConfigCommand) {
    forall r :: r in rows && r.command.commandId == c.commandId ==>
      r.command.settings.accountId == c.settings.accountId && r.command.settings.environment == c.settings.environment
  }

  ghost predicate Permitted(s: System, m: Move) {
    match m
    case Receives(c, _, _) => OwnId(s.rows, c)
    case Elsewhere(op) => Worlds.Fresh(s.world, op)
    case _ => true
  }

  ghost predicate AllPermitted(s: System, scope: Scope, moves: seq<Move>) {
    |moves| == 0 ||
    (AllPermitted(s, scope, moves[..|moves| - 1])
     && Permitted(RunMoves(s, scope, moves[..|moves| - 1]), moves[|moves| - 1]))
  }

  const BLANK: System := System([], Worlds.START, [])

  /* ----- safety ----- */

  /** The ledger holds this very command: identifier, digest, version and bound rule. */
  ghost predicate Holds(j: Journal, c: ConfigCommand) {
    (exists e :: e in j.configs && e.Proves(c)) && BindingFor(c) in j.bindings
  }

  ghost predicate DistinctIds(rows: seq<Row>) {
    forall i, k :: 0 <= i < k < |rows| ==> rows[i].command.commandId != rows[k].command.commandId
  }

  ghost predicate SafeRow(j: Journal, r: Row) {
    && r.digest == Sha256(r.command)
    && (r.state.Applied? ==> r.Accepted() && r.appliedVersion == Some(r.command.settings.version) && Holds(j, r.command))
  }

  ghost predicate SafeTask(j: Journal, t: Task) {
    && t.application.digest == Sha256(t.application.command)
    && (t.ending.Some? && t.ending.value.Completing? ==>
          t.ending.value.version == t.application.command.settings.version && Holds(j, t.application.command))
  }

  ghost predicate SafeRows(j: Journal, rows: seq<Row>) { forall r :: r in rows ==> SafeRow(j, r) }
  ghost predicate SafeTasks(j: Journal, tasks: seq<Task>) { forall t :: t in tasks ==> SafeTask(j, t) }

  ghost predicate Safe(s: System) {
    && Invariant(s.Journal())
    && DistinctIds(s.rows) && SafeRows(s.Journal(), s.rows) && SafeTasks(s.Journal(), s.tasks)
  }

  lemma HoldsLater(j: Journal, k: Journal, c: ConfigCommand)
    requires Grows(j, k) && Holds(j, c)
    ensures Holds(k, c)
  {
    var e :| e in j.configs && e.Proves(c);
    assert e in k.configs;
  }

  lemma StaysSafe(j: Journal, k: Journal, rows: seq<Row>, tasks: seq<Task>)
    requires Grows(j, k) && SafeRows(j, rows) && SafeTasks(j, tasks)
    ensures SafeRows(k, rows) && SafeTasks(k, tasks)
  {
    hide Holds, Grows;
    forall r | r in rows ensures SafeRow(k, r) {
      assert SafeRow(j, r);
      if r.state.Applied? { HoldsLater(j, k, r.command); }
    }
    forall t | t in tasks ensures SafeTask(k, t) {
      assert SafeTask(j, t);
      if t.ending.Some? && t.ending.value.Completing? { HoldsLater(j, k, t.application.command); }
    }
  }

  /** What the ledger reports as applied it holds. */
  lemma AppliedIsHeld(s: Session, scope: Scope, c: ConfigCommand, digest: Digest)
    requires ApplyInboxConfig(s, scope, c, digest).result.Ok?
    ensures digest == Sha256(c)
    ensures ApplyInboxConfig(s, scope, c, digest).result.value.version == c.settings.version
    ensures Holds(ApplyInboxConfig(s, scope, c, digest).session.journal, c)
  {
    hide First, CheckApplyVersion;
    var o := ApplyInboxConfig(s, scope, c, digest);
    assert o.result.value in o.session.journal.configs && o.result.value.Proves(c);
  }

  lemma {:induction false} SelectNone<T>(p: T -> bool, s: seq<T>)
    ensures |Select(p, s)| == 0 ==> forall x :: x in s ==> !p(x)
  {
    SelectMember(p, s);
  }

  lemma ReceiveKeepsSafe(j: Journal, rows: seq<Row>, c: ConfigCommand, auth: Authentication, now: int)
    requires DistinctIds(rows) && SafeRows(j, rows) && OwnId(rows, c)
    ensures var after := Receive(rows, c, auth, now).rows; DistinctIds(after) && SafeRows(j, after)
  {
    hide Holds, CurrentVersion, Decide;
    SelectNone(SameIdentity(c), rows);
    var after := Receive(rows, c, auth, now).rows;
    if after != rows {
      forall r | r in rows ensures r.command.commandId != c.commandId { assert !SameIdentity(c)(r); }
    }
    forall r | r in after ensures SafeRow(j, r) { assert r in rows ==> SafeRow(j, r); }
  }

  /** An update of application fields that only marks as applied what the ledger holds. */
  lemma RewriteKeepsSafe(j: Journal, rows: seq<Row>, cid: Id, change: Row -> Row)
    requires DistinctIds(rows) && SafeRows(j, rows)
    requires forall r :: r in rows && r.command.commandId == cid ==>
               change(r).command == r.command && SafeRow(j, change(r))
    ensures DistinctIds(Rewrite(rows, cid, change)) && SafeRows(j, Rewrite(rows, cid, change))
  {
    hide SafeRow;
  }

  lemma BeginKeepsSafe(j: Journal, rows: seq<Row>, cid: Id, retry: bool)
    requires DistinctIds(rows) && SafeRows(j, rows)
    ensures var o := BeginApply(rows, cid, retry);
            && DistinctIds(o.rows) && SafeRows(j, o.rows)
            && (o.result.Ok? ==> o.result.value.digest == Sha256(o.result.value.command))
  {
    hide Holds, DistinctIds;
    var row := AcceptedRow(rows, cid);
    if row.Ok? { assert SafeRow(j, row.value); }
    RewriteKeepsSafe(j, rows, cid, ToApplying());
  }

  lemma SameIdSameRow(rows: seq<Row>, r: Row, x: Row)
    requires DistinctIds(rows) && r in rows && x in rows && r.command.commandId == x.command.commandId
    ensures r == x
  {
  }

  lemma MarkKeepsSafe(j: Journal, rows: seq<Row>, a: Application, version: Positive)
    requires DistinctIds(rows) && SafeRows(j, rows)
    requires a.digest == Sha256(a.command) && version == a.command.settings.version && Holds(j, a.command)
    ensures var after := MarkApplied(rows, a.command.commandId, a.digest, version).rows;
            DistinctIds(after) && SafeRows(j, after)
  {
    hide Holds, DistinctIds;
    var cid := a.command.commandId;
    var found := AcceptedRow(rows, cid);
    if found.Ok? && found.value.digest == a.digest {
      assert SafeRow(j, found.value);
      forall r | r in rows && r.command.commandId == cid ensures SafeRow(j, ToApplied(version)(r)) {
        SameIdSameRow(rows, r, found.value);
      }
      RewriteKeepsSafe(j, rows, cid, ToApplied(version));
    }
  }

  lemma FinishKeepsSafe(j: Journal, rows: seq<Row>, t: Task)
    requires DistinctIds(rows) && SafeRows(j, rows) && SafeTask(j, t) && t.ending.Some?
    ensures var after := Finish(rows, t.application, t.ending.value).rows; DistinctIds(after) && SafeRows(j, after)
  {
    hide Holds, DistinctIds, SafeRows, MarkApplied;
    match t.ending.value
    case Completing(version) => MarkKeepsSafe(j, rows, t.application, version);
    case Blocking(reason) => BlockKeepsSafe(j, rows, t.application.command.commandId, reason);
  }

  lemma BlockKeepsSafe(j: Journal, rows: seq<Row>, cid: Id, reason: string)
    requires DistinctIds(rows) && SafeRows(j, rows)
    ensures var after := BlockApply(rows, cid, reason).rows; DistinctIds(after) && SafeRows(j, after)
  {
    hide Holds, DistinctIds;
    RewriteKeepsSafe(j, rows, cid, ToBlocked(reason));
  }

  /** The ledger's turn is one of its own transactions. */
  lemma TurnReaches(s: Session, scope: Scope, a: Application)
    ensures Reaches(s.journal, LedgerTurn(s, scope, a).1.journal)
  {
    hide Reaches, ApplyInboxConfig;
    ReachesSelf(s.journal);
    InboxReaches(s, scope, a.command, a.digest);
  }

  lemma TurnIsSafe(s: Session, scope: Scope, a: Application)
    requires a.digest == Sha256(a.command)
    ensures var (ending, session) := LedgerTurn(s, scope, a); SafeTask(session.journal, Task(a, Some(ending)))
  {
    hide ApplyInboxConfig, Holds;
    if ApplyInboxConfig(s, scope, a.command, a.digest).result.Ok? { AppliedIsHeld(s, scope, a.command, a.digest); }
  }

  lemma GrowsAndGood(j: Journal, k: Journal)
    requires Invariant(j) && Reaches(j, k)
    ensures Invariant(k) && Grows(j, k)
  {
    hide Invariant, Reaches, Grows;
    ReachedIsGood(j, k);
  }

  lemma LedgerMoveKeepsSafe(s: System, after: World)
    requires Safe(s) && Reaches(s.Journal(), after.Journal())
    ensures Safe(s.(world := after))
  {
    hide Invariant, Reaches, SafeRows, SafeTasks, Grows, DistinctIds;
    GrowsAndGood(s.Journal(), after.Journal());
    StaysSafe(s.Journal(), after.Journal(), s.rows, s.tasks);
  }

  lemma NextIsSafe(s: System, scope: Scope, m: Move)
    requires Safe(s) && Permitted(s, m)
    ensures Safe(Next(s, scope, m))
  {
    hide Invariant, Reaches, SafeRows, SafeRow, SafeTask, DistinctIds, Perform, Worlds.Fresh, Receive, BeginApply, Finish,
         LedgerTurn, OwnId;
    var j := s.Journal();
    match m
    case Receives(c, auth, now) => ReceiveKeepsSafe(j, s.rows, c, auth, now);
    case Begins(cid, retry) =>
      BeginKeepsSafe(j, s.rows, cid, retry);
      BegunTaskIsSafe(j, BeginApply(s.rows, cid, retry));
    case TurnsToLedger(i) =>
      if i < |s.tasks| && s.tasks[i].ending.None? {
        assert SafeTask(j, s.tasks[i]);
        TaskDigest(j, s.tasks[i]);
        TurnReaches(s.world.session, scope, s.tasks[i].application);
        TurnIsSafe(s.world.session, scope, s.tasks[i].application);
        LedgerMoveKeepsSafe(s, Next(s, scope, m).world);
      }
    case Ends(i) =>
      if i < |s.tasks| && s.tasks[i].ending.Some? { FinishKeepsSafe(j, s.rows, s.tasks[i]); }
    case Elsewhere(op) =>
      GoodIsWellFormed(j);
      PerformReaches(s.world, op);
      LedgerMoveKeepsSafe(s, Perform(s.world, op));
    case Fails =>
      GoodIsWellFormed(j);
      CrashIsFresh(s.world);
      PerformReaches(s.world, Crash);
      LedgerMoveKeepsSafe(s, Perform(s.world, Crash));
  }

  /** Both stores at rest. */
  ghost predicate SafeStores(st: Stores) {
    Invariant(st.session.journal) && DistinctIds(st.rows) && SafeRows(st.session.journal, st.rows)
  }

  /** An undisturbed application, whatever comes of it, keeps this. */
  lemma ApplyKeepsSafe(st: Stores, scope: Scope, cid: Id, retry: bool)
    requires SafeStores(st)
    ensures SafeStores(Apply(st, scope, cid, retry).stores)
  {
    hide Invariant, SafeRows, SafeTask, DistinctIds, BeginApply, LedgerTurn, Finish, Reaches, Grows;
    var j := st.session.journal;
    BeginKeepsSafe(j, st.rows, cid, retry);
    var begun := BeginApply(st.rows, cid, retry);
    if st.session.ready && begun.result.Ok? && begun.result.value.state.Applying? {
      var a := begun.result.value;
      var (ending, session) := LedgerTurn(st.session, scope, a);
      TurnReaches(st.session, scope, a);
      TurnIsSafe(st.session, scope, a);
      GrowsAndGood(j, session.journal);
      StaysSafe(j, session.journal, begun.rows, []);
      FinishKeepsSafe(session.journal, begun.rows, Task(a, Some(ending)));
    }
  }

  lemma {:induction false} ResumeKeepsSafe(st: Stores, scope: Scope, ids: seq<Id>, retry: bool)
    requires SafeStores(st)
    ensures SafeStores(Resume(st, scope, ids, retry).stores)
  {
    hide SafeStores, Apply;
    if |ids| > 0 {
      ResumeKeepsSafe(st, scope, ids[..|ids| - 1], retry);
      ApplyKeepsSafe(Resume(st, scope, ids[..|ids| - 1], retry).stores, scope, ids[|ids| - 1], retry);
    }
  }

  lemma TaskDigest(j: Journal, t: Task)
    requires SafeTask(j, t)
    ensures t.application.digest == Sha256(t.application.command)
  {
  }

  lemma CrashIsFresh(w: World)
    ensures Worlds.Fresh(w, Crash)
  {
  }

  lemma BegunTaskIsSafe(j: Journal, begun: Change<Application>)
    requires begun.result.Ok? ==> begun.result.value.digest == Sha256(begun.result.value.command)
    ensures begun.result.Ok? ==> SafeTask(j, Task(begun.result.value, None))
  {
  }

  lemma {:induction false} RunIsSafe(s: System, scope: Scope, moves: seq<Move>)
    requires Safe(s) && AllPermitted(s, scope, moves)
    ensures Safe(RunMoves(s, scope, moves))
  {
    hide Safe, Next, Permitted;
    if |moves| > 0 {
      RunIsSafe(s, scope, moves[..|moves| - 1]);
      NextIsSafe(RunMoves(s, scope, moves[..|moves| - 1]), scope, moves[|moves| - 1]);
    }
  }

  /** In every run, whatever crashes between the commits: a row marked applied is accepted, reports
      its own version, and the ledger holds that command's identifier, digest, version and rule. */
  lemma AppliedMeansHeld(scope: Scope, moves: seq<Move>, r: Row)
    requires AllPermitted(BLANK, scope, moves) && r in RunMoves(BLANK, scope, moves).rows && r.state.Applied?
    ensures r.Accepted() && r.appliedVersion == Some(r.command.settings.version)
    ensures var j := RunMoves(BLANK, scope, moves).Journal();
            var c := r.command.settings;
            && StopBinding(c.symbol, c.version, c.kind, c.threshold) in j.bindings
            && exists e :: e in j.configs && e.symbol == r.command.settings.symbol && e.version == r.command.settings.version
                           && e.proof == Some((r.command.commandId, r.digest))
  {
    hide Invariant, RunMoves, AllPermitted;
    EmptyInvariant();
    RunIsSafe(BLANK, scope, moves);
    assert SafeRow(RunMoves(BLANK, scope, moves).Journal(), r);
  }
}
