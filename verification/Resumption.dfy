/** Resuming the pending applications in accepted-version order leaves nothing pending. */
module Resumption {
  import opened Basics
  import opened Settings
  import opened Ownership
  import opened Models
  import opened Validation
  import opened LedgerSpec
  import opened ConfigChain
  import opened Runs
  import opened Inbox
  import opened ConfigApply
  import opened TwoStores
  import opened AcceptedChain
  import opened Convergence

  /* ----- the order of resumption ----- */

  lemma {:induction false} InsertKeepsDistinct(s: seq<Row>, r: Row)
    requires DistinctIds(s) && Ascending(ByVersion(), s)
    requires forall x :: x in s ==> x.command.commandId != r.command.commandId
    ensures DistinctIds(Insert(ByVersion(), s, r))
  {
    if |s| > 0 && ByVersion()(s[|s| - 1]) > ByVersion()(r) {
      var n := |s| - 1;
      InsertKeepsDistinct(s[..n], r);
      InsertPlaces(ByVersion(), s[..n], r);
      InsertMembers(ByVersion(), s[..n], r);
      var t := Insert(ByVersion(), s[..n], r);
      forall i | 0 <= i < |t| ensures t[i].command.commandId != s[n].command.commandId {
        assert t[i] in t;
        if t[i] != r { var k :| 0 <= k < n && s[k] == t[i]; }
      }
    }
  }

  lemma {:induction false} SelectDistinct(p: Row -> bool, s: seq<Row>)
    requires DistinctIds(s)
    ensures DistinctIds(Select(p, s))
  {
    if |s| > 0 {
      var n := |s| - 1;
      SelectDistinct(p, s[..n]);
      SelectMember(p, s[..n]);
      var t := Select(p, s[..n]);
      forall i | 0 <= i < |t| ensures t[i].command.commandId != s[n].command.commandId {
        assert t[i] in t;
        var k :| 0 <= k < n && s[k] == t[i];
      }
    }
  }

  lemma {:induction false} SortedIsDistinct(s: seq<Row>)
    requires DistinctIds(s)
    ensures DistinctIds(Sorted(ByVersion(), s))
  {
    if |s| > 0 {
      var n := |s| - 1;
      SortedIsDistinct(s[..n]);
      SortedIsSorted(ByVersion(), s[..n]);
      forall x | x in Sorted(ByVersion(), s[..n]) ensures x.command.commandId != s[n].command.commandId {
        var k :| 0 <= k < n && s[k] == x;
      }
      InsertKeepsDistinct(Sorted(ByVersion(), s[..n]), s[n]);
    }
  }

  /** What is to be applied, in the order of its accepted versions. */
  function Pending(rows: seq<Row>, retry: bool): seq<Row> { Sorted(ByVersion(), Select(CanBegin(retry), rows)) }

  /** The list of pending rows is a rearrangement, in version order, of the rows that a begin takes up. */
  lemma PendingAre(rows: seq<Row>, retry: bool)
    requires DistinctIds(rows)
    ensures Ascending(ByVersion(), Pending(rows, retry)) && DistinctIds(Pending(rows, retry))
    ensures forall x :: x in Pending(rows, retry) <==> x in rows && CanBegin(retry)(x)
  {
    SelectDistinct(CanBegin(retry), rows);
    SelectMember(CanBegin(retry), rows);
    SortedIsSorted(ByVersion(), Select(CanBegin(retry), rows));
    SortedIsDistinct(Select(CanBegin(retry), rows));
  }

  /* ----- the resumption ----- */

  /** No command of the lease is out of reach: blocked, or blocked beyond retry. */
  ghost predicate AllInReach(rows: seq<Row>, scope: Scope, retry: bool) {
    forall r :: r in rows && Mine(scope, r) ==> r.state.Applied? || CanBegin(retry)(r)
  }

  /** The rows of the done commands are applied, the others are as they were. */
  ghost predicate Advanced(rows: seq<Row>, after: seq<Row>, scope: Scope, done: seq<Id>) {
    && |after| == |rows| && Desires(after) == Desires(rows)
    && (forall i :: 0 <= i < |rows| && rows[i].command.commandId !in done ==> after[i] == rows[i])
    && (forall i :: 0 <= i < |rows| && rows[i].command.commandId in done && Mine(scope, rows[i]) ==> after[i].state.Applied?)
  }

  /** A pending row is done once every pending row of at most its version is. */
  lemma EarlierIsDone(rows: seq<Row>, after: seq<Row>, scope: Scope, k: nat, m: nat, retry: bool)
    requires DistinctIds(rows) && AllInReach(rows, scope, retry) && m < |rows| && Mine(scope, rows[m])
    requires k <= |Pending(rows, retry)| && Advanced(rows, after, scope, IdsOf(Pending(rows, retry))[..k])
    requires k < |Pending(rows, retry)| ==> ByVersion()(rows[m]) < ByVersion()(Pending(rows, retry)[k])
    ensures after[m].state.Applied?
  {
    hide Pending, Desires, ByVersion, DistinctIds;
    var p := Pending(rows, retry);
    PendingAre(rows, retry);
    assert rows[m] in rows;
    if CanBegin(retry)(rows[m]) {
      assert rows[m] in p;
      var q :| 0 <= q < |p| && p[q] == rows[m];
      assert q < k;
      assert IdsOf(p)[..k][q] == rows[m].command.commandId;
    }
  }

  /** Ahead of the next pending row everything is in the ledger. */
  lemma NextPathIsClear(rows: seq<Row>, now: Stores, scope: Scope, k: nat, retry: bool)
    requires DistinctIds(rows) && AllInReach(rows, scope, retry) && Sound(now, scope) && Ordered(Desires(rows))
    requires k < |Pending(rows, retry)| && Advanced(rows, now.rows, scope, IdsOf(Pending(rows, retry))[..k])
    ensures PathClear(Desires(rows), scope, now.session.journal.configs, Bare(Pending(rows, retry)[k]))
  {
    hide Sound, Pending, InLedger, Advanced, AllInReach, Ordered, DistinctIds, ByVersion;
    var r, ds := Pending(rows, retry)[k], Desires(rows);
    PendingAre(rows, retry);
    assert r in Pending(rows, retry);
    forall x | x in ds && Earlier(scope, x, Bare(r)) && x.command.settings.version < r.command.settings.version
      ensures InLedger(now.session.journal.configs, x.command)
    {
      var m :| 0 <= m < |ds| && ds[m] == x;
      RankIsVersion(rows, scope, rows[m]);
      RankIsVersion(rows, scope, r);
      EarlierIsDone(rows, now.rows, scope, k, m, retry);
      AdvancedDesires(rows, now.rows, scope, IdsOf(Pending(rows, retry))[..k]);
      DesiresAt(rows, now.rows, m);
      AppliedIsInLedger(now, scope, m);
    }
  }

  lemma AdvancedDesires(rows: seq<Row>, after: seq<Row>, scope: Scope, done: seq<Id>)
    requires Advanced(rows, after, scope, done)
    ensures |after| == |rows| && Desires(after) == Desires(rows)
  {
  }

  lemma RankIsVersion(rows: seq<Row>, scope: Scope, r: Row)
    requires Ordered(Desires(rows)) && r in rows && Mine(scope, r)
    ensures ByVersion()(r) == r.command.settings.version
  {
    var i :| 0 <= i < |rows| && rows[i] == r;
    assert Links(Desires(rows), i);
  }

  lemma AppliedIsInLedger(now: Stores, scope: Scope, m: nat)
    requires Sound(now, scope) && m < |now.rows| && now.rows[m].state.Applied?
    ensures InLedger(now.session.journal.configs, now.rows[m].command)
  {
    assert now.rows[m] in now.rows && SafeRow(now.session.journal, now.rows[m]);
  }

  lemma {:induction false} ResumeAdvances(st: Stores, scope: Scope, k: nat, retry: bool)
    requires Sound(st, scope) && AllInReach(st.rows, scope, retry) && k <= |Pending(st.rows, retry)|
    ensures var done := IdsOf(Pending(st.rows, retry))[..k];
            var out := Resume(st, scope, done, retry);
            && out.result.Ok? && Sound(out.stores, scope) && Advanced(st.rows, out.stores.rows, scope, done)
    decreases k
  {
    hide Sound, Apply, AllInReach, Pending, Desires;
    var ids := IdsOf(Pending(st.rows, retry));
    if k > 0 {
      var before := ids[..k - 1];
      assert ids[..k][..k - 1] == before;
      ResumeAdvances(st, scope, k - 1, retry);
      var now := Resume(st, scope, before, retry).stores;
      ApplyNext(st, now, scope, k - 1, retry);
      assert ids[..k] == before + [ids[k - 1]];
    }
  }

  lemma SoundIsDistinct(st: Stores, scope: Scope)
    requires Sound(st, scope)
    ensures DistinctIds(st.rows)
  {
  }

  lemma ApplyNext(st: Stores, now: Stores, scope: Scope, k: nat, retry: bool)
    requires Sound(st, scope) && AllInReach(st.rows, scope, retry) && k < |Pending(st.rows, retry)|
    requires Sound(now, scope) && Advanced(st.rows, now.rows, scope, IdsOf(Pending(st.rows, retry))[..k])
    ensures var ids := IdsOf(Pending(st.rows, retry));
            var out := Apply(now, scope, ids[k], retry);
            && out.result.Ok? && Sound(out.stores, scope)
            && Advanced(st.rows, out.stores.rows, scope, ids[..k] + [ids[k]])
  {
    hide Sound, Apply, AllInReach, Desires, Pending, PathClear, TouchesOnly, Mine;
    var p, rows := Pending(st.rows, retry), st.rows;
    SoundIsDistinct(st, scope);
    SoundIsReady(st, scope);
    PendingAre(rows, retry);
    var r := p[k];
    assert r in p;
    var i :| 0 <= i < |rows| && rows[i] == r;
    assert r.command.commandId !in IdsOf(p)[..k];
    NextPathIsClear(rows, now, scope, k, retry);
    ApplyRow(now, scope, i, retry);
    AdvancedFurther(rows, now.rows, Apply(now, scope, r.command.commandId, retry).stores.rows, scope, IdsOf(p)[..k], i);
  }

  lemma AdvancedFurther(rows: seq<Row>, before: seq<Row>, after: seq<Row>, scope: Scope, done: seq<Id>, i: nat)
    requires DistinctIds(rows) && Advanced(rows, before, scope, done) && i < |rows|
    requires TouchesOnly(before, after, rows[i].command.commandId)
    requires Mine(scope, rows[i]) ==> after[i].state.Applied?
    ensures Advanced(rows, after, scope, done + [rows[i].command.commandId])
  {
    hide Desires, Mine;
    forall m | 0 <= m < |rows| ensures before[m].command == rows[m].command { DesiresAt(rows, before, m); }
  }

  /* ----- where it ends ----- */

  /** Every accepted command of the lease is applied, and the ledger has exactly those. */
  ghost predicate Settled(st: Stores, scope: Scope) {
    && (forall r :: r in st.rows && Mine(scope, r) ==> r.state.Applied? && InLedger(st.session.journal.configs, r.command))
    && FromInbox(Desires(st.rows), scope, st.session.journal.configs)
  }

  /** Applying everything in reach, oldest version first, settles the lease. */
  lemma ApplyingSettles(st: Stores, scope: Scope, retry: bool)
    requires Sound(st, scope) && AllInReach(st.rows, scope, retry)
    ensures var ids := IdsOf(Pending(st.rows, retry));
            var out := Resume(st, scope, ids, retry);
            && out.result.Ok? && |out.result.value| == |ids|
            && Sound(out.stores, scope) && Settled(out.stores, scope) && Desires(out.stores.rows) == Desires(st.rows)
  {
    hide Sound, AllInReach, Advanced, Desires, Pending, InLedger, FromInbox;
    var rows, p := st.rows, Pending(st.rows, retry);
    var ids := IdsOf(p);
    ResumeAdvances(st, scope, |p|, retry);
    assert ids[..|p|] == ids;
    var out := Resume(st, scope, ids, retry);
    SoundIsDistinct(st, scope);
    SoundIsReady(st, scope);
    SoundIsReady(out.stores, scope);
    ResumeLength(st, scope, ids, retry);
    AdvancedDesires(rows, out.stores.rows, scope, ids);
    forall r | r in out.stores.rows && Mine(scope, r)
      ensures r.state.Applied? && InLedger(out.stores.session.journal.configs, r.command)
    {
      var i :| 0 <= i < |out.stores.rows| && out.stores.rows[i] == r;
      DesiresAt(rows, out.stores.rows, i);
      EarlierIsDone(rows, out.stores.rows, scope, |p|, i, retry);
      AppliedIsInLedger(out.stores, scope, i);
    }
  }

  /** Nothing of the lease is blocked. */
  ghost predicate NoneBlocked(rows: seq<Row>, scope: Scope) {
    forall r :: r in rows && Mine(scope, r) ==> !r.state.ApplyBlocked?
  }

  lemma ResumptionSettles(st: Stores, scope: Scope)
    requires Sound(st, scope) && NoneBlocked(st.rows, scope)
    ensures var out := ResumePending(st, scope);
            && out.result.Ok? && |out.result.value| == |PendingIds(st.rows)|
            && Sound(out.stores, scope) && Settled(out.stores, scope) && Desires(out.stores.rows) == Desires(st.rows)
  {
    hide Sound, Desires, Settled, Pending, PendingIds;
    SoundIsReady(st, scope);
    PendingIdsAre(st.rows);
    ApplyingSettles(st, scope, false);
  }

  lemma SoundIsReady(st: Stores, scope: Scope)
    requires Sound(st, scope)
    ensures st.session.ready && Ordered(Desires(st.rows)) && FromInbox(Desires(st.rows), scope, st.session.journal.configs)
    ensures Chained(st.session.journal)
  {
  }

  lemma PendingIdsAre(rows: seq<Row>)
    ensures PendingIds(rows) == IdsOf(Pending(rows, false))
  {
    SelectSame(CanBegin(false), IsPending(), rows);
  }

  lemma {:induction false} SelectSame(p: Row -> bool, q: Row -> bool, s: seq<Row>)
    requires forall x :: x in s ==> p(x) == q(x)
    ensures Select(p, s) == Select(q, s)
  {
    if |s| > 0 {
      assert s[|s| - 1] in s;
      SelectSame(p, q, s[..|s| - 1]);
    }
  }

  lemma {:induction false} ResumeLength(st: Stores, scope: Scope, ids: seq<Id>, retry: bool)
    ensures Resume(st, scope, ids, retry).result.Ok? ==> |Resume(st, scope, ids, retry).result.value| == |ids|
  {
    hide Apply;
    if |ids| > 0 { ResumeLength(st, scope, ids[..|ids| - 1], retry); }
  }

  /* ----- the ledger follows the accepted chain ----- */

  function AppliedVersions(configs: seq<AppliedConfig>, symbol: string): seq<int> {
    if |configs| == 0 then []
    else
      var last := configs[|configs| - 1];
      AppliedVersions(configs[..|configs| - 1], symbol) + if last.symbol == symbol then [last.version] else []
  }

  function AcceptedVersions(rows: seq<Row>, scope: Scope, symbol: string): seq<int> {
    if |rows| == 0 then []
    else
      var last := rows[|rows| - 1];
      AcceptedVersions(rows[..|rows| - 1], scope, symbol)
      + if Mine(scope, last) && last.command.settings.symbol == symbol then [last.command.settings.version] else []
  }

  ghost predicate Rising(s: seq<int>) { forall i, k :: 0 <= i < k < |s| ==> s[i] < s[k] }

  lemma RisingAppend(s: seq<int>, x: int)
    requires Rising(s) && forall v :: v in s ==> v < x
    ensures Rising(s + [x])
  {
    assert forall i :: 0 <= i < |s| ==> s[i] in s;
  }

  /** In a rising sequence the last element is the greatest and occurs nowhere else. */
  lemma LastOfRising(s: seq<int>)
    requires Rising(s) && |s| > 0
    ensures Rising(s[..|s| - 1])
    ensures forall x :: x in s[..|s| - 1] <==> x in s && x < s[|s| - 1]
    ensures forall x :: x in s ==> x <= s[|s| - 1]
  {
    var n := |s| - 1;
    assert s == s[..n] + [s[n]];
    forall x | x in s[..n] ensures x < s[n] { var i :| 0 <= i < n && s[i] == x; }
  }

  lemma {:induction false} RisingEqual(s: seq<int>, t: seq<int>)
    requires Rising(s) && Rising(t) && forall x :: x in s <==> x in t
    ensures s == t
  {
    assert |s| > 0 ==> s[0] in s && s[0] in t;
    assert |t| > 0 ==> t[0] in t && t[0] in s;
    if |s| > 0 && |t| > 0 {
      var m, n := |s| - 1, |t| - 1;
      assert s[m] in s && t[n] in t;
      LastOfRising(s);
      LastOfRising(t);
      assert s[m] == t[n];
      var front, start := s[..m], t[..n];
      forall x ensures x in front <==> x in start { assert x in s <==> x in t; }
      RisingEqual(front, start);
      assert s == s[..m] + [s[m]] && t == t[..n] + [t[n]];
    }
  }

  lemma {:induction false} AppliedRises(configs: seq<AppliedConfig>, symbol: string)
    requires Advancing(configs)
    ensures Rising(AppliedVersions(configs, symbol))
    ensures forall v :: v in AppliedVersions(configs, symbol) <==>
              exists c :: c in configs && c.symbol == symbol && c.version == v
  {
    if |configs| > 0 {
      var n := |configs| - 1;
      AppliedRises(configs[..n], symbol);
      assert configs == configs[..n] + [configs[n]];
      forall v | v in AppliedVersions(configs[..n], symbol) && configs[n].symbol == symbol ensures v < configs[n].version {
        var c :| c in configs[..n] && c.symbol == symbol && c.version == v;
        var i :| 0 <= i < n && configs[i] == c;
      }
      if configs[n].symbol == symbol { RisingAppend(AppliedVersions(configs[..n], symbol), configs[n].version); }
    }
  }

  ghost predicate Bears(ds: seq<Row>, scope: Scope, symbol: string, v: int) {
    exists r :: r in ds && Mine(scope, r) && r.command.settings.symbol == symbol && r.command.settings.version == v
  }

  lemma {:induction false} AcceptedRises(ds: seq<Row>, scope: Scope, symbol: string)
    requires Ordered(ds)
    ensures Rising(AcceptedVersions(ds, scope, symbol))
    ensures forall v :: v in AcceptedVersions(ds, scope, symbol) <==> Bears(ds, scope, symbol, v)
  {
    hide Ordered;
    if |ds| > 0 {
      var n := |ds| - 1;
      var front, last := ds[..n], ds[n];
      OrderedPrefix(ds, n);
      AcceptedRises(front, scope, symbol);
      assert ds == front + [last];
      if Mine(scope, last) && last.command.settings.symbol == symbol {
        forall v | v in AcceptedVersions(front, scope, symbol) ensures v < last.command.settings.version {
          var r :| r in front && Mine(scope, r) && r.command.settings.symbol == symbol && r.command.settings.version == v;
          NewestIsHighest(front, last, r);
        }
        RisingAppend(AcceptedVersions(front, scope, symbol), last.command.settings.version);
      }
    }
  }

  lemma OrderedPrefix(ds: seq<Row>, m: nat)
    requires Ordered(ds) && m <= |ds|
    ensures Ordered(ds[..m])
  {
    hide CurrentVersion, KeyOf;
    forall i | 0 <= i < m ensures Links(ds[..m], i) {
      assert ds[..m][..i] == ds[..i];
      assert Links(ds, i);
    }
  }

  lemma DesiresAccept(rows: seq<Row>, scope: Scope, symbol: string)
    ensures AcceptedVersions(Desires(rows), scope, symbol) == AcceptedVersions(rows, scope, symbol)
  {
    assert Desires(Desires(rows)) == Desires(rows);
    SameAccepted(Desires(rows), rows, scope, symbol);
  }

  /** In a settled lease the ledger applied exactly the accepted versions. */
  lemma SettledVersion(st: Stores, scope: Scope, symbol: string, v: int)
    requires Settled(st, scope)
    ensures (exists c :: c in st.session.journal.configs && c.symbol == symbol && c.version == v)
       <==> Bears(Desires(st.rows), scope, symbol, v)
  {
    hide FromInbox, Desires;
    var ds, configs := Desires(st.rows), st.session.journal.configs;
    if c :| c in configs && c.symbol == symbol && c.version == v {
      var x := SourceOf(ds, scope, configs, c);
      assert Bears(ds, scope, symbol, v);
    }
    if Bears(ds, scope, symbol, v) {
      var x :| x in ds && Mine(scope, x) && x.command.settings.symbol == symbol && x.command.settings.version == v;
      var i :| 0 <= i < |ds| && ds[i] == x;
      assert st.rows[i] in st.rows && st.rows[i].command == x.command;
    }
  }

  lemma SettledIsChain(st: Stores, scope: Scope, symbol: string)
    requires Sound(st, scope) && Settled(st, scope)
    ensures AppliedVersions(st.session.journal.configs, symbol) == AcceptedVersions(st.rows, scope, symbol)
  {
    hide Sound, Settled, Ordered, Chained, Desires, Bears, Advancing, AppliedVersions, AcceptedVersions, FromInbox;
    var configs := st.session.journal.configs;
    SoundIsReady(st, scope);
    ChainedAdvances(st.session.journal);
    AppliedRises(configs, symbol);
    var ds := Desires(st.rows);
    AcceptedRises(ds, scope, symbol);
    DesiresAccept(st.rows, scope, symbol);
    forall v ensures v in AppliedVersions(configs, symbol) <==> v in AcceptedVersions(ds, scope, symbol) {
      SettledVersion(st, scope, symbol, v);
    }
    RisingEqual(AppliedVersions(configs, symbol), AcceptedVersions(st.rows, scope, symbol));
  }

  lemma ChainedAdvances(j: Journal)
    requires Chained(j)
    ensures Advancing(j.configs)
  {
  }

  /** Every command of the lease is applied and held, and the versions the ledger took for each symbol
      are the accepted chain. */
  ghost predicate Converged(before: seq<Row>, st: Stores, scope: Scope) {
    && (forall r :: r in st.rows && Mine(scope, r) ==>
          r.state.Applied? && r.appliedVersion == Some(r.command.settings.version) && Holds(st.session.journal, r.command))
    && forall symbol ::
         AppliedVersions(st.session.journal.configs, symbol) == AcceptedVersions(before, scope, symbol)
  }

  lemma SettledConverges(before: seq<Row>, st: Stores, scope: Scope)
    requires Sound(st, scope) && Settled(st, scope) && Desires(st.rows) == Desires(before)
    ensures Converged(before, st, scope)
  {
    hide Sound, Settled, Desires, Holds;
    forall r | r in st.rows && Mine(scope, r)
      ensures r.state.Applied? && r.appliedVersion == Some(r.command.settings.version) && Holds(st.session.journal, r.command)
    {
      SettledRow(st, scope, r);
    }
    forall symbol ensures AppliedVersions(st.session.journal.configs, symbol) == AcceptedVersions(before, scope, symbol) {
      SettledIsChain(st, scope, symbol);
      SameAccepted(st.rows, before, scope, symbol);
    }
  }

  lemma ReachedIsSound(scope: Scope, moves: seq<Move>)
    requires AllPermitted(BLANK, scope, moves) && InboxOnly(moves)
    requires RunMoves(BLANK, scope, moves).world.session.ready
    ensures var s := RunMoves(BLANK, scope, moves); Sound(Stores(s.rows, s.world.session), scope)
  {
    hide RunMoves, AllPermitted, Sound, Safe, Orderly, InboxOnly;
    BlankIsSafe(scope);
    RunIsSafe(BLANK, scope, moves);
    RunIsOrderly(BLANK, scope, moves);
    SafeAndOrderlyIsSound(RunMoves(BLANK, scope, moves), scope);
  }

  /** After any run in which only the inbox configures, with any crashes, retries and concurrent
      coordinators, once the session is reviewed and no command of the lease stands blocked: resuming
      succeeds and converges. */
  lemma ResumingConverges(scope: Scope, moves: seq<Move>)
    requires AllPermitted(BLANK, scope, moves) && InboxOnly(moves)
    requires var s := RunMoves(BLANK, scope, moves); s.world.session.ready && NoneBlocked(s.rows, scope)
    ensures var s := RunMoves(BLANK, scope, moves);
            var out := ResumePending(Stores(s.rows, s.world.session), scope);
            out.result.Ok? && Converged(s.rows, out.stores, scope)
  {
    hide RunMoves, AllPermitted, Sound, Desires, NoneBlocked, ResumePending, Settled, InboxOnly, Converged;
    var s := RunMoves(BLANK, scope, moves);
    var st := Stores(s.rows, s.world.session);
    ReachedIsSound(scope, moves);
    ResumptionSettles(st, scope);
    SettledConverges(s.rows, ResumePending(st, scope).stores, scope);
  }

  /** After any such run whatever stands blocked: applying everything that is not applied with an
      explicit retry, in the order of accepted versions, succeeds and converges, short of commands
      whose authentication a migration left unverified. */
  lemma RetryingConverges(scope: Scope, moves: seq<Move>)
    requires AllPermitted(BLANK, scope, moves) && InboxOnly(moves)
    requires var s := RunMoves(BLANK, scope, moves);
             s.world.session.ready && forall r :: r in s.rows && Mine(scope, r) ==> r.applyReason != Some(LEGACY)
    ensures var s := RunMoves(BLANK, scope, moves);
            var out := Resume(Stores(s.rows, s.world.session), scope, IdsOf(Pending(s.rows, true)), true);
            out.result.Ok? && Converged(s.rows, out.stores, scope)
  {
    hide RunMoves, AllPermitted, Sound, Desires, Resume, Settled, InboxOnly, Converged, Pending;
    var s := RunMoves(BLANK, scope, moves);
    var st := Stores(s.rows, s.world.session);
    ReachedIsSound(scope, moves);
    ApplyingSettles(st, scope, true);
    SettledConverges(s.rows, Resume(st, scope, IdsOf(Pending(s.rows, true)), true).stores, scope);
  }

  lemma BlankIsSafe(scope: Scope)
    ensures Safe(BLANK) && Orderly(BLANK, scope)
  {
    hide Invariant;
    EmptyInvariant();
  }

  lemma SafeAndOrderlyIsSound(s: System, scope: Scope)
    requires Safe(s) && Orderly(s, scope) && s.world.session.ready
    ensures Sound(Stores(s.rows, s.world.session), scope)
  {
    hide Invariant, Ordered, FromInbox, InOrder, SafeRows, DistinctIds, Desires;
  }

  lemma SettledRow(st: Stores, scope: Scope, r: Row)
    requires Sound(st, scope) && Settled(st, scope) && r in st.rows && Mine(scope, r)
    ensures r.state.Applied? && r.appliedVersion == Some(r.command.settings.version) && Holds(st.session.journal, r.command)
  {
    hide Invariant, Ordered, FromInbox, InOrder, DistinctIds, Desires, Holds;
    assert SafeRow(st.session.journal, r);
  }

  lemma {:induction false} SameAccepted(a: seq<Row>, b: seq<Row>, scope: Scope, symbol: string)
    requires Desires(a) == Desires(b)
    ensures AcceptedVersions(a, scope, symbol) == AcceptedVersions(b, scope, symbol)
  {
    assert |Desires(a)| == |a| && |Desires(b)| == |b|;
    if |a| > 0 {
      var n := |a| - 1;
      DesiresAt(a, b, n);
      assert Desires(a[..n]) == Desires(a)[..n] && Desires(b[..n]) == Desires(b)[..n];
      SameAccepted(a[..n], b[..n], scope, symbol);
    }
  }
}
