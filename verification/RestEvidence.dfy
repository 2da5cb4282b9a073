/** Batches of read-only queries (adapters/kiwoom_rest_evidence.py): checking neighbours in start
    order settles every pair of query intervals. */
module RestEvidence {
  import opened Basics

  datatype RestQuery = Positions | Unfilled | OrderDetail | OrderStatus | Fills {
    function Section(): string {
      match this
      case Positions => "balances"
      case Unfilled => "open_orders"
      case OrderDetail => "orders"
      case OrderStatus => "orders"
      case Fills => "fills"
    }
  }

  datatype ReadScope = ReadScope(accountAlias: string, appAlias: string)

  datatype ObservedQuery = ObservedQuery(
    scope: ReadScope, query: RestQuery, complete: bool, startedAt: int, finishedAt: int,
    revisionAtStart: int, revisionAtFinish: int)
  {
    predicate Consistent() {
      && complete && startedAt <= finishedAt
      && revisionAtStart >= 0 && revisionAtFinish >= 0 && revisionAtStart == revisionAtFinish
    }
  }

  function ByStart(): ObservedQuery -> int { (q: ObservedQuery) => q.startedAt }

  predicate NeighboursClear(ordered: seq<ObservedQuery>) {
    forall i :: 0 <= i < |ordered| - 1 ==> ordered[i].finishedAt <= ordered[i + 1].startedAt
  }

  const REQUIRED_SECTIONS: set<string> := {"orders", "fills", "open_orders", "balances"}

  datatype RestReadBatch = RestReadBatch(scope: ReadScope, queries: seq<ObservedQuery>) {
    function MissingSections(): set<string> {
      REQUIRED_SECTIONS - set q | q in queries :: q.query.Section()
    }

    function IntervalReason(): string {
      if !NeighboursClear(Sorted(ByStart(), queries)) then "QUERY_INTERVAL_OVERLAP"
      else if |set q | q in queries :: q.revisionAtStart| != 1 then "EVENT_REVISION_CHANGED"
      else if MissingSections() != {} then "MISSING_QUERY_SECTIONS"
      else "BROKER_IDENTITY_MAPPING_UNVERIFIED"
    }

    /** The first missing boundary. */
    function ReviewReason(): string {
      if |queries| == 0 then "NO_QUERY_EVIDENCE"
      else if exists q :: q in queries && q.scope != scope then "SCOPE_MISMATCH"
      else if |set q | q in queries :: q.query| != |queries| then "DUPLICATE_QUERY_SECTION"
      else if exists q :: q in queries && !q.Consistent() then "QUERY_INTERVAL_UNCONFIRMED"
      else IntervalReason()
    }

    /** No boundary of the batch's intervals and revisions is missing. */
    predicate IntervalsConfirmed() {
      ReviewReason() in {"MISSING_QUERY_SECTIONS", "BROKER_IDENTITY_MAPPING_UNVERIFIED"}
    }
  }

  /* ----- neighbours and pairs ----- */

  ghost predicate AllConsistent(queries: seq<ObservedQuery>) { forall q :: q in queries ==> q.Consistent() }

  /** Each interval ends before every later one starts. */
  ghost predicate AllClear(s: seq<ObservedQuery>) {
    forall i, k :: 0 <= i < k < |s| ==> s[i].finishedAt <= s[k].startedAt
  }

  lemma {:induction false} ChainClears(s: seq<ObservedQuery>, i: nat, k: nat)
    requires AllConsistent(s) && NeighboursClear(s) && i < k < |s|
    ensures s[i].finishedAt <= s[k].startedAt
    decreases k
  {
    if i + 1 < k {
      ChainClears(s, i, k - 1);
      assert s[k - 1] in s && s[k - 1].finishedAt <= s[k - 1 + 1].startedAt;
    }
  }

  lemma NeighboursSettleAll(s: seq<ObservedQuery>)
    requires AllConsistent(s)
    ensures NeighboursClear(s) <==> AllClear(s)
  {
    if NeighboursClear(s) {
      forall i, k | 0 <= i < k < |s| ensures s[i].finishedAt <= s[k].startedAt { ChainClears(s, i, k); }
    }
  }

  /** The pair in the order of their starts, ties as listed. */
  predicate PairClear(a: ObservedQuery, b: ObservedQuery) {
    if a.startedAt <= b.startedAt then a.finishedAt <= b.startedAt else b.finishedAt <= a.startedAt
  }

  ghost predicate PairsClear(queries: seq<ObservedQuery>) {
    forall i, k :: 0 <= i < k < |queries| ==> PairClear(queries[i], queries[k])
  }

  lemma {:induction false} InsertClears(s: seq<ObservedQuery>, q: ObservedQuery)
    requires Ascending(ByStart(), s)
    ensures AllClear(Insert(ByStart(), s, q)) <==> AllClear(s) && forall x :: x in s ==> PairClear(x, q)
  {
    var n := |s| - 1;
    if |s| == 0 || s[n].startedAt <= q.startedAt {
      InsertLast(s, q);
    } else {
      InsertClears(s[..n], q);
      InsertPlaces(ByStart(), s[..n], q);
      InsertMembers(ByStart(), s[..n], q);
      assert s == s[..n] + [s[n]];
      InsertBefore(s[..n], q, Insert(ByStart(), s[..n], q), s[n]);
    }
  }

  lemma InsertLast(s: seq<ObservedQuery>, q: ObservedQuery)
    requires Ascending(ByStart(), s) && (|s| > 0 ==> s[|s| - 1].startedAt <= q.startedAt)
    ensures AllClear(s + [q]) <==> AllClear(s) && forall x :: x in s ==> PairClear(x, q)
  {
    var t := s + [q];
    forall x | x in s ensures x.startedAt <= q.startedAt { var i :| 0 <= i < |s| && s[i] == x; }
    assert forall i :: 0 <= i < |s| ==> t[i] == s[i] && s[i] in s;
    if AllClear(t) {
      forall x | x in s ensures PairClear(x, q) {
        var i :| 0 <= i < |s| && s[i] == x;
        assert t[i].finishedAt <= t[|s|].startedAt;
      }
      forall i, k | 0 <= i < k < |s| ensures s[i].finishedAt <= s[k].startedAt {
        assert t[i].finishedAt <= t[k].startedAt;
      }
    }
  }

  lemma InsertBefore(front: seq<ObservedQuery>, q: ObservedQuery, t: seq<ObservedQuery>, last: ObservedQuery)
    requires Ascending(ByStart(), front + [last]) && Ascending(ByStart(), t) && forall x :: x in t <==> x in front || x == q
    requires q.startedAt < last.startedAt
    requires AllClear(t) <==> AllClear(front) && forall x :: x in front ==> PairClear(x, q)
    ensures AllClear(t + [last]) <==> AllClear(front + [last]) && forall x :: x in front + [last] ==> PairClear(x, q)
  {
    var s := front + [last];
    forall x | x in front ensures x.startedAt <= last.startedAt {
      var i :| 0 <= i < |front| && front[i] == x;
      assert s[i].startedAt <= s[|front|].startedAt;
    }
    assert Ascending(ByStart(), front) by {
      forall i, k | 0 <= i < k < |front| ensures front[i].startedAt <= front[k].startedAt {
        assert s[i].startedAt <= s[k].startedAt;
      }
    }
    assert forall x :: x in s <==> x in front || x == last;
    assert forall i :: 0 <= i < |t| ==> t[i] in t;
    InsertLast(t, last);
    InsertLast(front, last);
    assert PairClear(q, last) <==> PairClear(last, q);
    assert (forall x :: x in t ==> PairClear(x, last)) <==> PairClear(q, last) && forall x :: x in front ==> PairClear(x, last);
    assert (forall x :: x in s ==> PairClear(x, q)) <==> PairClear(last, q) && forall x :: x in front ==> PairClear(x, q);
  }

  lemma {:induction false} SortedClears(queries: seq<ObservedQuery>)
    ensures AllClear(Sorted(ByStart(), queries)) <==> PairsClear(queries)
  {
    if |queries| > 0 {
      var n := |queries| - 1;
      var front := queries[..n];
      SortedClears(front);
      SortedIsSorted(ByStart(), front);
      InsertClears(Sorted(ByStart(), front), queries[n]);
      assert queries == front + [queries[n]];
      assert forall x :: x in front ==> exists i :: 0 <= i < n && queries[i] == x;
      assert forall i :: 0 <= i < n ==> queries[i] in front;
    }
  }

  /* ----- what a confirmed batch has established ----- */

  ghost predicate OneRevision(queries: seq<ObservedQuery>) {
    forall p, q :: p in queries && q in queries ==> p.revisionAtStart == q.revisionAtStart == q.revisionAtFinish
  }

  lemma SingletonSet<T>(s: set<T>, x: T)
    requires x in s
    ensures |s| == 1 <==> forall y :: y in s ==> y == x
  {
    var rest := s - {x};
    assert s == rest + {x};
    assert |s| == |rest| + 1;
    assert (forall y :: y in s ==> y == x) <==> rest == {};
  }

  /** A batch is confirmed exactly when it has queries, all of its scope, of different kinds, complete
      and consistent, its intervals clear pair by pair, and one event revision throughout. */
  lemma ConfirmedIff(b: RestReadBatch)
    ensures b.IntervalsConfirmed()
       <==> && |b.queries| > 0 && (forall q :: q in b.queries ==> q.scope == b.scope)
            && |set q | q in b.queries :: q.query| == |b.queries|
            && (forall q :: q in b.queries ==>
                  q.complete && q.startedAt <= q.finishedAt && 0 <= q.revisionAtStart == q.revisionAtFinish)
            && PairsClear(b.queries) && OneRevision(b.queries)
  {
    Spelled(b.queries);
    hide AllConsistent, NeighboursClear, PairsClear, OneRevision, Sorted;
    assert AllConsistent(b.queries) <==> !exists q :: q in b.queries && !q.Consistent() by { ConsistentMeans(b.queries); }
    if AllConsistent(b.queries) && |b.queries| > 0 {
      NeighboursMean(b.queries);
      RevisionsAgree(b.queries, set q | q in b.queries :: q.revisionAtStart);
    }
  }

  lemma Spelled(queries: seq<ObservedQuery>)
    ensures AllConsistent(queries)
       <==> forall q :: q in queries ==>
              q.complete && q.startedAt <= q.finishedAt && 0 <= q.revisionAtStart == q.revisionAtFinish
  {
  }

  /** Of a confirmed batch sections are missing unless it queried an order, the fills, what is unfilled and the
      positions; whatever it queried, the broker's identity is left to verify. */
  lemma CoverageIff(b: RestReadBatch)
    requires b.IntervalsConfirmed()
    ensures b.ReviewReason() == "BROKER_IDENTITY_MAPPING_UNVERIFIED"
       <==> && (exists q :: q in b.queries && (q.query.OrderDetail? || q.query.OrderStatus?))
            && (exists q :: q in b.queries && q.query.Fills?) && (exists q :: q in b.queries && q.query.Unfilled?)
            && exists q :: q in b.queries && q.query.Positions?
  {
    hide RestQuery.Section;
    forall section ensures section in (set q | q in b.queries :: q.query.Section()) <==> Queried(b, section) {}
    SectionsAre(b);
    MissingAre(b);
  }

  ghost predicate Queried(b: RestReadBatch, section: string) { exists q :: q in b.queries && q.query.Section() == section }

  lemma SectionsAre(b: RestReadBatch)
    ensures Queried(b, "orders") <==> exists q :: q in b.queries && (q.query.OrderDetail? || q.query.OrderStatus?)
    ensures Queried(b, "fills") <==> exists q :: q in b.queries && q.query.Fills?
    ensures Queried(b, "open_orders") <==> exists q :: q in b.queries && q.query.Unfilled?
    ensures Queried(b, "balances") <==> exists q :: q in b.queries && q.query.Positions?
  {
    assert forall q: ObservedQuery :: q.query.Section() == "orders" <==> q.query.OrderDetail? || q.query.OrderStatus?;
    assert forall q: ObservedQuery :: q.query.Section() == "fills" <==> q.query.Fills?;
    assert forall q: ObservedQuery :: q.query.Section() == "open_orders" <==> q.query.Unfilled?;
    assert forall q: ObservedQuery :: q.query.Section() == "balances" <==> q.query.Positions?;
  }

  lemma MissingAre(b: RestReadBatch)
    ensures b.MissingSections() == {}
       <==> Queried(b, "orders") && Queried(b, "fills") && Queried(b, "open_orders") && Queried(b, "balances")
  {
    hide RestQuery.Section;
    var seen := set q | q in b.queries :: q.query.Section();
    assert b.MissingSections() == REQUIRED_SECTIONS - seen;
    assert forall section :: section in REQUIRED_SECTIONS <==> section in {"orders", "fills", "open_orders", "balances"};
    forall section | section in REQUIRED_SECTIONS
      ensures section in seen || section in b.MissingSections()
      ensures section in seen <==> Queried(b, section)
    {
    }
    if Queried(b, "orders") && Queried(b, "fills") && Queried(b, "open_orders") && Queried(b, "balances") {
      assert forall section :: section in REQUIRED_SECTIONS ==> section in seen;
    }
  }

  lemma ConsistentMeans(queries: seq<ObservedQuery>)
    ensures AllConsistent(queries) <==> !exists q :: q in queries && !q.Consistent()
  {
  }

  lemma NeighboursMean(queries: seq<ObservedQuery>)
    requires AllConsistent(queries)
    ensures NeighboursClear(Sorted(ByStart(), queries)) <==> PairsClear(queries)
  {
    hide Sorted;
    SortedClears(queries);
    SortedIsSorted(ByStart(), queries);
    NeighboursSettleAll(Sorted(ByStart(), queries));
  }

  lemma RevisionsAgree(queries: seq<ObservedQuery>, revisions: set<int>)
    requires AllConsistent(queries) && |queries| > 0 && revisions == set q | q in queries :: q.revisionAtStart
    ensures |revisions| == 1 <==> OneRevision(queries)
  {
    var v := queries[0].revisionAtStart;
    assert queries[0] in queries && v in revisions;
    SingletonSet(revisions, v);
    if forall w :: w in revisions ==> w == v {
      forall q | q in queries ensures q.revisionAtStart == v == q.revisionAtFinish { assert q.revisionAtStart in revisions; }
    }
  }

  /** The intervals of a confirmed batch are pairwise disjoint. */
  lemma ConfirmedIsDisjoint(b: RestReadBatch, i: nat, k: nat, instant: int)
    requires b.IntervalsConfirmed() && i < k < |b.queries|
    ensures !(b.queries[i].startedAt < instant < b.queries[i].finishedAt
              && b.queries[k].startedAt < instant < b.queries[k].finishedAt)
    ensures b.queries[i].finishedAt <= b.queries[k].startedAt || b.queries[k].finishedAt <= b.queries[i].startedAt
  {
    ConfirmedIff(b);
    assert PairClear(b.queries[i], b.queries[k]);
  }
}
