/** Completeness of multi-page query evidence (execution/query_evidence.py). */
module QueryEvidence {
  function Elements(s: seq<int>): set<int> { set p | p in s }

  type PageNumber = x: int | 0 < x witness 1

  datatype QueryPages = QueryPages(expectedPages: PageNumber, receivedPages: seq<PageNumber>, finished: bool, failed: bool) {
    predicate Complete() {
      && finished
      && !failed
      && |receivedPages| == expectedPages
      && |Elements(receivedPages)| == expectedPages
      && forall p :: p in receivedPages ==> p <= expectedPages
    }
  }

  datatype QueryEvidence = QueryEvidence(
    startedAt: int, finishedAt: int, revisionAtStart: nat, revisionAtFinish: nat, observedManaged: nat,
    orders: QueryPages, fills: QueryPages, openOrders: QueryPages, balances: QueryPages)
  {
    predicate Complete() {
      && startedAt <= finishedAt
      && revisionAtStart == revisionAtFinish
      && orders.Complete() && fills.Complete() && openOrders.Complete() && balances.Complete()
    }
  }

  /** The page numbers 1..n, once each. */
  function Pages(n: nat): (ps: seq<int>) {
    if n == 0 then [] else Pages(n - 1) + [n]
  }

  lemma {:induction false} PagesAre(n: nat)
    ensures |Pages(n)| == n
    ensures forall i :: 0 <= i < n ==> Pages(n)[i] == i + 1
  {
    if n > 0 { PagesAre(n - 1); }
  }

  function Range(n: nat): set<int> { if n == 0 then {} else Range(n - 1) + {n} }

  lemma {:induction false} RangeSize(n: nat)
    ensures |Range(n)| == n
    ensures forall p :: p in Range(n) <==> 1 <= p <= n
  {
    if n > 0 { RangeSize(n - 1); }
  }

  lemma {:induction false} ElementsAtMost(s: seq<int>)
    ensures |Elements(s)| <= |s|
    ensures |Elements(s)| == |s| <==> forall i, k :: 0 <= i < k < |s| ==> s[i] != s[k]
  {
    if |s| > 0 {
      var n := |s| - 1;
      ElementsAtMost(s[..n]);
      assert s == s[..n] + [s[n]];
      assert Elements(s) == Elements(s[..n]) + {s[n]};
      if s[n] in s[..n] {
        assert Elements(s) == Elements(s[..n]);
        var i :| 0 <= i < n && s[i] == s[n];
      }
    }
  }

  lemma SubsetOfEqualSize(a: set<int>, b: set<int>)
    requires a <= b && |a| == |b|
    ensures a == b
  {
    assert b == a + (b - a);
    assert |b| == |a| + |b - a|;
  }

  lemma {:induction false} CountOfDistinct(s: seq<int>, x: int)
    requires forall i, k :: 0 <= i < k < |s| ==> s[i] != s[k]
    ensures multiset(s)[x] == if x in s then 1 else 0
  {
    if |s| > 0 {
      var n := |s| - 1;
      CountOfDistinct(s[..n], x);
      assert s == s[..n] + [s[n]];
    }
  }

  lemma {:induction false} PagesCount(n: nat, x: int)
    ensures multiset(Pages(n))[x] == if x in Range(n) then 1 else 0
  {
    RangeSize(n);
    if n > 0 {
      PagesCount(n - 1, x);
      RangeSize(n - 1);
    }
  }

  lemma DistinctInRange(s: seq<int>, n: nat)
    requires |s| == n && |Elements(s)| == n
    requires forall p :: p in s ==> 0 < p <= n
    ensures multiset(s) == multiset(Pages(n))
  {
    ElementsAtMost(s);
    RangeSize(n);
    SubsetOfEqualSize(Elements(s), Range(n));
    forall x ensures multiset(s)[x] == multiset(Pages(n))[x] {
      CountOfDistinct(s, x);
      PagesCount(n, x);
      assert x in s <==> x in Elements(s);
    }
  }

  lemma PermutationIsComplete(s: seq<int>, n: nat)
    requires multiset(s) == multiset(Pages(n))
    ensures |s| == n && |Elements(s)| == n
    ensures forall p :: p in s ==> 0 < p <= n
  {
    PagesAre(n);
    RangeSize(n);
    assert |s| == |multiset(s)| == |multiset(Pages(n))|;
    forall x ensures x in s <==> x in Range(n) {
      PagesCount(n, x);
      assert x in s <==> multiset(s)[x] > 0;
    }
    assert Elements(s) == Range(n);
  }

  /** The local tests of an error-free finished response hold exactly when the received pages
      are a rearrangement of 1..expected. */
  lemma CompleteIffPermutation(q: QueryPages)
    ensures q.Complete() <==> q.finished && !q.failed && multiset(q.receivedPages) == multiset(Pages(q.expectedPages))
  {
    var s: seq<int> := q.receivedPages;
    if q.Complete() { DistinctInRange(s, q.expectedPages); }
    if multiset(s) == multiset(Pages(q.expectedPages)) { PermutationIsComplete(s, q.expectedPages); }
  }

  /** Each page once, none missing, and an end without an error. */
  ghost predicate WholeSection(q: QueryPages) {
    q.finished && !q.failed && multiset(q.receivedPages) == multiset(Pages(q.expectedPages))
  }

  /** Evidence is complete exactly when time did not run back, nothing was committed meanwhile, and each of the
      four sections came whole. */
  lemma EvidenceCompleteIff(e: QueryEvidence)
    ensures e.Complete()
       <==> e.startedAt <= e.finishedAt && e.revisionAtStart == e.revisionAtFinish
            && WholeSection(e.orders) && WholeSection(e.fills) && WholeSection(e.openOrders) && WholeSection(e.balances)
  {
    CompleteIffPermutation(e.orders);
    CompleteIffPermutation(e.fills);
    CompleteIffPermutation(e.openOrders);
    CompleteIffPermutation(e.balances);
  }
}
