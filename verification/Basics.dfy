/** Values and sums shared by every module. */
module Basics {
  datatype Option<+T> = None | Some(value: T)

  /** The machine-readable code carried by LedgerError, or a value. */
  datatype Result<+T> = Ok(value: T) | Err(code: string) {
    predicate IsFailure() { Err? }
    function PropagateFailure<U>(): (r: Result<U>)
      requires Err?
    { Err(code) }
    function Extract(): T
      requires Ok?
    { value }
  }

  type Positive = x: int | 0 < x witness 1

  datatype Id = Uuid(n: nat) | Uuid5(space: Id, name: string)

  datatype RuleKind = PriceAtOrBelow | AverageCostDrop

  /** The sum of a weight over a sequence. */
  function Total<T>(w: T -> int, s: seq<T>): int {
    if |s| == 0 then 0 else Total(w, s[..|s| - 1]) + w(s[|s| - 1])
  }

  /** The elements that satisfy p, in order. */
  function Select<T>(p: T -> bool, s: seq<T>): seq<T> {
    if |s| == 0 then []
    else Select(p, s[..|s| - 1]) + if p(s[|s| - 1]) then [s[|s| - 1]] else []
  }

  /** The first element that satisfies p: the source's next(..., None). */
  function First<T>(p: T -> bool, s: seq<T>): (r: Option<T>)
    ensures r.Some? ==> r.value in s && p(r.value)
    ensures r.None? ==> forall x :: x in s ==> !p(x)
  {
    if |s| == 0 then None
    else
      var front := First(p, s[..|s| - 1]);
      assert s == s[..|s| - 1] + [s[|s| - 1]];
      if front.Some? then front
      else if p(s[|s| - 1]) then Some(s[|s| - 1]) else None
  }

  /** When at most one element can match, the first match is that element. */
  lemma FirstOnly<T>(p: T -> bool, s: seq<T>, x: T)
    requires x in s && p(x)
    requires forall y :: y in s && p(y) ==> y == x
    ensures First(p, s) == Some(x)
  {
  }

  lemma FirstAppend<T>(p: T -> bool, s: seq<T>, x: T)
    ensures First(p, s + [x]) == if First(p, s).Some? then First(p, s) else if p(x) then Some(x) else None
  {
    assert (s + [x])[..|s|] == s;
  }

  lemma TotalAppend<T>(w: T -> int, s: seq<T>, x: T)
    ensures Total(w, s + [x]) == Total(w, s) + w(x)
  {
    assert (s + [x])[..|s|] == s;
  }

  lemma SelectAppend<T>(p: T -> bool, s: seq<T>, x: T)
    ensures Select(p, s + [x]) == Select(p, s) + if p(x) then [x] else []
  {
    assert (s + [x])[..|s|] == s;
  }

  lemma {:induction false} TotalLe<T>(w: T -> int, v: T -> int, s: seq<T>)
    requires forall x :: x in s ==> w(x) <= v(x)
    ensures Total(w, s) <= Total(v, s)
  {
    if |s| > 0 { TotalLe(w, v, s[..|s| - 1]); }
  }

  lemma {:induction false} TotalEq<T>(w: T -> int, v: T -> int, s: seq<T>)
    requires forall x :: x in s ==> w(x) == v(x)
    ensures Total(w, s) == Total(v, s)
  {
    if |s| > 0 { TotalEq(w, v, s[..|s| - 1]); }
  }

  lemma {:induction false} TotalBalance<T>(a: T -> int, b: T -> int, c: T -> int, d: T -> int, s: seq<T>)
    requires forall x :: x in s ==> a(x) - b(x) == c(x) - d(x)
    ensures Total(a, s) - Total(b, s) == Total(c, s) - Total(d, s)
  {
    if |s| > 0 {
      assert s[|s| - 1] in s;
      TotalBalance(a, b, c, d, s[..|s| - 1]);
    }
  }

  lemma {:induction false} TotalNonNegative<T>(w: T -> int, s: seq<T>)
    requires forall x :: x in s ==> 0 <= w(x)
    ensures 0 <= Total(w, s)
  {
    if |s| > 0 { TotalNonNegative(w, s[..|s| - 1]); }
  }

  /** A sum whose weights differ at one place only differs by that difference. */
  lemma {:induction false} TotalFlip<T>(w: T -> int, v: T -> int, s: seq<T>, i: nat)
    requires i < |s| && forall k :: 0 <= k < |s| && k != i ==> v(s[k]) == w(s[k])
    ensures Total(v, s) == Total(w, s) + v(s[i]) - w(s[i])
  {
    var n := |s| - 1;
    if i < n {
      TotalFlip(w, v, s[..n], i);
    } else {
      assert forall x :: x in s[..n] ==> v(x) == w(x);
      TotalEq(v, w, s[..n]);
    }
  }

  lemma {:induction false} TotalZero<T>(w: T -> int, s: seq<T>)
    requires forall x :: x in s ==> w(x) == 0
    ensures Total(w, s) == 0
  {
    if |s| > 0 { TotalZero(w, s[..|s| - 1]); }
  }

  lemma {:induction false} SelectMember<T>(p: T -> bool, s: seq<T>)
    ensures forall x :: x in Select(p, s) <==> x in s && p(x)
  {
    if |s| > 0 {
      SelectMember(p, s[..|s| - 1]);
      assert s == s[..|s| - 1] + [s[|s| - 1]];
    }
  }

  lemma HasMember<T>(s: seq<T>)
    ensures |s| > 0 ==> exists x :: x in s
  {
    if |s| > 0 { assert s[0] in s; }
  }

  /** Appending distributes over the parts of a sum. */
  lemma {:induction false} TotalConcat<T>(w: T -> int, s: seq<T>, t: seq<T>)
    ensures Total(w, s + t) == Total(w, s) + Total(w, t)
  {
    if |t| == 0 {
      assert s + t == s;
    } else {
      TotalConcat(w, s, t[..|t| - 1]);
      assert (s + t)[..|s + t| - 1] == s + t[..|t| - 1];
    }
  }

  /** A sum depends on which elements there are, not on their order. */
  lemma {:induction false} TotalPermuted<T>(w: T -> int, s: seq<T>, t: seq<T>)
    requires multiset(s) == multiset(t)
    ensures Total(w, s) == Total(w, t)
  {
    if |s| == 0 {
      assert |multiset(t)| == 0;
    } else {
      var x := s[|s| - 1];
      assert x in multiset(t);
      var i :| 0 <= i < |t| && t[i] == x;
      var t' := t[..i] + t[i + 1..];
      assert s == s[..|s| - 1] + [x];
      assert t == t[..i] + [x] + t[i + 1..];
      assert multiset(s) == multiset(s[..|s| - 1]) + multiset{x};
      assert multiset(t) == multiset(t[..i]) + multiset{x} + multiset(t[i + 1..]);
      assert multiset(t') == multiset(t) - multiset{x};
      assert multiset(s[..|s| - 1]) == multiset(s) - multiset{x};
      TotalPermuted(w, s[..|s| - 1], t');
      TotalConcat(w, t[..i], t[i + 1..]);
      TotalConcat(w, t[..i] + [x], t[i + 1..]);
      TotalAppend(w, t[..i], x);
    }
  }

  /* ----- sorting ----- */

  /** Into its place behind everything of no higher rank. */
  function Insert<T>(rank: T -> int, s: seq<T>, x: T): seq<T> {
    if |s| == 0 || rank(s[|s| - 1]) <= rank(x) then s + [x]
    else Insert(rank, s[..|s| - 1], x) + [s[|s| - 1]]
  }

  /** The stable order by rank. */
  function Sorted<T>(rank: T -> int, s: seq<T>): seq<T> {
    if |s| == 0 then [] else Insert(rank, Sorted(rank, s[..|s| - 1]), s[|s| - 1])
  }

  ghost predicate Ascending<T>(rank: T -> int, s: seq<T>) {
    forall i, k :: 0 <= i < k < |s| ==> rank(s[i]) <= rank(s[k])
  }

  lemma AscendingAppend<T(!new)>(rank: T -> int, s: seq<T>, x: T)
    requires Ascending(rank, s) && forall y :: y in s ==> rank(y) <= rank(x)
    ensures Ascending(rank, s + [x])
  {
    assert forall i :: 0 <= i < |s| ==> s[i] in s;
  }

  lemma AscendingFront<T(!new)>(rank: T -> int, s: seq<T>)
    requires Ascending(rank, s) && |s| > 0
    ensures Ascending(rank, s[..|s| - 1])
    ensures forall y :: y in s ==> rank(y) <= rank(s[|s| - 1])
  {
    forall y | y in s ensures rank(y) <= rank(s[|s| - 1]) {
      var i :| 0 <= i < |s| && s[i] == y;
    }
  }

  lemma {:induction false} InsertMembers<T(!new)>(rank: T -> int, s: seq<T>, x: T)
    ensures |Insert(rank, s, x)| == |s| + 1
    ensures forall y :: y in Insert(rank, s, x) <==> y in s || y == x
  {
    if |s| > 0 {
      InsertMembers(rank, s[..|s| - 1], x);
      assert s == s[..|s| - 1] + [s[|s| - 1]];
    }
  }

  lemma {:induction false} InsertBounded<T(!new)>(rank: T -> int, s: seq<T>, x: T, bound: int)
    requires rank(x) <= bound && forall y :: y in s ==> rank(y) <= bound
    ensures forall y :: y in Insert(rank, s, x) ==> rank(y) <= bound
  {
    InsertMembers(rank, s, x);
  }

  lemma {:induction false} InsertPlaces<T(!new)>(rank: T -> int, s: seq<T>, x: T)
    requires Ascending(rank, s)
    ensures Ascending(rank, Insert(rank, s, x))
  {
    hide Ascending;
    if |s| > 0 { AscendingFront(rank, s); }
    if |s| == 0 || rank(s[|s| - 1]) <= rank(x) {
      AscendingAppend(rank, s, x);
    } else {
      var n := |s| - 1;
      InsertPlaces(rank, s[..n], x);
      assert s == s[..n] + [s[n]];
      InsertBounded(rank, s[..n], x, rank(s[n]));
      AscendingAppend(rank, Insert(rank, s[..n], x), s[n]);
    }
  }

  lemma {:induction false} SortedIsSorted<T(!new)>(rank: T -> int, s: seq<T>)
    ensures Ascending(rank, Sorted(rank, s)) && forall x :: x in Sorted(rank, s) <==> x in s
  {
    if |s| > 0 {
      var n := |s| - 1;
      SortedIsSorted(rank, s[..n]);
      assert s == s[..n] + [s[n]];
      InsertPlaces(rank, Sorted(rank, s[..n]), s[n]);
      InsertMembers(rank, Sorted(rank, s[..n]), s[n]);
    }
  }
}
