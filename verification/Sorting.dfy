/** A stable insertion sort, and what it guarantees under a strict order. */
module Sorting {
  /** Put `x` behind everything it does not come strictly before. */
  function Insert<T(!new)>(s: seq<T>, x: T, before: (T, T) -> bool): (r: seq<T>)
    ensures |r| == |s| + 1
    ensures multiset(r) == multiset(s) + multiset{x}
  {
    if s == [] then [x]
    else
      var n := |s| - 1;
      assert s == s[..n] + [s[n]];
      if before(x, s[n]) then Insert(s[..n], x, before) + [s[n]] else s + [x]
  }

  function StableSort<T(!new)>(xs: seq<T>, before: (T, T) -> bool): (r: seq<T>)
    ensures |r| == |xs|
    ensures multiset(r) == multiset(xs)
  {
    if xs == [] then []
    else
      var n := |xs| - 1;
      assert xs == xs[..n] + [xs[n]];
      Insert(StableSort(xs[..n], before), xs[n], before)
  }

  ghost predicate IsSorted<T(!new)>(s: seq<T>, prec: (T, T) -> bool) {
    forall i, j :: 0 <= i < j < |s| ==> prec(s[i], s[j])
  }

  ghost predicate IsTransitive<T(!new)>(prec: (T, T) -> bool) {
    forall a, b, c :: prec(a, b) && prec(b, c) ==> prec(a, c)
  }

  /** Whether `x` goes before or behind each element is decided by `before`, and `prec` agrees. */
  ghost predicate Agrees<T(!new)>(s: seq<T>, x: T, before: (T, T) -> bool, prec: (T, T) -> bool) {
    forall y :: y in s ==> if before(x, y) then prec(x, y) else prec(y, x)
  }

  lemma {:induction false} InsertSorted<T(!new)>(s: seq<T>, x: T, before: (T, T) -> bool, prec: (T, T) -> bool)
    requires IsTransitive(prec) && IsSorted(s, prec) && Agrees(s, x, before, prec)
    ensures IsSorted(Insert(s, x, before), prec)
  {
    if s != [] {
      var n := |s| - 1;
      assert s[n] in s;
      if before(x, s[n]) {
        InsertSorted(s[..n], x, before, prec);
        var r := Insert(s[..n], x, before);
        forall i | 0 <= i < |r| ensures prec(r[i], s[n]) {
          assert r[i] in multiset(r);
          if r[i] != x {
            var k :| 0 <= k < n && s[k] == r[i];
          }
        }
      } else {
        forall i | 0 <= i <= n ensures prec(s[i], x) {
          if i < n { assert prec(s[i], s[n]) && prec(s[n], x); }
        }
      }
    }
  }

  ghost predicate Comparable<T(!new)>(s: seq<T>, x: T, before: (T, T) -> bool) {
    forall y :: y in s ==> before(x, y) || before(y, x)
  }

  lemma SortKeepsComparable<T(!new)>(xs: seq<T>, x: T, before: (T, T) -> bool)
    requires Comparable(xs, x, before)
    ensures Comparable(StableSort(xs, before), x, before)
  {
    forall y | y in StableSort(xs, before) ensures y in xs {
      assert y in multiset(StableSort(xs, before));
      assert y in multiset(xs);
    }
  }

  lemma {:induction false} SortSorts<T(!new)>(xs: seq<T>, before: (T, T) -> bool)
    requires IsTransitive(before)
    requires forall i, j :: 0 <= i < j < |xs| ==> before(xs[i], xs[j]) || before(xs[j], xs[i])
    ensures IsSorted(StableSort(xs, before), before)
    decreases |xs|
  {
    if xs != [] {
      var n := |xs| - 1;
      var front := xs[..n];
      SortSorts(front, before);
      assert Comparable(front, xs[n], before) by {
        forall y | y in front ensures before(xs[n], y) || before(y, xs[n]) {
          var i :| 0 <= i < n && front[i] == y;
          assert xs[i] == y;
        }
      }
      SortKeepsComparable(front, xs[n], before);
      InsertSorted(StableSort(front, before), xs[n], before, before);
    }
  }

  lemma NotBothWays<T(!new)>(a: T, b: T, prec: (T, T) -> bool)
    requires IsTransitive(prec) && forall x :: !prec(x, x)
    ensures !(prec(a, b) && prec(b, a))
  {
  }

  lemma FirstComesFirst<T(!new)>(xs: seq<T>, prec: (T, T) -> bool, x: T)
    requires xs != [] && IsSorted(xs, prec) && x in xs && x != xs[0]
    ensures prec(xs[0], x)
  {
  }

  lemma FirstsAgree<T(!new)>(xs: seq<T>, ys: seq<T>, prec: (T, T) -> bool)
    requires xs != [] && ys != [] && IsSorted(xs, prec) && IsSorted(ys, prec)
    requires IsTransitive(prec) && forall a :: !prec(a, a)
    requires forall x :: x in xs <==> x in ys
    ensures xs[0] == ys[0]
  {
    var a, b := xs[0], ys[0];
    assert a in ys && b in xs;
    NotBothWays(a, b, prec);
    if a != b {
      FirstComesFirst(ys, prec, a);
      FirstComesFirst(xs, prec, b);
    }
  }

  /** A strict order leaves only one way to list the same elements. */
  lemma {:induction false} SortedIsUnique<T(!new)>(xs: seq<T>, ys: seq<T>, prec: (T, T) -> bool)
    requires IsSorted(xs, prec) && IsSorted(ys, prec)
    requires IsTransitive(prec) && forall a :: !prec(a, a)
    requires forall x :: x in xs <==> x in ys
    ensures xs == ys
    decreases |xs|
  {
    assert forall i :: 0 <= i < |xs| ==> xs[i] in ys;
    assert forall i :: 0 <= i < |ys| ==> ys[i] in xs;
    if xs != [] {
      assert xs[0] in ys;
      FirstsAgree(xs, ys, prec);
      forall x ensures x in xs[1..] <==> x in ys[1..] {
        RestHolds(xs, prec, x);
        RestHolds(ys, prec, x);
      }
      SortedIsUnique(xs[1..], ys[1..], prec);
      assert xs == [xs[0]] + xs[1..] && ys == [ys[0]] + ys[1..];
    }
  }

  lemma RestHolds<T(!new)>(xs: seq<T>, prec: (T, T) -> bool, x: T)
    requires xs != [] && IsSorted(xs, prec) && forall a :: !prec(a, a)
    ensures x in xs[1..] <==> x in xs && x != xs[0]
  {
  }
}
