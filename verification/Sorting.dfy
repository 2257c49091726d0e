/** Array.prototype.sort: stable, by a comparator that is a strict weak order. */
module Sorting {
  import opened Sequences

  ghost predicate WeakOrder<T(!new)>(less: (T, T) -> bool) {
    && (forall a, b :: less(a, b) ==> !less(b, a))
    && (forall a, b, c :: !less(a, b) && !less(b, c) ==> !less(a, c))
  }

  ghost predicate TotalOrder<T(!new)>(less: (T, T) -> bool) {
    WeakOrder(less) && forall a, b :: a != b ==> less(a, b) || less(b, a)
  }

  predicate SortedBy<T>(less: (T, T) -> bool, s: seq<T>) {
    forall i, j :: 0 <= i < j < |s| ==> !less(s[j], s[i])
  }

  /** Inserts behind everything that is not greater. */
  function Insert<T>(less: (T, T) -> bool, s: seq<T>, x: T): seq<T> {
    if s == [] || !less(x, s[|s| - 1]) then s + [x]
    else Insert(less, s[..|s| - 1], x) + [s[|s| - 1]]
  }

  function Sort<T>(less: (T, T) -> bool, s: seq<T>): seq<T> {
    if s == [] then [] else Insert(less, Sort(less, s[..|s| - 1]), s[|s| - 1])
  }

  lemma {:induction false} InsertContents<T>(less: (T, T) -> bool, s: seq<T>, x: T)
    ensures multiset(Insert(less, s, x)) == multiset(s) + multiset{x}
  {
    if s != [] && less(x, s[|s| - 1]) {
      InsertContents(less, s[..|s| - 1], x);
      assert s == s[..|s| - 1] + [s[|s| - 1]];
    }
  }

  lemma {:induction false} SortContents<T>(less: (T, T) -> bool, s: seq<T>)
    ensures multiset(Sort(less, s)) == multiset(s)
    ensures |Sort(less, s)| == |s|
    ensures forall x :: x in Sort(less, s) <==> x in s
  {
    if s != [] {
      SortContents(less, s[..|s| - 1]);
      InsertContents(less, Sort(less, s[..|s| - 1]), s[|s| - 1]);
      assert s == s[..|s| - 1] + [s[|s| - 1]];
    }
    SameElements(Sort(less, s), s);
  }

  lemma SameElements<T>(a: seq<T>, b: seq<T>)
    requires multiset(a) == multiset(b)
    ensures |a| == |b| && forall x :: x in a <==> x in b
  {
    assert |multiset(a)| == |multiset(b)|;
    forall x
      ensures x in a <==> x in b
    {
      assert x in a <==> x in multiset(a);
      assert x in b <==> x in multiset(b);
    }
  }

  lemma InsertElements<T(!new)>(less: (T, T) -> bool, s: seq<T>, x: T)
    ensures forall y :: y in Insert(less, s, x) <==> y in s || y == x
  {
    InsertContents(less, s, x);
    SameElements(Insert(less, s, x), s + [x]);
  }

  lemma {:induction false} InsertSorted<T(!new)>(less: (T, T) -> bool, s: seq<T>, x: T)
    requires WeakOrder(less) && SortedBy(less, s)
    ensures SortedBy(less, Insert(less, s, x))
  {
    if s != [] && less(x, s[|s| - 1]) {
      var front, last := s[..|s| - 1], s[|s| - 1];
      InsertSorted(less, front, x);
      InsertElements(less, front, x);
      forall y | y in Insert(less, front, x)
        ensures !less(last, y)
      {
        if y in front {
          var i :| 0 <= i < |front| && front[i] == y;
          assert s[i] == y;
        }
      }
    }
  }

  lemma {:induction false} SortSorted<T(!new)>(less: (T, T) -> bool, s: seq<T>)
    requires WeakOrder(less)
    ensures SortedBy(less, Sort(less, s))
  {
    if s != [] {
      SortSorted(less, s[..|s| - 1]);
      InsertSorted(less, Sort(less, s[..|s| - 1]), s[|s| - 1]);
    }
  }

  ghost predicate Distinct<T>(key: T -> string, s: seq<T>) {
    forall i, j :: 0 <= i < j < |s| ==> key(s[i]) != key(s[j])
  }

  lemma {:induction false} InsertDistinct<T(!new)>(less: (T, T) -> bool, key: T -> string, s: seq<T>, x: T)
    requires Distinct(key, s) && forall y :: y in s ==> key(y) != key(x)
    ensures Distinct(key, Insert(less, s, x))
  {
    if s != [] && less(x, s[|s| - 1]) {
      var front, last := s[..|s| - 1], s[|s| - 1];
      InsertDistinct(less, key, front, x);
      InsertElements(less, front, x);
      forall y | y in Insert(less, front, x)
        ensures key(y) != key(last)
      {
        if y in front {
          var i :| 0 <= i < |front| && front[i] == y;
          assert s[i] == y;
        }
      }
    }
  }

  lemma {:induction false} SortDistinct<T(!new)>(less: (T, T) -> bool, key: T -> string, s: seq<T>)
    requires Distinct(key, s)
    ensures Distinct(key, Sort(less, s))
  {
    if s != [] {
      var front := s[..|s| - 1];
      SortDistinct(less, key, front);
      SortContents(less, front);
      forall y | y in Sort(less, front)
        ensures key(y) != key(s[|s| - 1])
      {
        var i :| 0 <= i < |front| && front[i] == y;
        assert s[i] == y;
      }
      InsertDistinct(less, key, Sort(less, front), s[|s| - 1]);
    }
  }

  /** A strictly sorted list is determined by its elements. */
  lemma {:induction false} StrictlySortedUnique<T(!new)>(less: (T, T) -> bool, a: seq<T>, b: seq<T>)
    requires WeakOrder(less)
    requires forall i, j :: 0 <= i < j < |a| ==> less(a[i], a[j])
    requires forall i, j :: 0 <= i < j < |b| ==> less(b[i], b[j])
    requires forall x :: x in a <==> x in b
    ensures a == b
  {
    assert b != [] ==> b[0] in b;
    if a != [] {
      assert a[|a| - 1] in b && b != [];
      LastAgrees(less, a, b);
      var frontA, frontB := a[..|a| - 1], b[..|b| - 1];
      forall x
        ensures x in frontA <==> x in frontB
      {
        FrontElements(less, a, x);
        FrontElements(less, b, x);
      }
      StrictlySortedUnique(less, frontA, frontB);
    }
  }

  lemma LastAgrees<T(!new)>(less: (T, T) -> bool, a: seq<T>, b: seq<T>)
    requires WeakOrder(less) && a != [] && b != []
    requires forall i, j :: 0 <= i < j < |a| ==> less(a[i], a[j])
    requires forall i, j :: 0 <= i < j < |b| ==> less(b[i], b[j])
    requires forall x :: x in a <==> x in b
    ensures a[|a| - 1] == b[|b| - 1]
  {
    var m, n := a[|a| - 1], b[|b| - 1];
    assert m in a && n in b;
    var i :| 0 <= i < |b| && b[i] == m;
    var j :| 0 <= j < |a| && a[j] == n;
    assert i < |b| - 1 ==> less(m, n);
    assert j < |a| - 1 ==> less(n, m);
  }

  /** Under a total order a sorted list is determined by its contents. */
  lemma {:induction false} SortedUnique<T(!new)>(less: (T, T) -> bool, a: seq<T>, b: seq<T>)
    requires TotalOrder(less) && SortedBy(less, a) && SortedBy(less, b) && multiset(a) == multiset(b)
    ensures a == b
  {
    SameElements(a, b);
    if a != [] {
      SameLast(less, a, b);
      WithoutLast(a);
      WithoutLast(b);
      SortedUnique(less, a[..|a| - 1], b[..|b| - 1]);
    }
  }

  lemma SameLast<T(!new)>(less: (T, T) -> bool, a: seq<T>, b: seq<T>)
    requires TotalOrder(less) && SortedBy(less, a) && SortedBy(less, b) && a != [] && |a| == |b|
    requires forall x :: x in a <==> x in b
    ensures a[|a| - 1] == b[|b| - 1]
  {
    var m, n := a[|a| - 1], b[|b| - 1];
    assert m in a && n in b;
    var i :| 0 <= i < |b| && b[i] == m;
    var j :| 0 <= j < |a| && a[j] == n;
    assert i < |b| - 1 ==> !less(n, m);
    assert j < |a| - 1 ==> !less(m, n);
  }

  lemma FrontElements<T(!new)>(less: (T, T) -> bool, s: seq<T>, x: T)
    requires WeakOrder(less) && s != []
    requires forall i, j :: 0 <= i < j < |s| ==> less(s[i], s[j])
    ensures x in s[..|s| - 1] <==> x in s && x != s[|s| - 1]
  {
    if x in s && x != s[|s| - 1] {
      var i :| 0 <= i < |s| && s[i] == x;
      assert s[..|s| - 1][i] == x;
    }
    if x in s[..|s| - 1] {
      var i :| 0 <= i < |s| - 1 && s[i] == x;
      assert less(s[i], s[|s| - 1]);
    }
  }
}
