/** Shared vocabulary: what every element of a list contributes, concatenated, and the two-argument Math functions. */
module Sequences {

  function Min(a: int, b: int): int { if a < b then a else b }

  function Max(a: int, b: int): int { if a < b then b else a }

  /** The contributions of all items, in order. */
  function Concat<A, T>(of: A -> seq<T>, items: seq<A>): seq<T> {
    if items == [] then [] else Concat(of, items[..|items| - 1]) + of(items[|items| - 1])
  }

  lemma {:induction false} ConcatSplit<A, T>(of: A -> seq<T>, a: seq<A>, b: seq<A>)
    ensures Concat(of, a + b) == Concat(of, a) + Concat(of, b)
  {
    if b == [] {
      assert a + b == a;
    } else {
      ConcatSplit(of, a, b[..|b| - 1]);
      assert (a + b)[..|a + b| - 1] == a + b[..|b| - 1];
    }
  }

  lemma ConcatNone<A, T>(of: A -> seq<T>)
    ensures Concat(of, []) == []
  {
  }

  lemma ConcatOne<A, T>(of: A -> seq<T>, item: A)
    ensures Concat(of, [item]) == of(item)
  {
    assert [item][..0] == [];
    ConcatNone(of);
  }

  lemma ConcatStep<A, T>(of: A -> seq<T>, items: seq<A>, n: nat)
    requires n < |items|
    ensures Concat(of, items[..n + 1]) == Concat(of, items[..n]) + of(items[n])
  {
    assert items[..n + 1][..n] == items[..n];
  }

  lemma {:induction false} ConcatNothing<A, T>(of: A -> seq<T>, items: seq<A>)
    requires forall i :: 0 <= i < |items| ==> of(items[i]) == []
    ensures Concat(of, items) == []
  {
    if items != [] {
      ConcatNothing(of, items[..|items| - 1]);
    }
  }

  lemma SameSplit<T>(a: seq<T>, b: seq<T>, x: seq<T>, y: seq<T>)
    requires |a| == |b|
    ensures a + x == b + y <==> a == b && x == y
  {
    if a + x == b + y {
      assert a == (a + x)[..|a|] && b == (b + y)[..|b|];
      assert x == (a + x)[|a|..] && y == (b + y)[|b|..];
    }
  }

  /** Two lists agree item by item. */
  ghost predicate Paired<T>(same: (T, T) -> bool, a: seq<T>, b: seq<T>) {
    |a| == |b| && forall k :: 0 <= k < |a| ==> same(a[k], b[k])
  }

  lemma PairedMore<T>(same: (T, T) -> bool, a: seq<T>, b: seq<T>, x: seq<T>, y: seq<T>)
    requires Paired(same, a, b) && Paired(same, x, y)
    ensures Paired(same, a + x, b + y)
    ensures a + x == b + y <==> a == b && x == y
  {
    SameSplit(a, b, x, y);
  }

  // ------------------------------------------------------------------ contents

  lemma WithoutLast<T>(s: seq<T>)
    requires s != []
    ensures multiset(s[..|s| - 1]) == multiset(s) - multiset{s[|s| - 1]}
  {
    assert s == s[..|s| - 1] + [s[|s| - 1]];
  }

  /** `s` without its k-th item. */
  function Without<T>(s: seq<T>, k: nat): seq<T>
    requires k < |s|
  {
    s[..k] + s[k + 1..]
  }

  lemma TakenApart<T>(s: seq<T>, k: nat)
    requires k < |s|
    ensures s == s[..k] + [s[k]] + s[k + 1..]
  {
  }

  lemma WithoutContents<T>(s: seq<T>, k: nat)
    requires k < |s|
    ensures |Without(s, k)| == |s| - 1 && multiset(Without(s, k)) == multiset(s) - multiset{s[k]}
  {
    TakenApart(s, k);
    MiddleOut(s[..k], [s[k]], s[k + 1..]);
  }

  lemma ConcatWithout<A, T>(of: A -> seq<T>, items: seq<A>, k: nat)
    requires k < |items|
    ensures multiset(Concat(of, items)) == multiset(Concat(of, Without(items, k))) + multiset(of(items[k]))
  {
    TakenApart(items, k);
    ConcatMiddle(of, items[..k], items[k], items[k + 1..]);
    hide Concat;
  }

  lemma ConcatMiddle<A, T>(of: A -> seq<T>, a: seq<A>, x: A, b: seq<A>)
    ensures multiset(Concat(of, a + [x] + b)) == multiset(Concat(of, a + b)) + multiset(of(x))
  {
    hide Concat;
    ConcatSplit(of, a + [x], b);
    ConcatSplit(of, a, [x]);
    ConcatSplit(of, a, b);
    ConcatOne(of, x);
    MiddleOut(Concat(of, a), of(x), Concat(of, b));
  }

  lemma MiddleOut<T>(a: seq<T>, b: seq<T>, c: seq<T>)
    ensures multiset(a + b + c) == multiset(a + c) + multiset(b)
  {
  }

  lemma SameLength<T>(a: seq<T>, b: seq<T>)
    requires multiset(a) == multiset(b)
    ensures |a| == |b|
  {
    assert |multiset(a)| == |multiset(b)|;
  }

  lemma Find<T>(s: seq<T>, x: T) returns (k: nat)
    requires x in multiset(s)
    ensures k < |s| && s[k] == x
  {
    k :| k < |s| && s[k] == x;
  }

  /** The contributions depend on the order of the items only in their own order. */
  lemma {:induction false} ConcatForgets<A, T>(of: A -> seq<T>, a: seq<A>, b: seq<A>)
    requires multiset(a) == multiset(b)
    ensures multiset(Concat(of, a)) == multiset(Concat(of, b))
    decreases |a|
  {
    hide Concat, Without;
    SameLength(a, b);
    if a == [] {
      assert b == [];
    } else {
      var last := |a| - 1;
      assert a[last] in multiset(a);
      var k := Find(b, a[last]);
      WithoutContents(a, last);
      WithoutContents(b, k);
      ConcatWithout(of, a, last);
      ConcatWithout(of, b, k);
      ConcatForgets(of, Without(a, last), Without(b, k));
    }
  }
}
