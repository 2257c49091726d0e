/** The in-place shuffle of scripts/eval-learning-surface.ts, for every source of numbers in [0, 1]. */
module FisherYates {
  import opened Sequences

  datatype Slot<+T> = Hole | Item(value: T)

  ghost predicate InUnit(draw: nat -> real) {
    forall k: nat :: 0.0 <= draw(k) <= 1.0
  }

  function Items<T>(items: seq<T>): (r: seq<Slot<T>>)
    ensures |r| == |items|
  {
    seq(|items|, i requires 0 <= i < |items| => Item(items[i]))
  }

  /** `Math.floor(r * n)`. */
  function Pick(r: real, n: nat): (j: nat)
    requires 0.0 <= r <= 1.0
    ensures j <= n && j as real <= r * n as real < j as real + 1.0
    ensures n > 0 ==> (j == n <==> r == 1.0)
  {
    var x := r * n as real;
    assert n as real - x == (1.0 - r) * n as real;
    x.Floor
  }

  /** Writing one past the end of the array extends it, and reading there gives a hole. */
  function Exchange<T>(out: seq<Slot<T>>, i: nat, j: nat): (r: seq<Slot<T>>)
    requires i < |out| && j <= |out|
    ensures |out| <= |r| <= |out| + 1
  {
    if j < |out| then out[i := out[j]][j := out[i]] else out[i := Hole] + [out[i]]
  }

  /** What becomes of `out` when only its first `n` of `total` places are still to be settled. */
  ghost function Shuffled<T>(out: seq<Slot<T>>, n: nat, total: nat, draw: nat -> real): seq<Slot<T>>
    requires n <= total && n <= |out| && InUnit(draw)
    decreases n
  {
    if n <= 1 then out
    else Shuffled(Exchange(out, n - 1, Pick(draw(total - n), n)), n - 1, total, draw)
  }

  /** `draw(k)` is what the k-th call of the random source returns. */
  method Shuffle<T>(items: seq<T>, draw: nat -> real) returns (out: seq<Slot<T>>)
    requires InUnit(draw)
    ensures out == Shuffled(Items(items), |items|, |items|, draw)
  {
    hide Items, Pick, Shuffled;
    out := Items(items);
    var i, calls := |items| - 1, 0;
    while i > 0
      invariant -1 <= i < |items| <= |out|
      invariant calls + i == |items| - 1
      invariant Shuffled(out, i + 1, |items|, draw) == Shuffled(Items(items), |items|, |items|, draw)
    {
      var j := Pick(draw(calls), i + 1);
      OneCall(out, i + 1, |items|, draw);
      var a := out[i];
      var b := if j < |out| then out[j] else Hole;
      out := out[i := b];
      out := if j < |out| then out[j := a] else out + [a];
      calls := calls + 1;
      i := i - 1;
    }
    Settled(out, i + 1, |items|, draw);
  }

  lemma Settled<T>(out: seq<Slot<T>>, n: nat, total: nat, draw: nat -> real)
    requires n <= 1 && n <= total && n <= |out| && InUnit(draw)
    ensures Shuffled(out, n, total, draw) == out
  {
  }

  lemma OneCall<T>(out: seq<Slot<T>>, n: nat, total: nat, draw: nat -> real)
    requires 2 <= n <= total && n <= |out| && InUnit(draw)
    ensures Shuffled(out, n, total, draw)
            == Shuffled(Exchange(out, n - 1, Pick(draw(total - n), n)), n - 1, total, draw)
  {
  }

  // ----------------------------------------------------- what it may lose

  lemma SwapKeepsContents<T>(out: seq<Slot<T>>, i: nat, j: nat)
    requires i < |out| && j < |out|
    ensures |Exchange(out, i, j)| == |out| && multiset(Exchange(out, i, j)) == multiset(out)
  {
  }

  lemma SpillAddsHole<T>(out: seq<Slot<T>>, i: nat)
    requires i < |out|
    ensures multiset(Exchange(out, i, |out|)) == multiset(out) + multiset{Hole}
  {
  }

  /** After the first call no draw reaches past the end: the array has grown or the index is smaller. */
  lemma {:induction false} LaterCallsRearrange<T>(out: seq<Slot<T>>, n: nat, total: nat, draw: nat -> real)
    requires n <= total && n < |out| && InUnit(draw)
    ensures |Shuffled(out, n, total, draw)| == |out|
    ensures multiset(Shuffled(out, n, total, draw)) == multiset(out)
    decreases n
  {
    hide Exchange, Pick;
    if n > 1 {
      var j := Pick(draw(total - n), n);
      SwapKeepsContents(out, n - 1, j);
      LaterCallsRearrange(Exchange(out, n - 1, j), n - 1, total, draw);
    }
  }

  /** The contents are kept, except that a first draw of exactly 1 adds one hole. */
  lemma {:induction false} ContentsKept<T>(items: seq<T>, draw: nat -> real)
    requires InUnit(draw)
    ensures multiset(Shuffled(Items(items), |items|, |items|, draw))
            == multiset(Items(items)) + if |items| >= 2 && draw(0) == 1.0 then multiset{Hole} else multiset{}
  {
    hide Exchange, Items, Pick;
    var out, n := Items(items), |items|;
    if n >= 2 {
      var j := Pick(draw(0), n);
      FirstExchange(out, j);
      LaterCallsRearrange(Exchange(out, n - 1, j), n - 1, n, draw);
    }
  }

  lemma FirstExchange<T>(out: seq<Slot<T>>, j: nat)
    requires j <= |out| && out != []
    ensures multiset(Exchange(out, |out| - 1, j)) == multiset(out) + if j == |out| then multiset{Hole} else multiset{}
  {
    hide Exchange;
    if j < |out| {
      SwapKeepsContents(out, |out| - 1, j);
    } else {
      SpillAddsHole(out, |out| - 1);
    }
  }

  // ---------------------------------------------- every order can come out

  /** Only the draws still to come matter. */
  lemma {:induction false} SameDraws<T>(out: seq<Slot<T>>, n: nat, total: nat, f: nat -> real, g: nat -> real)
    requires n <= total && n <= |out| && InUnit(f) && InUnit(g)
    requires forall k: nat :: total - n <= k ==> f(k) == g(k)
    ensures Shuffled(out, n, total, f) == Shuffled(out, n, total, g)
    decreases n
  {
    if n > 1 {
      SameDraws(Exchange(out, n - 1, Pick(f(total - n), n)), n - 1, total, f, g);
    }
  }

  function Below(j: nat, n: nat): (r: real)
    requires j < n
    ensures 0.0 <= r < 1.0 && Pick(r, n) == j
  {
    var r := j as real / n as real;
    assert r * n as real == j as real;
    assert r < 1.0;
    r
  }

  lemma {:induction false} Reach<T(!new)>(out: seq<Slot<T>>, n: nat, total: nat, target: seq<Slot<T>>)
    returns (draw: nat -> real)
    requires n <= total && n <= |out| == |target|
    requires out[n..] == target[n..] && multiset(out[..n]) == multiset(target[..n])
    ensures forall k: nat :: 0.0 <= draw(k) < 1.0
    ensures Shuffled(out, n, total, draw) == target
    decreases n
  {
    draw := (k: nat) => 0.0;
    if n <= 1 {
      SmallCase(out, n, target);
    } else {
      var j := Locate(out[..n], target[..n]);
      var next := Exchange(out, n - 1, j);
      ExchangeLast(out, n, target, j);
      var rest := Reach(next, n - 1, total, target);
      var now, r := total - n, Below(j, n);
      draw := (k: nat) => if k == now then r else rest(k);
      SameDraws(next, n - 1, total, draw, rest);
    }
  }

  lemma SmallCase<T>(out: seq<Slot<T>>, n: nat, target: seq<Slot<T>>)
    requires n <= 1 && n <= |out| == |target|
    requires out[n..] == target[n..] && multiset(out[..n]) == multiset(target[..n])
    ensures out == target
  {
    assert out == out[..n] + out[n..] && target == target[..n] + target[n..];
    if n == 1 {
      assert out[..1] == [out[0]] && target[..1] == [target[0]];
      assert out[0] in multiset(target[..1]);
    }
  }

  lemma Locate<T>(a: seq<T>, b: seq<T>) returns (j: nat)
    requires multiset(a) == multiset(b) && b != []
    ensures j < |a| && a[j] == b[|b| - 1]
  {
    assert b[|b| - 1] in multiset(a);
    j :| j < |a| && a[j] == b[|b| - 1];
  }

  lemma ExchangeLast<T>(out: seq<Slot<T>>, n: nat, target: seq<Slot<T>>, j: nat)
    requires j < n <= |out| == |target| && out[j] == target[n - 1]
    requires out[n..] == target[n..] && multiset(out[..n]) == multiset(target[..n])
    ensures var next := Exchange(out, n - 1, j);
            next[n - 1..] == target[n - 1..] && multiset(next[..n - 1]) == multiset(target[..n - 1])
  {
    hide Exchange;
    var next := Exchange(out, n - 1, j);
    ExchangeTail(out, n, target, j);
    ExchangeFront(out, n, j);
    SameFront(next[..n], target[..n]);
    assert next[..n][..n - 1] == next[..n - 1] && target[..n][..n - 1] == target[..n - 1];
    assert next[n - 1] == next[n - 1..][0] && target[n - 1] == target[n - 1..][0];
  }

  lemma ExchangeTail<T>(out: seq<Slot<T>>, n: nat, target: seq<Slot<T>>, j: nat)
    requires j < n <= |out| == |target| && out[j] == target[n - 1] && out[n..] == target[n..]
    ensures Exchange(out, n - 1, j)[n - 1..] == target[n - 1..]
  {
    forall k | n - 1 <= k < |out|
      ensures Exchange(out, n - 1, j)[k] == target[k]
    {
      assert k >= n ==> out[k] == out[n..][k - n] && target[k] == target[n..][k - n];
    }
  }

  lemma ExchangeFront<T>(out: seq<Slot<T>>, n: nat, j: nat)
    requires j < n <= |out|
    ensures |Exchange(out, n - 1, j)| == |out| && multiset(Exchange(out, n - 1, j)[..n]) == multiset(out[..n])
  {
    SwapKeepsContents(out[..n], n - 1, j);
    assert Exchange(out, n - 1, j)[..n] == Exchange(out[..n], n - 1, j);
  }

  lemma SameFront<T>(a: seq<T>, b: seq<T>)
    requires multiset(a) == multiset(b) && |a| == |b| > 0 && a[|a| - 1] == b[|b| - 1]
    ensures multiset(a[..|a| - 1]) == multiset(b[..|b| - 1])
  {
    WithoutLast(a);
    WithoutLast(b);
  }

  /** Exactly the rearrangements of the input can come out when no draw is 1. */
  lemma ShufflesAreRearrangements<T(!new)>(items: seq<T>, target: seq<Slot<T>>)
    ensures multiset(target) == multiset(Items(items))
            <==> exists draw: nat -> real ::
                   && (forall k: nat :: 0.0 <= draw(k) < 1.0)
                   && target == Shuffled(Items(items), |items|, |items|, draw)
  {
    var all, n := Items(items), |items|;
    if multiset(target) == multiset(all) {
      assert |target| == |multiset(target)| == |multiset(all)| == n;
      assert all[..n] == all && target[..n] == target;
      var draw := Reach(all, n, n, target);
    }
    forall draw: nat -> real | (forall k: nat :: 0.0 <= draw(k) < 1.0) && target == Shuffled(all, n, n, draw)
      ensures multiset(target) == multiset(all)
    {
      ContentsKept(items, draw);
    }
  }
}
