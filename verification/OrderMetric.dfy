/** The pairwise temporal order metric of scripts/evaluate-interaction-timeline.ts. */
module OrderMetric {

  /** `new Map(candidate.map((id, index) => [id, index]))`: a later occurrence overwrites an earlier one. */
  function Positions(candidate: seq<string>): (positions: map<string, nat>)
    ensures forall id :: id in positions <==> id in candidate
    ensures forall id :: id in positions ==> LastAt(candidate, id, positions[id])
  {
    if candidate == [] then map[]
    else
      var last := |candidate| - 1;
      assert candidate == candidate[..last] + [candidate[last]];
      Positions(candidate[..last])[candidate[last] := last]
  }

  ghost predicate LastAt(candidate: seq<string>, id: string, i: nat) {
    i < |candidate| && candidate[i] == id && forall k :: i < k < |candidate| ==> candidate[k] != id
  }

  /** The last `a` stands before the last `b`. */
  ghost predicate PrecedesLast(candidate: seq<string>, a: string, b: string) {
    exists i, j :: 0 <= i < j < |candidate| && LastAt(candidate, a, i) && LastAt(candidate, b, j)
  }

  ghost function InOrder(canonical: seq<string>, candidate: seq<string>): (nat, nat) -> bool {
    (i: nat, j: nat) => i < |canonical| && j < |canonical| && PrecedesLast(candidate, canonical[i], canonical[j])
  }

  /** The positions `i < j < n`, with `i` below `rows`, that are related. */
  ghost function PairsWhere(rel: (nat, nat) -> bool, n: nat, rows: nat): set<(nat, nat)> {
    set i: nat, j: nat | i < rows && i < j < n && rel(i, j) :: (i, j)
  }

  ghost predicate Always(i: nat, j: nat) { true }

  /** The fraction of all n(n-1)/2 pairs whose last occurrences are in order; a list without pairs scores 1. */
  ghost function Fidelity(canonical: seq<string>, candidate: seq<string>): real {
    var n := |canonical|;
    if n < 2 then 1.0
    else |PairsWhere(InOrder(canonical, candidate), n, n)| as real / (n * (n - 1) / 2) as real
  }

  method PairwiseTemporalOrderFidelity(canonical: seq<string>, candidate: seq<string>) returns (fidelity: real)
    ensures fidelity == Fidelity(canonical, candidate)
  {
    hide *;
    var positions := Positions(candidate);
    var correct, total := 0, 0;
    ghost var n, rel := |canonical|, InOrder(canonical, candidate);
    NothingCounted(rel, n);
    NothingCounted(Always, n);
    var left := 0;
    while left < |canonical|
      invariant 0 <= left <= n
      invariant correct == CountBefore(rel, n, left)
      invariant total == CountBefore(Always, n, left)
    {
      ghost var correctBefore, totalBefore := correct, total;
      NextRow(rel, left, n);
      NextRow(Always, left, n);
      var right := left + 1;
      while right < |canonical|
        invariant left < right <= n
        invariant correct == correctBefore + RowCount(rel, left, right)
        invariant total == totalBefore + RowCount(Always, left, right)
      {
        total := total + 1;
        PositionsDecide(candidate, canonical[left], canonical[right]);
        OrderIs(canonical, candidate, left, right);
        NextInRow(rel, left, right);
        NextInRow(Always, left, right);
        if canonical[left] in positions && canonical[right] in positions
           && positions[canonical[left]] < positions[canonical[right]] {
          correct := correct + 1;
        }
        right := right + 1;
      }
      left := left + 1;
    }
    Score(canonical, candidate);
    return if total == 0 then 1.0 else correct as real / total as real;
  }

  lemma OrderIs(canonical: seq<string>, candidate: seq<string>, left: nat, right: nat)
    requires left < |canonical| && right < |canonical|
    ensures InOrder(canonical, candidate)(left, right)
            <==> PrecedesLast(candidate, canonical[left], canonical[right])
    ensures Always(left, right)
  {
  }

  lemma PositionsDecide(candidate: seq<string>, a: string, b: string)
    ensures var positions := Positions(candidate);
            a in positions && b in positions && positions[a] < positions[b] <==> PrecedesLast(candidate, a, b)
  {
    var positions := Positions(candidate);
    if a in positions && b in positions && positions[a] < positions[b] {
      assert LastAt(candidate, a, positions[a]) && LastAt(candidate, b, positions[b]);
    }
  }

  // ----------------------------------------------------- the loops count a set

  lemma Score(canonical: seq<string>, candidate: seq<string>)
    ensures var n := |canonical|;
            var correct, total := CountBefore(InOrder(canonical, candidate), n, n), CountBefore(Always, n, n);
            Fidelity(canonical, candidate) == if total == 0 then 1.0 else correct as real / total as real
  {
    var n := |canonical|;
    CountIsSize(InOrder(canonical, candidate), n, n);
    PairTotal(n, n);
    if n >= 2 {
      assert n * (n - 1) >= 2;
    }
  }

  ghost function RowCount(rel: (nat, nat) -> bool, left: nat, n: nat): nat {
    if n <= left + 1 then 0 else RowCount(rel, left, n - 1) + if rel(left, n - 1) then 1 else 0
  }

  ghost function CountBefore(rel: (nat, nat) -> bool, n: nat, rows: nat): nat {
    if rows == 0 then 0 else CountBefore(rel, n, rows - 1) + RowCount(rel, rows - 1, n)
  }

  ghost function RowWhere(rel: (nat, nat) -> bool, left: nat, n: nat): set<(nat, nat)> {
    set j: nat | left < j < n && rel(left, j) :: (left, j)
  }

  lemma NothingCounted(rel: (nat, nat) -> bool, n: nat)
    ensures CountBefore(rel, n, 0) == 0
  {
  }

  lemma NextRow(rel: (nat, nat) -> bool, left: nat, n: nat)
    ensures RowCount(rel, left, left + 1) == 0
    ensures CountBefore(rel, n, left + 1) == CountBefore(rel, n, left) + RowCount(rel, left, n)
  {
  }

  lemma NextInRow(rel: (nat, nat) -> bool, left: nat, right: nat)
    requires left < right
    ensures RowCount(rel, left, right + 1) == RowCount(rel, left, right) + if rel(left, right) then 1 else 0
  {
  }

  lemma {:induction false} RowCountIsSize(rel: (nat, nat) -> bool, left: nat, n: nat)
    ensures RowCount(rel, left, n) == |RowWhere(rel, left, n)|
  {
    if n <= left + 1 {
      assert RowWhere(rel, left, n) == {};
    } else {
      RowCountIsSize(rel, left, n - 1);
      var shorter := RowWhere(rel, left, n - 1);
      if rel(left, n - 1) {
        assert RowWhere(rel, left, n) == shorter + {(left, n - 1)};
      } else {
        assert RowWhere(rel, left, n) == shorter;
      }
    }
  }

  lemma {:induction false} CountIsSize(rel: (nat, nat) -> bool, n: nat, rows: nat)
    ensures CountBefore(rel, n, rows) == |PairsWhere(rel, n, rows)|
  {
    if rows == 0 {
      assert PairsWhere(rel, n, rows) == {};
    } else {
      CountIsSize(rel, n, rows - 1);
      RowCountIsSize(rel, rows - 1, n);
      var above, row := PairsWhere(rel, n, rows - 1), RowWhere(rel, rows - 1, n);
      assert PairsWhere(rel, n, rows) == above + row;
      assert above !! row;
    }
  }

  lemma {:induction false} FullRow(left: nat, n: nat)
    ensures RowCount(Always, left, n) == if n <= left + 1 then 0 else n - left - 1
  {
    if n > left + 1 {
      FullRow(left, n - 1);
    }
  }

  /** The double loop visits n(n-1)/2 pairs. */
  lemma {:induction false} PairTotal(n: nat, rows: nat)
    requires rows <= n
    ensures 2 * CountBefore(Always, n, rows) == rows * (2 * n - rows - 1)
    ensures rows == n ==> CountBefore(Always, n, rows) == n * (n - 1) / 2
  {
    if rows != 0 {
      PairTotal(n, rows - 1);
      FullRow(rows - 1, n);
      assert (rows - 1) * (2 * n - rows) + 2 * (n - rows) == rows * (2 * n - rows - 1);
    }
    if rows == n {
      assert n * (2 * n - n - 1) == n * (n - 1);
    }
  }

  // ------------------------------------------------------ when the score is 1

  /** Every id occurs, and the last occurrences of neighbours strictly increase. */
  ghost predicate Chronological(canonical: seq<string>, candidate: seq<string>) {
    && (forall i :: 0 <= i < |canonical| ==> canonical[i] in candidate)
    && forall i: nat :: i + 1 < |canonical| ==> PrecedesLast(candidate, canonical[i], canonical[i + 1])
  }

  /** Every score lies in [0, 1], and a list with a pair scores 1 exactly when it is chronological. */
  lemma FullMarks(canonical: seq<string>, candidate: seq<string>)
    ensures 0.0 <= Fidelity(canonical, candidate) <= 1.0
    ensures Fidelity(canonical, candidate) == 1.0 <==> |canonical| < 2 || Chronological(canonical, candidate)
  {
    var n := |canonical|;
    if n >= 2 {
      var ordered, all := PairsWhere(InOrder(canonical, candidate), n, n), PairsWhere(Always, n, n);
      PairTotal(n, n);
      CountIsSize(Always, n, n);
      assert (0, 1) in all;
      Subset(ordered, all);
      Ratio(|ordered|, |all|);
      ChronologicalPairs(canonical, candidate);
    }
  }

  lemma Ratio(correct: nat, total: nat)
    requires correct <= total && total > 0
    ensures 0.0 <= correct as real / total as real <= 1.0
    ensures correct as real / total as real == 1.0 <==> correct == total
  {
  }

  lemma Subset<T>(a: set<T>, b: set<T>)
    requires a <= b
    ensures |a| <= |b| && (|a| == |b| <==> a == b)
  {
    assert b == a + (b - a);
  }

  /** Being in order is transitive along the list, so the neighbours decide all pairs. */
  lemma ChronologicalPairs(canonical: seq<string>, candidate: seq<string>)
    requires |canonical| >= 2
    ensures var n := |canonical|;
            PairsWhere(InOrder(canonical, candidate), n, n) == PairsWhere(Always, n, n)
            <==> Chronological(canonical, candidate)
  {
    var n := |canonical|;
    var ordered, all := PairsWhere(InOrder(canonical, candidate), n, n), PairsWhere(Always, n, n);
    if Chronological(canonical, candidate) {
      forall i: nat, j: nat | i < j < n
        ensures (i, j) in ordered
      {
        Ascending(canonical, candidate, i, j);
      }
      assert ordered == all;
    } else if ordered == all {
      forall i: nat, j: nat | i < j < n
        ensures PrecedesLast(candidate, canonical[i], canonical[j])
      {
        assert (i, j) in all;
      }
      forall i: nat | i < n
        ensures canonical[i] in candidate
      {
        assert PrecedesLast(candidate, canonical[if i == 0 then 0 else i - 1], canonical[if i == 0 then 1 else i]);
      }
      assert false;
    }
  }

  lemma {:induction false} Ascending(canonical: seq<string>, candidate: seq<string>, i: nat, j: nat)
    requires i < j < |canonical|
    requires Chronological(canonical, candidate)
    ensures PrecedesLast(candidate, canonical[i], canonical[j])
    decreases j
  {
    assert PrecedesLast(candidate, canonical[j - 1], canonical[j - 1 + 1]);
    if i < j - 1 {
      Ascending(canonical, candidate, i, j - 1);
    }
  }
}
