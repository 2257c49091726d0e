/** Brier score and expected calibration error, as scripts/eval-demand-boundary.ts computes them. */
module Calibration {
  import opened Optional

  datatype Fixture = Fixture(confidence: real, demand: bool)

  datatype Example = Example(probability: real, actual: real)

  datatype Report = Report(brier: Option<real>, ece: real, examples: nat)

  /** A confidence outside [0, 1] is a malformed detection and yields no probability. */
  function DemandProbability(fixture: Fixture): Option<real> {
    if fixture.confidence < 0.0 || fixture.confidence > 1.0 then None else Some(fixture.confidence)
  }

  function Valid(fixtures: seq<Fixture>): (valid: seq<Example>)
    ensures forall i :: 0 <= i < |valid| ==> InRange(valid[i])
  {
    if fixtures == [] then []
    else
      var f := fixtures[|fixtures| - 1];
      Valid(fixtures[..|fixtures| - 1]) +
      match DemandProbability(f)
      case None => []
      case Some(p) => [Example(p, if f.demand then 1.0 else 0.0)]
  }

  /** A malformed detection leaves nothing, any other its confidence and whether there was a demand. */
  lemma ValidOne(f: Fixture)
    ensures Valid([f]) == [] <==> !(0.0 <= f.confidence <= 1.0)
    ensures Valid([f]) != [] ==>
              var e := Valid([f])[0];
              && Valid([f]) == [e] && e.probability == f.confidence
              && (f.demand ==> e.actual == 1.0) && (!f.demand ==> e.actual == 0.0)
  {
    assert [f][..0] == [];
    assert Valid([]) == [];
  }

  lemma {:induction false} ValidSplits(a: seq<Fixture>, b: seq<Fixture>)
    ensures Valid(a + b) == Valid(a) + Valid(b)
  {
    if b == [] {
      assert a + b == a;
    } else {
      ValidSplits(a, b[..|b| - 1]);
      assert (a + b)[..|a + b| - 1] == a + b[..|b| - 1];
    }
  }

  /** The squared error of an example: how far its probability is from what happened. */
  lemma SquaredError(e: Example)
    requires InRange(e)
    ensures e.actual == 0.0 ==> Squared(e) == e.probability * e.probability
    ensures e.actual == 1.0 ==> Squared(e) == (1.0 - e.probability) * (1.0 - e.probability)
  {
  }

  predicate InRange(e: Example) {
    0.0 <= e.probability <= 1.0 && (e.actual == 0.0 || e.actual == 1.0)
  }

  predicate InBucket(lower: real, e: Example) {
    e.probability >= lower && if lower >= 0.8 then e.probability <= 1.0 else e.probability < lower + 0.2
  }

  function Bucket(lower: real, valid: seq<Example>): seq<Example> {
    if valid == [] then []
    else Bucket(lower, valid[..|valid| - 1]) +
         if InBucket(lower, valid[|valid| - 1]) then [valid[|valid| - 1]] else []
  }

  function SumBy(f: Example -> real, examples: seq<Example>): real {
    if examples == [] then 0.0 else SumBy(f, examples[..|examples| - 1]) + f(examples[|examples| - 1])
  }

  function Abs(x: real): real { if x < 0.0 then -x else x }

  function Mean(f: Example -> real, examples: seq<Example>): real
    requires examples != []
  {
    SumBy(f, examples) / |examples| as real
  }

  function Probability(e: Example): real { e.probability }

  function Actual(e: Example): real { e.actual }

  function Difference(e: Example): real { e.probability - e.actual }

  function Distance(e: Example): real { Abs(Difference(e)) }

  function Squared(e: Example): real { Difference(e) * Difference(e) }

  /** What one bucket contributes to the calibration error of `n` examples. */
  function Contribution(bucket: seq<Example>, n: nat): real
    requires bucket != [] && n > 0
  {
    var averageConfidence := Mean(Probability, bucket);
    var frequency := Mean(Actual, bucket);
    |bucket| as real / n as real * Abs(averageConfidence - frequency)
  }

  const BUCKETS: nat := 5

  function Lower(k: nat): real { 0.2 * k as real }

  function Buckets(valid: seq<Example>): (buckets: seq<seq<Example>>)
    ensures |buckets| == BUCKETS
  {
    seq(BUCKETS, (k: nat) => Bucket(Lower(k), valid))
  }

  function WeightedError(buckets: seq<seq<Example>>, n: nat): real
    requires n > 0
  {
    if buckets == [] then 0.0
    else
      var bucket := buckets[|buckets| - 1];
      WeightedError(buckets[..|buckets| - 1], n) + if bucket == [] then 0.0 else Contribution(bucket, n)
  }

  function Ece(valid: seq<Example>): real {
    if valid == [] then 0.0 else WeightedError(Buckets(valid), |valid|)
  }

  method Calibrate(fixtures: seq<Fixture>) returns (report: Report)
    ensures var valid := Valid(fixtures);
            && report.examples == |valid|
            && report.ece == Ece(valid)
            && report.brier == if valid == [] then None else Some(Mean(Squared, valid))
  {
    var valid := Valid(fixtures);
    var brier := if valid == [] then None else Some(Mean(Squared, valid));
    var weightedError := WeighBuckets(valid);
    report := Report(brier, weightedError, |valid|);
  }

  /** The bucket loop. */
  method WeighBuckets(valid: seq<Example>) returns (weightedError: real)
    ensures weightedError == Ece(valid)
  {
    hide Bucket, Contribution, WeightedError;
    weightedError := 0.0;
    var lower := 0.0;
    ghost var k := 0;
    ghost var buckets := Buckets(valid);
    NothingWeighed(|valid|);
    while lower < 1.0
      invariant 0 <= k <= BUCKETS && lower == Lower(k)
      invariant weightedError == if valid == [] then 0.0 else WeightedError(buckets[..k], |valid|)
      decreases BUCKETS - k
    {
      assert buckets[k] == Bucket(Lower(k), valid);
      NoExample(lower, valid);
      WeighOne(buckets, k, |valid|);
      var bucket := Bucket(lower, valid);
      if bucket != [] {
        weightedError := weightedError + Contribution(bucket, |valid|);
      }
      lower := lower + 0.2;
      k := k + 1;
    }
    assert buckets[..k] == buckets;
  }

  lemma NothingWeighed(n: nat)
    ensures n > 0 ==> WeightedError([], n) == 0.0
  {
  }

  lemma NoExample(lower: real, valid: seq<Example>)
    ensures valid == [] ==> Bucket(lower, valid) == []
  {
  }

  lemma WeighOne(buckets: seq<seq<Example>>, k: nat, n: nat)
    requires k < |buckets|
    ensures n > 0 ==>
              WeightedError(buckets[..k + 1], n)
              == WeightedError(buckets[..k], n) + if buckets[k] == [] then 0.0 else Contribution(buckets[k], n)
  {
    hide Contribution;
    assert buckets[..k + 1][..k] == buckets[..k];
  }

  // ------------------------------------------------------ the buckets partition

  /** Every in-range example falls in exactly one of the five buckets: by its fifth, and 1 itself into the last. */
  lemma OneBucketEach(e: Example)
    requires InRange(e)
    ensures exists k: nat :: k < BUCKETS && InBucket(Lower(k), e)
    ensures forall k: nat :: k < BUCKETS ==>
              (InBucket(Lower(k), e) <==> k == if e.probability == 1.0 then 4 else (e.probability * 5.0).Floor)
  {
    var k: nat := if e.probability >= 0.8 then 4 else (e.probability * 5.0).Floor;
    assert Lower(k) <= e.probability;
    assert k < BUCKETS && InBucket(Lower(k), e);
  }

  function SumOver(f: Example -> real, buckets: seq<seq<Example>>): real {
    if buckets == [] then 0.0
    else SumOver(f, buckets[..|buckets| - 1]) + SumBy(f, buckets[|buckets| - 1])
  }

  lemma BucketSnoc(f: Example -> real, lower: real, valid: seq<Example>)
    requires valid != []
    ensures var e := valid[|valid| - 1];
            SumBy(f, Bucket(lower, valid)) == SumBy(f, Bucket(lower, valid[..|valid| - 1]))
              + if InBucket(lower, e) then f(e) else 0.0
  {
    var e, before := valid[|valid| - 1], Bucket(lower, valid[..|valid| - 1]);
    assert (before + [e])[..|before|] == before;
    assert before + [] == before;
  }

  lemma {:induction false} SumOverSnoc(f: Example -> real, valid: seq<Example>, k: nat)
    requires valid != [] && k <= BUCKETS && InRange(valid[|valid| - 1])
    ensures var e, front := valid[|valid| - 1], valid[..|valid| - 1];
            SumOver(f, Buckets(valid)[..k]) == SumOver(f, Buckets(front)[..k])
              + if exists j: nat :: j < k && InBucket(Lower(j), e) then f(e) else 0.0
  {
    hide Bucket, Buckets, InBucket, InRange, SumBy, SumOver, Lower;
    if k != 0 {
      var front, e := valid[..|valid| - 1], valid[|valid| - 1];
      SumOverSnoc(f, valid, k - 1);
      SumOverOne(f, valid, k - 1);
      SumOverOne(f, front, k - 1);
      OneBucketEach(e);
      BucketSnoc(f, Lower(k - 1), valid);
    } else {
      SumOverNone(f, valid);
      SumOverNone(f, valid[..|valid| - 1]);
    }
  }

  lemma SumOverNone(f: Example -> real, valid: seq<Example>)
    ensures SumOver(f, Buckets(valid)[..0]) == 0.0
  {
  }

  lemma SumOverOne(f: Example -> real, valid: seq<Example>, k: nat)
    requires k < BUCKETS
    ensures SumOver(f, Buckets(valid)[..k + 1]) == SumOver(f, Buckets(valid)[..k]) + SumBy(f, Bucket(Lower(k), valid))
  {
    hide Bucket, SumBy, Lower;
    assert Buckets(valid)[..k + 1][..k] == Buckets(valid)[..k];
  }

  /** Splitting into buckets loses nothing: every additive measure is the sum of its bucket parts. */
  lemma {:induction false} BucketsPartition(f: Example -> real, valid: seq<Example>)
    requires forall i :: 0 <= i < |valid| ==> InRange(valid[i])
    ensures SumOver(f, Buckets(valid)) == SumBy(f, valid)
  {
    assert Buckets(valid)[..BUCKETS] == Buckets(valid);
    if valid == [] {
      NoExamples(f, BUCKETS);
    } else {
      var front := valid[..|valid| - 1];
      assert Buckets(front)[..BUCKETS] == Buckets(front);
      BucketsPartition(f, front);
      SumOverSnoc(f, valid, BUCKETS);
      OneBucketEach(valid[|valid| - 1]);
    }
  }

  lemma {:induction false} NoExamples(f: Example -> real, k: nat)
    requires k <= BUCKETS
    ensures SumOver(f, Buckets([])[..k]) == 0.0
  {
    if k != 0 {
      assert Buckets([])[..k][..k - 1] == Buckets([])[..k - 1];
      NoExamples(f, k - 1);
    }
  }

  // ------------------------------------------------------------ the inequalities

  lemma {:induction false} SumOfDifferences(examples: seq<Example>)
    ensures SumBy(Difference, examples) == SumBy(Probability, examples) - SumBy(Actual, examples)
    ensures Abs(SumBy(Difference, examples)) <= SumBy(Distance, examples)
  {
    if examples != [] {
      SumOfDifferences(examples[..|examples| - 1]);
    }
  }

  /** A bucket contributes the absolute sum of its differences, divided by the size of the whole list. */
  lemma ContributionIs(bucket: seq<Example>, n: nat)
    requires bucket != [] && n > 0
    ensures Contribution(bucket, n) == Abs(SumBy(Difference, bucket)) / n as real
  {
    ContributionUnfolds(bucket, n);
    hide *;
    SumOfDifferences(bucket);
    ScaleAbs(SumBy(Probability, bucket), SumBy(Actual, bucket), |bucket| as real, n as real);
  }

  lemma ContributionUnfolds(bucket: seq<Example>, n: nat)
    requires bucket != [] && n > 0
    ensures var m := |bucket| as real;
            Contribution(bucket, n) == m / n as real * Abs(SumBy(Probability, bucket) / m - SumBy(Actual, bucket) / m)
  {
    hide Abs, SumBy;
  }

  /** The absolute bucket sums, free of any division. */
  function AbsoluteSums(buckets: seq<seq<Example>>): real {
    if buckets == [] then 0.0
    else AbsoluteSums(buckets[..|buckets| - 1]) + Abs(SumBy(Difference, buckets[|buckets| - 1]))
  }

  lemma ScaleAbs(p: real, y: real, m: real, n: real)
    requires m > 0.0 && n > 0.0
    ensures m / n * Abs(p / m - y / m) == Abs(p - y) / n
  {
    var d := p / m - y / m;
    assert m * d == p - y;
    assert m * Abs(d) == Abs(p - y);
    assert m / n * Abs(d) == m * Abs(d) / n;
  }

  lemma MeanDifference(p: real, y: real, n: real)
    requires n > 0.0
    ensures Abs(p / n - y / n) == Abs(p - y) / n
  {
    assert p / n - y / n == (p - y) / n;
  }

  lemma {:induction false} WeightedErrorIs(buckets: seq<seq<Example>>, n: nat)
    requires n > 0
    ensures WeightedError(buckets, n) == AbsoluteSums(buckets) / n as real
  {
    if buckets != [] {
      var front, bucket := buckets[..|buckets| - 1], buckets[|buckets| - 1];
      WeightedErrorIs(front, n);
      var next := if bucket == [] then 0.0 else Contribution(bucket, n);
      assert next == Abs(SumBy(Difference, bucket)) / n as real by {
        if bucket != [] {
          ContributionIs(bucket, n);
        }
      }
      AddFractions(AbsoluteSums(front), Abs(SumBy(Difference, bucket)), n as real);
    }
  }

  lemma AddFractions(a: real, b: real, n: real)
    requires n > 0.0
    ensures a / n + b / n == (a + b) / n
  {
  }

  lemma {:induction false} SumsBetween(buckets: seq<seq<Example>>)
    ensures Abs(SumOver(Difference, buckets)) <= AbsoluteSums(buckets) <= SumOver(Distance, buckets)
  {
    if buckets != [] {
      SumsBetween(buckets[..|buckets| - 1]);
      SumOfDifferences(buckets[|buckets| - 1]);
    }
  }

  /** Cauchy-Schwarz against the constant list: the square of a sum is at most n times the sum of squares. */
  lemma {:induction false} SumSquaredBound(examples: seq<Example>)
    ensures SumBy(Distance, examples) * SumBy(Distance, examples)
              <= |examples| as real * SumBy(Squared, examples)
    ensures SumBy(Squared, examples) >= 0.0
  {
    if examples != [] {
      var front, e := examples[..|examples| - 1], examples[|examples| - 1];
      SumSquaredBound(front);
      var a, s, q, n := Distance(e), SumBy(Distance, front), SumBy(Squared, front), |front| as real;
      assert Squared(e) == a * a;
      Square(a);
      if n == 0.0 {
        assert front == [];
      } else {
        CrossTerm(n, s, q, a);
      }
      assert (s + a) * (s + a) == s * s + 2.0 * s * a + a * a;
      assert (n + 1.0) * (q + a * a) == n * q + q + n * (a * a) + a * a;
      assert |examples| as real == n + 1.0;
    }
  }

  lemma Square(a: real)
    ensures a * a >= 0.0
  {
  }

  lemma CrossTerm(n: real, s: real, q: real, a: real)
    requires n > 0.0 && s * s <= n * q
    ensures 2.0 * s * a <= q + n * (a * a)
  {
    var gap := q + n * (a * a) - 2.0 * s * a;
    Square(s - n * a);
    assert n * gap == n * q + n * (n * (a * a)) - 2.0 * s * (n * a);
    assert (s - n * a) * (s - n * a) == s * s - 2.0 * s * (n * a) + n * (n * (a * a));
    assert n * gap >= 0.0;
  }

  lemma {:induction false} DistanceAtMostOne(examples: seq<Example>)
    requires forall i :: 0 <= i < |examples| ==> InRange(examples[i])
    ensures SumBy(Distance, examples) <= |examples| as real
  {
    if examples != [] {
      DistanceAtMostOne(examples[..|examples| - 1]);
    }
  }

  /**
   * For every non-empty list of valid examples the calibration error lies between the absolute
   * difference of the two means and 1, and its square is at most the Brier score.
   */
  lemma CalibrationBounds(fixtures: seq<Fixture>)
    requires Valid(fixtures) != []
    ensures var valid := Valid(fixtures);
            && Abs(Mean(Probability, valid) - Mean(Actual, valid)) <= Ece(valid) <= 1.0
            && Ece(valid) * Ece(valid) <= Mean(Squared, valid)
  {
    hide *;
    var valid := Valid(fixtures);
    EceIs(valid);
    MeanGap(valid);
    BoundsFor(valid, Ece(valid));
  }

  lemma EceIs(valid: seq<Example>)
    requires valid != []
    ensures Ece(valid) == AbsoluteSums(Buckets(valid)) / |valid| as real
  {
    WeightedErrorIs(Buckets(valid), |valid|);
  }

  lemma BoundsFor(valid: seq<Example>, ece: real)
    requires valid != [] && ece == AbsoluteSums(Buckets(valid)) / |valid| as real
    requires forall i :: 0 <= i < |valid| ==> InRange(valid[i])
    ensures Abs(SumBy(Difference, valid)) / |valid| as real <= ece <= 1.0
    ensures ece * ece <= Mean(Squared, valid)
  {
    hide *;
    var d, s, a, q := Ingredients(valid);
    BrierIs(valid);
    DivideThrough(d, s, a, q, |valid| as real, ece, Mean(Squared, valid));
  }

  lemma BrierIs(valid: seq<Example>)
    requires valid != []
    ensures Mean(Squared, valid) == SumBy(Squared, valid) / |valid| as real
  {
  }

  lemma Ingredients(valid: seq<Example>) returns (d: real, s: real, a: real, q: real)
    requires forall i :: 0 <= i < |valid| ==> InRange(valid[i])
    ensures d == Abs(SumBy(Difference, valid)) && s == AbsoluteSums(Buckets(valid)) && q == SumBy(Squared, valid)
    ensures 0.0 <= d <= s <= a <= |valid| as real && a * a <= |valid| as real * q
  {
    hide *;
    d, s, a := SumsOrdered(valid);
    q := SumBy(Squared, valid);
    SumSquaredBound(valid);
  }

  lemma MeanGap(valid: seq<Example>)
    requires valid != []
    ensures Abs(Mean(Probability, valid) - Mean(Actual, valid)) == Abs(SumBy(Difference, valid)) / |valid| as real
  {
    SumOfDifferences(valid);
    MeanDifference(SumBy(Probability, valid), SumBy(Actual, valid), |valid| as real);
  }

  lemma SumsOrdered(valid: seq<Example>) returns (d: real, s: real, a: real)
    requires forall i :: 0 <= i < |valid| ==> InRange(valid[i])
    ensures d == Abs(SumBy(Difference, valid)) && s == AbsoluteSums(Buckets(valid)) && a == SumBy(Distance, valid)
    ensures 0.0 <= d <= s <= a <= |valid| as real
  {
    d, s, a := Abs(SumBy(Difference, valid)), AbsoluteSums(Buckets(valid)), SumBy(Distance, valid);
    SumsBetween(Buckets(valid));
    BucketsPartition(Difference, valid);
    BucketsPartition(Distance, valid);
    DistanceAtMostOne(valid);
  }

  lemma DivideThrough(d: real, s: real, a: real, q: real, n: real, x: real, y: real)
    requires n > 0.0 && 0.0 <= d <= s <= a <= n && a * a <= n * q && x == s / n && y == q / n
    ensures d / n <= x <= 1.0
    ensures x * x <= y
  {
    SquareBelow(s, a);
    assert s == x * n;
    assert s * s == n * (n * (x * x));
    assert n * (x * x) <= q;
  }

  lemma SquareBelow(a: real, b: real)
    requires 0.0 <= a <= b
    ensures a * a <= b * b
  {
  }
}
