/** What the DeLong test's numbers mean: the standard error from all paired differences, and the p-value. */
module DeLongMeaning {
  import opened Common
  import opened Ranking
  import opened DeLong

  // ----- the variance, without means

  /** `f` of each entry, added up. */
  function Total(f: real -> real, d: seq<real>): real {
    if d == [] then 0.0 else Total(f, d[..|d| - 1]) + f(d[|d| - 1])
  }

  /** For each entry of `e`, its total over `d`, added up. */
  function AllPairs(f: real -> real -> real, e: seq<real>, d: seq<real>): real {
    if e == [] then 0.0 else AllPairs(f, e[..|e| - 1], d) + Total(f(e[|e| - 1]), d)
  }

  /** The squared distance from `x`. */
  function Gap(x: real): real -> real {
    y => (x - y) * (x - y)
  }

  /** `x`, added `n` times. */
  function Times(n: nat, x: real): real {
    if n == 0 then 0.0 else Times(n - 1, x) + x
  }

  lemma {:induction false} TimesIs(n: nat, x: real)
    ensures Times(n, x) == n as real * x
  {
    if n > 0 {
      TimesIs(n - 1, x);
      OnceMore((n - 1) as real, x);
    }
  }

  lemma OnceMore(n: real, x: real)
    ensures (n + 1.0) * x == n * x + x
  {
  }

  lemma {:induction false} TimesOfSum(n: nat, x: real, y: real, sum: real)
    requires sum == x + y
    ensures Times(n, sum) == Times(n, x) + Times(n, y)
  {
    if n > 0 {
      TimesOfSum(n - 1, x, y, sum);
    }
  }

  lemma {:induction false} TimesAdd(m: nat, n: nat, x: real)
    ensures Times(m + n, x) == Times(m, x) + Times(n, x)
  {
    if n > 0 {
      TimesAdd(m, n - 1, x);
    }
  }

  lemma {:induction false} TotalOfThree(f: real -> real, g: real -> real, h: real -> real, w: real, d: seq<real>)
    requires forall y :: f(y) == g(y) + h(y) + w
    ensures Total(f, d) == Total(g, d) + Total(h, d) + Times(|d|, w)
  {
    if d != [] {
      TotalOfThree(f, g, h, w, d[..|d| - 1]);
    }
  }

  /** The signed distances from a mean cancel, and so do their multiples. */
  lemma {:induction false} TotalOfOffsets(h: real -> real, gap: real, m: real, d: seq<real>)
    requires forall y :: h(y) == gap * (2.0 * (m - y))
    ensures Total(h, d) == gap * (2.0 * (Times(|d|, m) - Sum(d)))
  {
    if d != [] {
      var n := |d| - 1;
      TotalOfOffsets(h, gap, m, d[..n]);
      Distributes(gap, Times(n, m) - Sum(d[..n]), m - d[n], Times(|d|, m) - Sum(d));
    }
  }

  lemma Distributes(gap: real, x: real, y: real, sum: real)
    requires sum == x + y
    ensures gap * (2.0 * x) + gap * (2.0 * y) == gap * (2.0 * sum)
  {
  }

  function Cross(x: real, m: real): real -> real {
    y => (x - m) * (2.0 * (m - y))
  }

  /** The squared distance from `x`, split at `m`. */
  lemma GapSplits(x: real, m: real)
    ensures forall y :: Gap(x)(y) == Gap(m)(y) + Cross(x, m)(y) + Gap(m)(x)
  {
    forall y ensures Gap(x)(y) == Gap(m)(y) + Cross(x, m)(y) + Gap(m)(x) {
      var p, q := x - m, m - y;
      assert (p + q) * (p + q) == p * p + q * q + p * (2.0 * q);
    }
  }

  lemma CrossesVanish(x: real, m: real, d: seq<real>)
    requires Times(|d|, m) == Sum(d)
    ensures Total(Cross(x, m), d) == 0.0
  {
    TotalOfOffsets(Cross(x, m), x - m, m, d);
  }

  /** About any point a list is as far apart as about its mean, and once more by that point's distance for each entry. */
  lemma AroundMean(x: real, d: seq<real>, m: real)
    requires Times(|d|, m) == Sum(d)
    ensures Total(Gap(x), d) == Total(Gap(m), d) + Times(|d|, Gap(m)(x))
  {
    GapSplits(x, m);
    CrossesVanish(x, m, d);
    TotalOfThree(Gap(x), Gap(m), Cross(x, m), Gap(m)(x), d);
  }

  lemma {:induction false} AllPairsAround(f: real -> real -> real, e: seq<real>, d: seq<real>, m: real)
    requires forall x :: Total(f(x), d) == Total(f(m), d) + Times(|d|, f(m)(x))
    ensures AllPairs(f, e, d) == Times(|e|, Total(f(m), d)) + Times(|d|, Total(f(m), e))
  {
    if e == [] {
      TimesIs(|d|, 0.0);
    } else {
      var k := |e| - 1;
      AllPairsAround(f, e[..k], d, m);
      TimesOfSum(|d|, Total(f(m), e[..k]), f(m)(e[k]), Total(f(m), e));
    }
  }

  lemma PairsAround(e: seq<real>, d: seq<real>, m: real)
    requires Times(|d|, m) == Sum(d)
    ensures AllPairs(Gap, e, d) == Times(|e|, Total(Gap(m), d)) + Times(|d|, Total(Gap(m), e))
  {
    forall x ensures Total(Gap(x), d) == Total(Gap(m), d) + Times(|d|, Gap(m)(x)) {
      AroundMean(x, d, m);
    }
    AllPairsAround(Gap, e, d, m);
  }

  /** A total of products is that of the squared distances. */
  lemma {:induction false} SumIsTotal(p: seq<real>, f: real -> real, d: seq<real>)
    requires |p| == |d| && forall i | 0 <= i < |d| :: p[i] == f(d[i])
    ensures Sum(p) == Total(f, d)
  {
    if d != [] {
      SumIsTotal(p[..|p| - 1], f, d[..|d| - 1]);
    }
  }

  lemma SameSquare(x: real, y: real)
    ensures (x - y) * (x - y) == Gap(y)(x)
  {
  }

  /** The squared deviations from any point are the squared distances from it. */
  lemma CodeviationIsDistances(d: seq<real>, m: real)
    ensures Codeviation(d, d, m, m) == Total(Gap(m), d)
  {
    forall i | 0 <= i < |d| ensures Products(d, d, m, m)[i] == Gap(m)(d[i]) {
      SameSquare(d[i], m);
    }
    SumIsTotal(Products(d, d, m, m), Gap(m), d);
  }

  lemma PairsTwice(d: seq<real>, m: real, total: real)
    requires Times(|d|, m) == Sum(d) && total == Total(Gap(m), d)
    ensures AllPairs(Gap, d, d) == Times(2 * |d|, total)
  {
    PairsAround(d, d, m);
    TimesAdd(|d|, |d|, total);
  }

  lemma MeanTimes(d: seq<real>)
    requires d != []
    ensures Times(|d|, Mean(d)) == Sum(d)
  {
    TimesIs(|d|, Mean(d));
  }

  /** All pairs of a list are apart by twice its length times its squared deviations from the mean. */
  lemma PairsFromDeviations(d: seq<real>)
    requires d != []
    ensures AllPairs(Gap, d, d) == Times(2 * |d|, Codeviation(d, d, Mean(d), Mean(d)))
  {
    MeanTimes(d);
    CodeviationIsDistances(d, Mean(d));
    PairsTwice(d, Mean(d), Codeviation(d, d, Mean(d), Mean(d)));
  }

  /** Half the mean squared distance of the pairs of different entries. */
  function PairVariance(d: seq<real>): real
    requires |d| >= 2
  {
    (AllPairs(Gap, d, d) / 2.0) / (|d| * (|d| - 1)) as real
  }

  /** The sample covariance of a list with itself is half the mean squared distance of its pairs. */
  lemma VarianceFromPairs(d: seq<real>)
    requires |d| >= 2
    ensures Cov(d, d) == PairVariance(d)
  {
    PairsFromDeviations(d);
    CancelLength(Codeviation(d, d, Mean(d), Mean(d)), |d|, AllPairs(Gap, d, d));
  }

  lemma CancelLength(x: real, n: nat, all: real)
    requires n >= 2 && all == Times(2 * n, x)
    ensures n * (n - 1) > 0 && x / (n - 1) as real == (all / 2.0) / (n * (n - 1)) as real
  {
    TimesIs(2 * n, x);
    assert (2 * n) as real * x == 2.0 * (n as real * x);
    CancelFactor(x, n as real, (n - 1) as real, all);
    assert (n * (n - 1)) as real == n as real * (n - 1) as real;
  }

  lemma CancelFactor(x: real, n: real, e: real, all: real)
    requires n > 0.0 && e > 0.0 && all == 2.0 * (n * x)
    ensures n * e > 0.0 && x / e == (all / 2.0) / (n * e)
  {
    var q := x / e;
    assert q * e == x;
    assert q * (n * e) == n * x;
  }

  // ----- the test, by what it means

  /** The squared error the test stands for: per class, the variance of the paired differences over their number. */
  function SquaredError(posA: seq<real>, negA: seq<real>, posB: seq<real>, negB: seq<real>): real
    requires |posA| == |posB| >= 2 && |negA| == |negB| >= 2
  {
    PairVariance(Minus(V01(posA, negA), V01(posB, negB))) / |posA| as real
    + PairVariance(Minus(V10(posA, negA), V10(posB, negB))) / |negA| as real
  }

  ghost predicate IsRoot(sqrt: real -> real) {
    forall v :: v >= 0.0 ==> sqrt(v) >= 0.0 && sqrt(v) * sqrt(v) == v
  }

  ghost predicate IsSymmetric(cdf: real -> real) {
    forall x :: cdf(-x) == 1.0 - cdf(x)
  }

  function AbsReal(x: real): real {
    if x < 0.0 then -x else x
  }

  lemma LastLabel(labels: seq<bool>, which: bool)
    requires labels != []
    ensures multiset(labels)[which] ==
            multiset(labels[..|labels| - 1])[which] + (if labels[|labels| - 1] == which then 1 else 0)
  {
    assert labels == labels[..|labels| - 1] + [labels[|labels| - 1]];
  }

  lemma {:induction false} IndicesCount(labels: seq<bool>, which: bool)
    ensures |Indices(labels, which)| == multiset(labels)[which]
  {
    if labels != [] {
      var n := |labels| - 1;
      IndicesCount(labels[..n], which);
      LastLabel(labels, which);
    }
  }

  /** There is a result exactly for equally long lists with at least two items of each class. */
  lemma DefinedIff(a: seq<real>, b: seq<real>, labels: seq<bool>, sqrt: real -> real, cdf: real -> real)
    ensures PairwiseDeLong(a, b, labels, sqrt, cdf).Some? <==>
      |a| == |b| == |labels| && multiset(labels)[true] >= 2 && multiset(labels)[false] >= 2
  {
    IndicesCount(labels, true);
    IndicesCount(labels, false);
  }

  lemma ErrorIsVariance(posA: seq<real>, negA: seq<real>, posB: seq<real>, negB: seq<real>)
    requires |posA| == |posB| >= 2 && |negA| == |negB| >= 2
    ensures VarDiff(posA, negA, posB, negB) == SquaredError(posA, negA, posB, negB)
  {
    VarianceFromPairs(Minus(V01(posA, negA), V01(posB, negB)));
    VarianceFromPairs(Minus(V10(posA, negA), V10(posB, negB)));
  }

  /**
   * For a true square root and a symmetric distribution function: the difference is that of the
   * pairwise AUROCs, its standard error squares to the mean squared distance of the paired
   * placement differences, z standardizes it, and p is the mass of both tails beyond z.
   */
  lemma WhatTheTestMeans(a: seq<real>, b: seq<real>, labels: seq<bool>, sqrt: real -> real, cdf: real -> real)
    requires PairwiseDeLong(a, b, labels, sqrt, cdf).Some? && IsRoot(sqrt) && IsSymmetric(cdf)
    ensures |a| == |b| == |labels|
    ensures var posA, negA := Select(a, labels, true), Select(a, labels, false);
            var posB, negB := Select(b, labels, true), Select(b, labels, false);
            && |posA| == |posB| >= 2 && |negA| == |negB| >= 2 && |posA| + |negA| == |labels|
            && Means(PairwiseDeLong(a, b, labels, sqrt, cdf).value, PairwiseAuc(posA, negA), PairwiseAuc(posB, negB),
                     SquaredError(posA, negA, posB, negB), |labels|, cdf)
  {
    GatherIsSelect(a, labels, true);
    GatherIsSelect(a, labels, false);
    GatherIsSelect(b, labels, true);
    GatherIsSelect(b, labels, false);
    SelectClasses(a, labels);
    ClassTestMeans(Select(a, labels, true), Select(a, labels, false),
                   Select(b, labels, true), Select(b, labels, false), sqrt, cdf);
  }

  ghost predicate Means(r: DeLongResult, aucA: real, aucB: real, squaredError: real, n: nat, cdf: real -> real) {
    && r.aucA == aucA && r.aucB == aucB && r.diff == aucA - aucB && r.n == n
    && r.se >= 0.0 && r.se * r.se == squaredError
    && Standardized(r, cdf)
  }

  lemma TrueError(posA: seq<real>, negA: seq<real>, posB: seq<real>, negB: seq<real>) returns (v: real)
    requires |posA| == |posB| >= 2 && |negA| == |negB| >= 2
    ensures v == VarDiff(posA, negA, posB, negB) == SquaredError(posA, negA, posB, negB) && v >= 0.0
  {
    v := VarDiff(posA, negA, posB, negB);
    ErrorIsVariance(posA, negA, posB, negB);
    VarDiffNonNegative(posA, negA, posB, negB);
  }

  lemma ClassTestMeans(posA: seq<real>, negA: seq<real>, posB: seq<real>, negB: seq<real>,
                       sqrt: real -> real, cdf: real -> real)
    requires |posA| == |posB| >= 2 && |negA| == |negB| >= 2 && IsRoot(sqrt) && IsSymmetric(cdf)
    ensures Means(ClassDeLong(posA, negA, posB, negB, sqrt, cdf), PairwiseAuc(posA, negA), PairwiseAuc(posB, negB),
                  SquaredError(posA, negA, posB, negB), |posA| + |negA|, cdf)
  {
    var v := TrueError(posA, negA, posB, negB);
    VerdictMeans(PairwiseAuc(posA, negA), PairwiseAuc(posB, negB), v, |posA| + |negA|, sqrt, cdf);
  }

  /** z is the difference in standard errors, and p the mass beyond it on both sides; without an error p is one. */
  ghost predicate Standardized(r: DeLongResult, cdf: real -> real) {
    if r.se == 0.0 then r.z == 0.0 && r.p == 1.0
    else
      var z := AbsReal(r.z);
      && r.z * r.se == r.diff
      && r.p == cdf(-z) + (1.0 - cdf(z))
      && (r.p < 0.05 <==> cdf(z) > 0.975)
      && (r.diff == 0.0 ==> r.p == 1.0)
  }

  lemma VerdictMeans(aucA: real, aucB: real, v: real, n: nat, sqrt: real -> real, cdf: real -> real)
    requires v >= 0.0 && IsRoot(sqrt) && IsSymmetric(cdf)
    ensures Means(Verdict(aucA, aucB, v, n, sqrt, cdf), aucA, aucB, v, n, cdf)
  {
    var r := Verdict(aucA, aucB, v, n, sqrt, cdf);
    assert r.se == sqrt(v);
    if r.se > 0.0 {
      assert (r.diff / r.se) * r.se == r.diff;
      assert cdf(-AbsReal(r.z)) == 1.0 - cdf(AbsReal(r.z));
      assert cdf(-0.0) == 1.0 - cdf(0.0);
      if r.diff == 0.0 {
        assert 0.0 / r.se == 0.0;
      }
    }
  }
}
