/**
 * Why a claim needs one row per observation: a forecaster with repeated rows can claim a gain over
 * itself, because every row of its own is paired with the last row of the other side.
 */
module RepeatedRows {
  import opened Common
  import opened Ranking
  import opened DeLong
  import opened ClaimGate

  // ----- the rows

  /** `n` equal scores and a last one of one half. */
  function Scores(x: real, n: nat): (s: seq<real>)
    ensures |s| == n + 1 && s[n] == 0.5 && forall i :: 0 <= i < n ==> s[i] == x
  {
    seq(n, _ => x) + [0.5]
  }

  function RowsWith(id: string, scores: seq<real>, y: bool): (r: seq<ScoreRow>)
    ensures |r| == |scores| && forall i :: 0 <= i < |r| ==> r[i] == ScoreRow(id, scores[i], y)
  {
    seq(|scores|, i requires 0 <= i < |scores| => ScoreRow(id, scores[i], y))
  }

  /** One positive and one negative observation, each reported `n + 1` times, the last time undecided. */
  function Repeated(p: string, q: string, n: nat): seq<ScoreRow> {
    RowsWith(p, Scores(1.0, n), true) + RowsWith(q, Scores(0.0, n), false)
  }

  // ----- the paired sample

  lemma {:induction false} AlignAll(a: seq<ScoreRow>, m: map<string, ScoreRow>)
    requires forall i :: 0 <= i < |a| ==> a[i].obsId in m
    ensures var t := Align(a, m);
            |t| == |a| && forall i :: 0 <= i < |a| ==> t[i] == Paired(a[i].obsId, a[i].prob, m[a[i].obsId].prob, a[i].outcome)
  {
    if a != [] {
      AlignAll(a[..|a| - 1], m);
    }
  }

  /** Every row is paired with an undecided one. */
  lemma RepeatedPairs(p: string, q: string, n: nat)
    requires p != q
    ensures var rows := Repeated(p, q, n);
            var t := Align(rows, ByObs(rows));
            && First(t) == Probs(rows) && Truth(t) == Labels(rows)
            && |t| == |rows| && forall i :: 0 <= i < |t| ==> Second(t)[i] == 0.5
  {
    var rows := Repeated(p, q, n);
    ByObsLast(rows, n);
    ByObsLast(rows, 2 * n + 1);
    AlignAll(rows, ByObs(rows));
  }

  // ----- its classes

  /** Positives first, then negatives: the classes are the two blocks. */
  lemma {:induction false} SelectBlocks(s: seq<real>, l: seq<bool>, k: nat)
    requires |s| == |l| && k <= |l| && (forall i :: 0 <= i < k ==> l[i]) && (forall i :: k <= i < |l| ==> !l[i])
    ensures Select(s, l, true) == s[..k] && Select(s, l, false) == s[k..] && CountTrue(l) == k
  {
    if s != [] {
      var n := |s| - 1;
      var j := if k <= n then k else n;
      SelectBlocks(s[..n], l[..n], j);
      assert s[..n][..j] == s[..j] && s[..n][j..] == s[j..n];
      assert s[..n + 1] == s[..n] + [s[n]] && (k <= n ==> s[k..] == s[k..n] + [s[n]]);
    }
  }

  lemma RepeatedSample(p: string, q: string, n: nat)
    requires p != q
    ensures var rows, pos, neg := Repeated(p, q, n), Scores(1.0, n), Scores(0.0, n);
            var t := Align(rows, ByObs(rows));
            && First(t) == Probs(rows) && Truth(t) == Labels(rows) && multiset(Truth(t))[true] == n + 1
            && |t| == 2 * n + 2 && (forall i :: 0 <= i < |t| ==> Second(t)[i] == 0.5 && (Truth(t)[i] <==> i <= n))
            && First(t)[..n + 1] == Select(First(t), Truth(t), true) == pos
            && First(t)[n + 1..] == Select(First(t), Truth(t), false) == neg
  {
    var rows, pos, neg := Repeated(p, q, n), Scores(1.0, n), Scores(0.0, n);
    RepeatedPairs(p, q, n);
    assert Probs(rows) == pos + neg;
    SelectBlocks(pos + neg, Labels(rows), n + 1);
    CountTrueIs(Labels(rows));
    assert (pos + neg)[..n + 1] == pos && (pos + neg)[n + 1..] == neg;
  }

  // ----- its AUROC

  /** Multiplying by a positive number keeps the order, both ways. */
  lemma Scale(x: real, y: real, m: real)
    requires m > 0.0
    ensures x <= y <==> x * m <= y * m
  {
    var d := y - x;
    assert d * m == y * m - x * m;
    if d > 0.0 {
      assert d * m > 0.0;
    } else if d < 0.0 {
      assert (-d) * m > 0.0;
    }
  }

  lemma Quotient(a: real, m: real, c: real)
    requires m > 0.0
    ensures (a / m <= c <==> a <= c * m) && (c <= a / m <==> c * m <= a)
  {
    assert (a / m) * m == a;
    Scale(a / m, c, m);
    Scale(c, a / m, m);
  }

  lemma {:induction false} PlacementAbove(x: real, ys: seq<real>)
    requires forall i :: 0 <= i < |ys| ==> ys[i] < x
    ensures Placement(x, ys) == |ys| as real
  {
    if ys != [] {
      PlacementAbove(x, ys[..|ys| - 1]);
    }
  }

  lemma PlacementsOfScores(n: nat)
    ensures var neg := Scores(0.0, n);
            Placement(1.0, neg) == n as real + 1.0 && Placement(0.5, neg) == n as real + 0.5
  {
    var neg := Scores(0.0, n);
    PlacementAbove(1.0, neg);
    PlacementAbove(0.5, neg[..n]);
    assert neg[..|neg| - 1] == neg[..n];
  }

  lemma {:induction false} PairSumAtLeast(xs: seq<real>, ys: seq<real>, c: real)
    requires forall i :: 0 <= i < |xs| ==> Placement(xs[i], ys) >= c
    ensures PairSum(xs, ys) >= c * |xs| as real
  {
    if xs != [] {
      var n := |xs| - 1;
      PairSumAtLeast(xs[..n], ys, c);
      assert c * (n + 1) as real == c * n as real + c;
    }
  }

  lemma AucOfScores(n: nat)
    requires n >= 9
    ensures PairwiseAuc(Scores(1.0, n), Scores(0.0, n)) >= 0.9
  {
    var pos, neg, m := Scores(1.0, n), Scores(0.0, n), (n + 1) as real;
    PlacementsOfScores(n);
    PairSumAtLeast(pos, neg, 0.9 * m);
    NineTenths(PairSum(pos, neg), n + 1, m);
  }

  lemma NineTenths(x: real, n: nat, m: real)
    requires n > 0 && m == n as real && x >= (0.9 * m) * m
    ensures x / (n * n) as real >= 0.9
  {
    var square := (n * n) as real;
    assert square == m * m;
    assert (0.9 * m) * m == 0.9 * square;
    Quotient(x, square, 0.9);
  }

  // ----- its variance is positive and small

  lemma {:induction false} SumBetween(s: seq<real>, lo: real, hi: real)
    requires forall i :: 0 <= i < |s| ==> lo <= s[i] <= hi
    ensures lo * |s| as real <= Sum(s) <= hi * |s| as real
  {
    if s != [] {
      var n := |s| - 1;
      SumBetween(s[..n], lo, hi);
      assert lo * (n + 1) as real == lo * n as real + lo && hi * (n + 1) as real == hi * n as real + hi;
    }
  }

  lemma {:induction false} SumAtLeast(s: seq<real>, k: nat)
    requires k < |s| && forall i :: 0 <= i < |s| ==> s[i] >= 0.0
    ensures Sum(s) >= s[k]
  {
    var n := |s| - 1;
    if k < n {
      SumAtLeast(s[..n], k);
    } else {
      SumNonNegative(s[..n]);
    }
  }

  lemma SquareAtMostFour(d: real)
    requires -2.0 <= d <= 2.0
    ensures 0.0 <= d * d <= 4.0
  {
    SquareNonNegative(d);
    var e := if d < 0.0 then -d else d;
    assert d * d == e * e;
    if e > 0.0 {
      Scale(e, 2.0, e);
    }
  }

  lemma MeanWithinOne(a: seq<real>)
    requires a != [] && forall i :: 0 <= i < |a| ==> -1.0 <= a[i] <= 1.0
    ensures -1.0 <= Mean(a) <= 1.0
  {
    SumBetween(a, -1.0, 1.0);
    Quotient(Sum(a), |a| as real, 1.0);
    Quotient(Sum(a), |a| as real, -1.0);
  }

  /** Values within one of zero have a variance of at most eight. */
  lemma VarianceAtMost(a: seq<real>)
    requires |a| >= 2 && forall i :: 0 <= i < |a| ==> -1.0 <= a[i] <= 1.0
    ensures Cov(a, a) <= 8.0
  {
    var m := Mean(a);
    MeanWithinOne(a);
    var s := Products(a, a, m, m);
    forall i | 0 <= i < |s| ensures 0.0 <= s[i] <= 4.0 {
      SquareAtMostFour(a[i] - m);
    }
    SumBetween(s, 0.0, 4.0);
    Quotient(Sum(s), (|a| - 1) as real, 8.0);
  }

  /** The product of two numbers of the same sign is positive. */
  lemma SameSign(x: real, y: real, product: real)
    requires product == x * y && ((x > 0.0 && y > 0.0) || (x < 0.0 && y < 0.0))
    ensures product > 0.0
    decreases x < 0.0
  {
    if x < 0.0 {
      var a, b := -x, -y;
      assert product == a * b;
      SameSign(a, b, product);
    }
  }

  /** Values that differ have a positive variance. */
  lemma VariancePositive(a: seq<real>, i: nat, j: nat)
    requires i < |a| && j < |a| && |a| >= 2 && a[i] != a[j]
    ensures Cov(a, a) > 0.0
  {
    var m := Mean(a);
    var s := Products(a, a, m, m);
    forall k | 0 <= k < |s| ensures s[k] >= 0.0 {
      SquareNonNegative(a[k] - m);
    }
    var k := if a[i] != m then i else j;
    SameSign(a[k] - m, a[k] - m, s[k]);
    SumAtLeast(s, k);
    Quotient(Sum(s), (|a| - 1) as real, 0.0);
  }

  lemma {:induction false} PlacementWithin(x: real, ys: seq<real>)
    ensures 0.0 <= Placement(x, ys) <= |ys| as real
  {
    if ys != [] {
      PlacementWithin(x, ys[..|ys| - 1]);
    }
  }

  lemma {:induction false} ColumnWithin(xs: seq<real>, y: real)
    ensures 0.0 <= PairSum(xs, [y]) <= |xs| as real
  {
    if xs != [] {
      ColumnWithin(xs[..|xs| - 1], y);
      PlacementWithin(xs[|xs| - 1], [y]);
    }
  }

  /** Placement values lie between zero and one. */
  lemma PlacementShares(pos: seq<real>, neg: seq<real>)
    requires pos != [] && neg != []
    ensures forall i :: 0 <= i < |pos| ==> 0.0 <= V01(pos, neg)[i] <= 1.0
    ensures forall j :: 0 <= j < |neg| ==> 0.0 <= V10(pos, neg)[j] <= 1.0
  {
    forall i | 0 <= i < |pos| ensures 0.0 <= V01(pos, neg)[i] <= 1.0 {
      PlacementWithin(pos[i], neg);
      Quotient(Placement(pos[i], neg), |neg| as real, 0.0);
      Quotient(Placement(pos[i], neg), |neg| as real, 1.0);
    }
    forall j | 0 <= j < |neg| ensures 0.0 <= V10(pos, neg)[j] <= 1.0 {
      ColumnWithin(pos, neg[j]);
      Quotient(PairSum(pos, [neg[j]]), |pos| as real, 0.0);
      Quotient(PairSum(pos, [neg[j]]), |pos| as real, 1.0);
    }
  }

  /** The variance of the difference shrinks with the sample, whatever the scores. */
  lemma VarDiffSmall(posA: seq<real>, negA: seq<real>, posB: seq<real>, negB: seq<real>)
    requires |posA| == |posB| >= 1000 && |negA| == |negB| >= 1000
    ensures VarDiff(posA, negA, posB, negB) <= 0.016
  {
    PlacementShares(posA, negA);
    PlacementShares(posB, negB);
    var d01 := Minus(V01(posA, negA), V01(posB, negB));
    var d10 := Minus(V10(posA, negA), V10(posB, negB));
    VarianceAtMost(d01);
    VarianceAtMost(d10);
    Quotient(Cov(d01, d01), |posA| as real, 0.008);
    Quotient(Cov(d10, d10), |negA| as real, 0.008);
  }

  lemma VarDiffPositive(n: nat, posB: seq<real>, negB: seq<real>)
    requires n >= 1 && |posB| == |negB| == n + 1
    requires (forall i :: 0 <= i <= n ==> posB[i] == 0.5) && (forall i :: 0 <= i <= n ==> negB[i] == 0.5)
    ensures VarDiff(Scores(1.0, n), Scores(0.0, n), posB, negB) > 0.0
  {
    var pos, neg, m := Scores(1.0, n), Scores(0.0, n), n as real + 1.0;
    var a, b := V01(pos, neg), V01(posB, negB);
    var d := Minus(a, b);
    PlacementsOfScores(n);
    assert a[0] == m / m && a[n] == (m - 0.5) / m && b[0] == b[n];
    Quotient(m - 0.5, m, 1.0);
    Quotient(m, m, 1.0);
    assert d[0] != d[n];
    VariancePositive(d, 0, n);
    var d10 := Minus(V10(pos, neg), V10(posB, negB));
    VarianceNonNegative(d10);
    Quotient(Cov(d, d), |pos| as real, 0.0);
    Quotient(Cov(d10, d10), |neg| as real, 0.0);
  }

  // ----- the claim

  /**
   * `sqrt` is the square root on positive numbers, and `cdf` passes 97.5% by two deviations, as
   * the normal distribution function does.
   */
  ghost predicate Usual(sqrt: real -> real, cdf: real -> real) {
    && (forall v :: v > 0.0 ==> sqrt(v) > 0.0 && sqrt(v) * sqrt(v) == v)
    && (forall x :: x >= 2.0 ==> 0.975 < cdf(x))
  }

  lemma Significant(aucA: real, aucB: real, v: real, n: nat, sqrt: real -> real, cdf: real -> real)
    requires Usual(sqrt, cdf) && aucA - aucB > 0.3 && 0.0 < v <= 0.016
    ensures Verdict(aucA, aucB, v, n, sqrt, cdf).p < 0.05
  {
    var se, diff := sqrt(v), aucA - aucB;
    Scale(0.13, se, se);
    Quotient(diff, se, 2.0);
    assert cdf(diff / se) > 0.975;
  }

  lemma ScoresBeatHalves(n: nat, posB: seq<real>, negB: seq<real>, sqrt: real -> real, cdf: real -> real)
    requires Usual(sqrt, cdf) && n >= 1000 && |posB| == |negB| == n + 1
    requires forall i :: 0 <= i <= n ==> posB[i] == 0.5 && negB[i] == 0.5
    ensures var pos, neg := Scores(1.0, n), Scores(0.0, n);
            && PairwiseAuc(pos, neg) > 0.5 == PairwiseAuc(posB, negB)
            && ClassDeLong(pos, neg, posB, negB, sqrt, cdf).p < 0.05
  {
    var pos, neg := Scores(1.0, n), Scores(0.0, n);
    AucOfScores(n);
    ConstantPredictor(0.5, posB, negB);
    VarDiffSmall(pos, neg, posB, negB);
    VarDiffPositive(n, posB, negB);
    Significant(PairwiseAuc(pos, neg), PairwiseAuc(posB, negB), VarDiff(pos, neg, posB, negB),
                |pos| + |neg|, sqrt, cdf);
  }

  /** The undecided side of the sample, class by class, and the test on the classes. */
  lemma TestOnClasses(t: seq<Paired>, n: nat, sqrt: real -> real, cdf: real -> real)
    requires |t| == 2 * n + 2 && n >= 1
    requires forall i :: 0 <= i < |t| ==> Second(t)[i] == 0.5 && (Truth(t)[i] <==> i <= n)
    ensures var a, b := Select(Second(t), Truth(t), true), Select(Second(t), Truth(t), false);
            && |a| == |b| == n + 1 && (forall i :: 0 <= i <= n ==> a[i] == 0.5 && b[i] == 0.5)
            && PairwiseDeLong(First(t), Second(t), Truth(t), sqrt, cdf) ==
               Some(ClassDeLong(First(t)[..n + 1], First(t)[n + 1..], a, b, sqrt, cdf))
  {
    SelectBlocks(First(t), Truth(t), n + 1);
    SelectBlocks(Second(t), Truth(t), n + 1);
    GatherIsSelect(First(t), Truth(t), true);
    GatherIsSelect(First(t), Truth(t), false);
    GatherIsSelect(Second(t), Truth(t), true);
    GatherIsSelect(Second(t), Truth(t), false);
  }

  /**
   * With a thousand repeated reports of one positive and one negative observation, a forecaster
   * may claim a significant gain over itself, so two such forecasters over each other.
   */
  lemma RepeatsBeatThemselves(p: string, q: string, n: nat, sqrt: real -> real, cdf: real -> real)
    requires p != q && n >= 1000 && Usual(sqrt, cdf)
    ensures ClaimJustified(Repeated(p, q, n), Repeated(p, q, n), sqrt, cdf)
  {
    var rows := Repeated(p, q, n);
    var t := Align(rows, ByObs(rows));
    RepeatedSample(p, q, n);
    TestOnClasses(t, n, sqrt, cdf);
    ScoresBeatHalves(n, Select(Second(t), Truth(t), true), Select(Second(t), Truth(t), false), sqrt, cdf);
  }
}
