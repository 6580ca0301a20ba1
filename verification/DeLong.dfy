/**
 * The fast DeLong comparison of two correlated AUROCs on one labelled sample, computed from
 * midranks, measured against the pairwise placement values it abbreviates.
 */
module DeLong {
  import opened Common
  import opened Ranking

  // ----- sums, means and covariances of lists

  function Sum(s: seq<real>): real {
    if s == [] then 0.0 else Sum(s[..|s| - 1]) + s[|s| - 1]
  }

  /** The mean; an empty list is divided by one, as the source does. */
  function Mean(s: seq<real>): real {
    Sum(s) / (if |s| == 0 then 1.0 else |s| as real)
  }

  /** The products of paired deviations from `ma` and `mb`. */
  function Products(a: seq<real>, b: seq<real>, ma: real, mb: real): (r: seq<real>)
    requires |a| == |b|
  {
    seq(|a|, i requires 0 <= i < |a| => (a[i] - ma) * (b[i] - mb))
  }

  function Codeviation(a: seq<real>, b: seq<real>, ma: real, mb: real): real
    requires |a| == |b|
  {
    Sum(Products(a, b, ma, mb))
  }

  /** The sample covariance; the denominator is one for fewer than two items. */
  function Cov(a: seq<real>, b: seq<real>): real
    requires |a| == |b|
  {
    Codeviation(a, b, Mean(a), Mean(b)) / (if |a| > 1 then (|a| - 1) as real else 1.0)
  }

  function Minus(a: seq<real>, b: seq<real>): (r: seq<real>)
    requires |a| == |b|
  {
    seq(|a|, i requires 0 <= i < |a| => a[i] - b[i])
  }

  ghost predicate Rectangular(rows: seq<seq<real>>) {
    forall r :: 0 <= r < |rows| ==> |rows[r]| == |rows[0]|
  }

  lemma CodeviationSymmetric(a: seq<real>, b: seq<real>, ma: real, mb: real)
    requires |a| == |b|
    ensures Codeviation(a, b, ma, mb) == Codeviation(b, a, mb, ma)
  {
    assert Products(a, b, ma, mb) == Products(b, a, mb, ma);
  }

  lemma CovSymmetric(a: seq<real>, b: seq<real>)
    requires |a| == |b|
    ensures Cov(a, b) == Cov(b, a)
  {
    CodeviationSymmetric(a, b, Mean(a), Mean(b));
  }

  method RowCodeviation(a: seq<real>, b: seq<real>, ma: real, mb: real) returns (s: real)
    requires |a| == |b|
    ensures s == Codeviation(a, b, ma, mb)
  {
    s := 0.0;
    ghost var p := Products(a, b, ma, mb);
    for i := 0 to |a|
      invariant s == Sum(p[..i])
    {
      assert p[..i + 1][..i] == p[..i];
      s := s + (a[i] - ma) * (b[i] - mb);
    }
    assert p[..|a|] == p;
  }

  method RowSum(s: seq<real>) returns (total: real)
    ensures total == Sum(s)
  {
    total := 0.0;
    for i := 0 to |s|
      invariant total == Sum(s[..i])
    {
      assert s[..i + 1][..i] == s[..i];
      total := total + s[i];
    }
    assert s[..|s|] == s;
  }

  method RowMeans(rows: seq<seq<real>>, len: nat) returns (means: seq<real>)
    requires forall r :: 0 <= r < |rows| ==> |rows[r]| == len
    ensures |means| == |rows|
    ensures forall r :: 0 <= r < |rows| ==> means[r] == Mean(rows[r])
  {
    means := [];
    for r := 0 to |rows|
      invariant |means| == r
      invariant forall q :: 0 <= q < r ==> means[q] == Mean(rows[q])
    {
      var total := RowSum(rows[r]);
      means := means + [total / (if len == 0 then 1.0 else len as real)];
    }
  }

  /** Every pairwise covariance of the rows. */
  ghost function CovTable(rows: seq<seq<real>>): (t: seq<seq<real>>)
    requires Rectangular(rows)
    ensures |t| == |rows|
    ensures forall i :: 0 <= i < |t| ==> |t[i]| == |rows|
    ensures forall i, j :: 0 <= i < |rows| && 0 <= j < |rows| ==> t[i][j] == Cov(rows[i], rows[j])
  {
    seq(|rows|, i requires 0 <= i < |rows| =>
      seq(|rows|, j requires 0 <= j < |rows| => Cov(rows[i], rows[j])))
  }

  ghost predicate Square(c: seq<seq<real>>, k: nat) {
    |c| == k && forall i :: 0 <= i < k ==> |c[i]| == k
  }

  function WithEntry(c: seq<seq<real>>, k: nat, a: nat, b: nat, v: real): (r: seq<seq<real>>)
    requires Square(c, k) && a < k && b < k
    ensures Square(r, k)
    ensures forall i, j :: 0 <= i < k && 0 <= j < k ==> r[i][j] == if (i, j) == (a, b) then v else c[i][j]
  {
    c[a := c[a][b := v]]
  }

  /** The first `a` rows and columns agree with `t`, and the next ones do up to position `b`. */
  ghost predicate FilledTo(c: seq<seq<real>>, t: seq<seq<real>>, k: nat, a: nat, b: nat)
    requires Square(c, k) && Square(t, k)
  {
    forall i, j :: 0 <= i < k && 0 <= j < k && (i < a || j < a || (i == a && j < b) || (j == a && i < b)) ==>
      c[i][j] == t[i][j]
  }

  /** Filling the upper triangle and mirroring it gives every pairwise covariance. */
  method CovMatrix(rows: seq<seq<real>>) returns (c: seq<seq<real>>)
    requires Rectangular(rows)
    ensures c == CovTable(rows)
  {
    var k := |rows|;
    var len := if k == 0 then 0 else |rows[0]|;
    var means := RowMeans(rows, len);
    ghost var t := CovTable(rows);
    c := seq(k, _ => seq(k, _ => 0.0));
    for a := 0 to k
      invariant Square(c, k)
      invariant FilledTo(c, t, k, a, a)
    {
      for b := a to k
        invariant Square(c, k)
        invariant FilledTo(c, t, k, a, b)
      {
        var entry := CovEntry(rows[a], rows[b], means[a], means[b], len);
        c := WithEntry(c, k, a, b, entry);
        c := WithEntry(c, k, b, a, entry);
      }
    }
    forall i | 0 <= i < k ensures c[i] == t[i] {
      forall j | 0 <= j < k ensures c[i][j] == t[i][j] {
      }
    }
  }

  method CovEntry(a: seq<real>, b: seq<real>, ma: real, mb: real,
                  len: nat) returns (entry: real)
    requires |a| == |b| == len && ma == Mean(a) && mb == Mean(b)
    ensures entry == Cov(a, b) == Cov(b, a)
  {
    var denom := if len > 1 then (len - 1) as real else 1.0;
    var s := RowCodeviation(a, b, ma, mb);
    entry := s / denom;
    CovSymmetric(a, b);
  }

  // ----- placement values

  /** Positions whose label is `which`, ascending. */
  function Indices(labels: seq<bool>, which: bool): (r: seq<nat>)
    ensures forall k :: 0 <= k < |r| ==> r[k] < |labels| && labels[r[k]] == which
  {
    if labels == [] then []
    else
      var n := |labels| - 1;
      Indices(labels[..n], which) + (if labels[n] == which then [n] else [])
  }

  function Gather(pred: seq<real>, idx: seq<nat>): (r: seq<real>)
    requires forall k :: 0 <= k < |idx| ==> idx[k] < |pred|
  {
    seq(|idx|, k requires 0 <= k < |idx| => pred[idx[k]])
  }

  lemma {:induction false} GatherIsSelect(pred: seq<real>, labels: seq<bool>, which: bool)
    requires |pred| == |labels|
    ensures Gather(pred, Indices(labels, which)) == Select(pred, labels, which)
  {
    if labels != [] {
      var n := |labels| - 1;
      GatherIsSelect(pred[..n], labels[..n], which);
      var before := Indices(labels[..n], which);
      assert Gather(pred, before) == Gather(pred[..n], before);
      if labels[n] == which {
        assert Gather(pred, before + [n]) == Gather(pred, before) + [pred[n]];
      }
    }
  }

  /** For every positive, the share of negatives it beats. */
  function V01(pos: seq<real>, neg: seq<real>): (r: seq<real>)
    requires neg != []
  {
    seq(|pos|, i requires 0 <= i < |pos| => Placement(pos[i], neg) / |neg| as real)
  }

  /** For every negative, the share of positives that beat it. */
  function V10(pos: seq<real>, neg: seq<real>): (r: seq<real>)
    requires pos != []
  {
    seq(|neg|, j requires 0 <= j < |neg| => PairSum(pos, [neg[j]]) / |pos| as real)
  }

  lemma {:induction false} SumOfV01(pos: seq<real>, neg: seq<real>)
    requires neg != []
    ensures Sum(V01(pos, neg)) == PairSum(pos, neg) / |neg| as real
  {
    if pos != [] {
      var m := |pos| - 1;
      SumOfV01(pos[..m], neg);
      var v := V01(pos, neg);
      assert v[..m] == V01(pos[..m], neg);
      AddFractions(PairSum(pos[..m], neg), Placement(pos[m], neg), |neg| as real);
    }
  }

  lemma {:induction false} SumOfV10(pos: seq<real>, neg: seq<real>)
    requires pos != []
    ensures Sum(V10(pos, neg)) == PairSum(pos, neg) / |pos| as real
  {
    if neg == [] {
      PairSumEmpty(pos);
    } else {
      var n := |neg| - 1;
      SumOfV10(pos, neg[..n]);
      var v := V10(pos, neg);
      assert v[..n] == V10(pos, neg[..n]);
      PairSumSnoc(pos, neg[..n], neg[n]);
      assert neg == neg[..n] + [neg[n]];
      AddFractions(PairSum(pos, neg[..n]), PairSum(pos, [neg[n]]), |pos| as real);
    }
  }

  lemma AddFractions(a: real, b: real, d: real)
    requires d != 0.0
    ensures a / d + b / d == (a + b) / d
  {
  }

  lemma DivideTwice(a: real, d: real, e: real)
    requires d > 0.0 && e > 0.0
    ensures d * e > 0.0 && (a / d) / e == a / (d * e)
  {
    var q := a / d;
    assert a == q * d;
    var r := q / e;
    assert q == r * e;
    assert a == r * (d * e);
  }

  /** Both families of placement values average to the pairwise AUROC. */
  lemma PlacementsAverageToAuc(pos: seq<real>, neg: seq<real>)
    requires pos != [] && neg != []
    ensures Mean(V01(pos, neg)) == PairwiseAuc(pos, neg)
    ensures Mean(V10(pos, neg)) == PairwiseAuc(pos, neg)
  {
    SumOfV01(pos, neg);
    SumOfV10(pos, neg);
    EitherOrder(PairSum(pos, neg), |pos|, |neg|);
  }

  /** Dividing by two counts, in either order, is dividing by their product. */
  lemma EitherOrder(x: real, m: nat, n: nat)
    requires m > 0 && n > 0
    ensures (x / n as real) / m as real == x / (m * n) as real == (x / m as real) / n as real
  {
    GridIsProduct(m, n);
    DivideTwice(x, n as real, m as real);
    DivideTwice(x, m as real, n as real);
    assert n as real * m as real == m as real * n as real;
  }

  // ----- one forecaster's share of the computation

  /** A positive's rank among all, less its rank among positives, counts the negatives below it. */
  lemma RankDifferencePos(pos: seq<real>, neg: seq<real>, i: nat)
    requires i < |pos|
    ensures Midrank(pos + neg, pos[i]) - Midrank(pos, pos[i]) == Placement(pos[i], neg)
  {
    MidrankIsPlacement(pos + neg, pos[i]);
    MidrankIsPlacement(pos, pos[i]);
    PlacementConcat(pos[i], pos, neg);
  }

  lemma RankDifferenceNeg(pos: seq<real>, neg: seq<real>, j: nat)
    requires j < |neg|
    ensures Midrank(pos + neg, neg[j]) - Midrank(neg, neg[j]) == |pos| as real - PairSum(pos, [neg[j]])
  {
    MidrankIsPlacement(pos + neg, neg[j]);
    MidrankIsPlacement(neg, neg[j]);
    PlacementConcat(neg[j], pos, neg);
    MirrorColumn(pos, neg[j]);
  }

  lemma {:induction false} PlacementConcat(x: real, a: seq<real>, b: seq<real>)
    ensures Placement(x, a + b) == Placement(x, a) + Placement(x, b)
  {
    if b == [] {
      assert a + b == a;
    } else {
      PlacementConcat(x, a, b[..|b| - 1]);
      assert (a + b)[..|a + b| - 1] == a + b[..|b| - 1];
    }
  }

  lemma {:induction false} PositiveRanksTotal(pos: seq<real>, all: seq<real>, ranks: seq<real>)
    requires |ranks| == |pos|
    requires forall i :: 0 <= i < |pos| ==> ranks[i] == Midrank(all, pos[i])
    ensures Sum(ranks) == PairSum(pos, all) + 0.5 * |pos| as real
  {
    if pos != [] {
      var m := |pos| - 1;
      PositiveRanksTotal(pos[..m], all, ranks[..m]);
      MidrankIsPlacement(all, pos[m]);
    }
  }

  lemma {:induction false} PairSumConcat(xs: seq<real>, a: seq<real>, b: seq<real>)
    ensures PairSum(xs, a + b) == PairSum(xs, a) + PairSum(xs, b)
  {
    if xs != [] {
      PairSumConcat(xs[..|xs| - 1], a, b);
      PlacementConcat(xs[|xs| - 1], a, b);
    }
  }

  /** The rank formula for the AUROC agrees with the pairwise definition. */
  lemma AucFromRanks(pos: seq<real>, neg: seq<real>, rankSum: real)
    requires pos != [] && neg != []
    requires rankSum == PairSum(pos, pos + neg) + 0.5 * |pos| as real
    ensures (|pos| * |neg|) as real > 0.0
    ensures rankSum / (|pos| * |neg|) as real - (|pos| as real + 1.0) / (2.0 * |neg| as real)
         == PairwiseAuc(pos, neg)
  {
    PairSumConcat(pos, pos, neg);
    PairSumMirror(pos, pos);
    AucArithmetic(|pos|, |neg|, PairSum(pos, pos), PairSum(pos, neg), rankSum);
  }

  lemma AucArithmetic(m: nat, n: nat, own: real, cross: real, rankSum: real)
    requires m > 0 && n > 0 && own + own == Grid(m, m)
    requires rankSum == own + cross + 0.5 * m as real
    ensures (m * n) as real > 0.0
    ensures rankSum / (m * n) as real - (m as real + 1.0) / (2.0 * n as real) == cross / (m * n) as real
  {
    GridIsProduct(m, m);
    GridIsProduct(m, n);
    QuotientArithmetic(m as real, n as real, own, cross);
  }

  lemma QuotientArithmetic(m: real, n: real, own: real, cross: real)
    requires m > 0.0 && n > 0.0 && own + own == m * m
    ensures m * n > 0.0
    ensures (own + cross + 0.5 * m) / (m * n) - (m + 1.0) / (2.0 * n) == cross / (m * n)
  {
    var d := m * n;
    var q := (m + 1.0) / (2.0 * n);
    assert q * (2.0 * n) == m + 1.0;
    assert 2.0 * q * d == m * (q * (2.0 * n)) == m * (m + 1.0) == m * m + m;
    assert own + 0.5 * m == q * d;
    assert (own + 0.5 * m) / d == q;
    AddFractions(cross, own + 0.5 * m, d);
  }

  /** AUROC and placement values of one forecaster, all read off three midrank lists. */
  method ForecasterPlacements(pos: seq<real>,
                              neg: seq<real>)
    returns (auc: real, v01: seq<real>, v10: seq<real>)
    requires pos != [] && neg != []
    ensures auc == PairwiseAuc(pos, neg)
    ensures v01 == V01(pos, neg) && v10 == V10(pos, neg)
  {
    var m, n := |pos|, |neg|;
    var all := pos + neg;
    var tzr := Midranks(all);
    var txr := Midranks(pos);
    var tyr := Midranks(neg);
    var tzrPos, tzrNeg := tzr[..m], tzr[m..];
    var rankSum := RowSum(tzrPos);
    PositiveRanksTotal(pos, all, tzrPos);
    AucFromRanks(pos, neg, rankSum);
    auc := rankSum / (m * n) as real - (m as real + 1.0) / (2.0 * n as real);
    v01 := [];
    for i := 0 to m
      invariant v01 == V01(pos, neg)[..i]
    {
      RankDifferencePos(pos, neg, i);
      v01 := v01 + [(tzrPos[i] - txr[i]) / n as real];
    }
    v10 := [];
    for j := 0 to n
      invariant v10 == V10(pos, neg)[..j]
    {
      RankDifferenceNeg(pos, neg, j);
      assert tzrNeg[j] == Midrank(all, all[m + j]);
      OneMinus(m as real, PairSum(pos, [neg[j]]));
      v10 := v10 + [1.0 - (tzrNeg[j] - tyr[j]) / m as real];
    }
  }

  lemma OneMinus(m: real, b: real)
    requires m > 0.0
    ensures 1.0 - (m - b) / m == b / m
  {
    AddFractions(m - b, b, m);
  }

  // ----- the comparison

  datatype DeLongResult = DeLongResult(aucA: real, aucB: real, diff: real, se: real, z: real, p: real, n: nat)

  /** The variance of the AUROC difference: that of the paired placement differences, per class. */
  function VarDiff(posA: seq<real>, negA: seq<real>, posB: seq<real>, negB: seq<real>): real
    requires |posA| == |posB| > 0 && |negA| == |negB| > 0
  {
    var d01 := Minus(V01(posA, negA), V01(posB, negB));
    var d10 := Minus(V10(posA, negA), V10(posB, negB));
    Cov(d01, d01) / |posA| as real + Cov(d10, d10) / |negA| as real
  }

  /** The test statistic of a difference `diff` with variance `v`. */
  function Verdict(aucA: real, aucB: real, v: real, n: nat, sqrt: real -> real,
                   cdf: real -> real): DeLongResult {
    var diff := aucA - aucB;
    var se := sqrt(v);
    var z := if se > 0.0 then diff / se else 0.0;
    var p := if se > 0.0 then 2.0 * (1.0 - cdf(if z < 0.0 then -z else z)) else 1.0;
    DeLongResult(aucA, aucB, diff, se, z, p, n)
  }

  /** The test on scores already separated by class. */
  function ClassDeLong(posA: seq<real>, negA: seq<real>, posB: seq<real>, negB: seq<real>,
                       sqrt: real -> real, cdf: real -> real): DeLongResult
    requires |posA| == |posB| > 0 && |negA| == |negB| > 0
  {
    Verdict(PairwiseAuc(posA, negA), PairwiseAuc(posB, negB), VarDiff(posA, negA, posB, negB),
            |posA| + |negA|, sqrt, cdf)
  }

  /** The DeLong test by definition: pairwise AUROCs and the variance of the placement differences. */
  function PairwiseDeLong(a: seq<real>, b: seq<real>, labels: seq<bool>,
                          sqrt: real -> real, cdf: real -> real): Option<DeLongResult>
  {
    if |a| != |labels| || |b| != |labels| then None
    else
      var P, N := Indices(labels, true), Indices(labels, false);
      if |P| < 2 || |N| < 2 then None
      else
        Some(ClassDeLong(Gather(a, P), Gather(a, N), Gather(b, P), Gather(b, N), sqrt, cdf))
  }

  lemma {:induction false} SumOfMinus(a: seq<real>, b: seq<real>)
    requires |a| == |b|
    ensures Sum(Minus(a, b)) == Sum(a) - Sum(b)
  {
    if a != [] {
      var n := |a| - 1;
      SumOfMinus(a[..n], b[..n]);
      assert Minus(a, b)[..n] == Minus(a[..n], b[..n]);
    }
  }

  lemma MeanOfMinus(a: seq<real>, b: seq<real>)
    requires |a| == |b|
    ensures Mean(Minus(a, b)) == Mean(a) - Mean(b)
  {
    SumOfMinus(a, b);
    AddFractions(Sum(a), -Sum(b), if |a| == 0 then 1.0 else |a| as real);
  }

  /** Entry by entry, `p` is `x + y - 2 xy`. */
  ghost predicate Combines(p: seq<real>, x: seq<real>, y: seq<real>, xy: seq<real>) {
    && |p| == |x| == |y| == |xy|
    && forall i :: 0 <= i < |p| ==> p[i] == x[i] + y[i] - 2.0 * xy[i]
  }

  lemma {:induction false} SumLinear(p: seq<real>, x: seq<real>, y: seq<real>, xy: seq<real>)
    requires Combines(p, x, y, xy)
    ensures Sum(p) == Sum(x) + Sum(y) - 2.0 * Sum(xy)
  {
    if p != [] {
      var n := |p| - 1;
      SumLinear(p[..n], x[..n], y[..n], xy[..n]);
    }
  }

  lemma ProductOfMinus(a: seq<real>, b: seq<real>, ma: real, mb: real, i: nat)
    requires |a| == |b| && i < |a|
    ensures Products(Minus(a, b), Minus(a, b), ma - mb, ma - mb)[i]
         == Products(a, a, ma, ma)[i] + Products(b, b, mb, mb)[i] - 2.0 * Products(a, b, ma, mb)[i]
  {
    var d := Minus(a, b);
    CombineProducts(Products(d, d, ma - mb, ma - mb)[i], Products(a, a, ma, ma)[i], Products(b, b, mb, mb)[i],
                    Products(a, b, ma, mb)[i], d[i] - (ma - mb), a[i] - ma, b[i] - mb);
  }

  lemma ProductsOfMinus(a: seq<real>, b: seq<real>, ma: real, mb: real)
    requires |a| == |b|
    ensures Combines(Products(Minus(a, b), Minus(a, b), ma - mb, ma - mb), Products(a, a, ma, ma), Products(b, b, mb, mb),
                     Products(a, b, ma, mb))
  {
    forall i | 0 <= i < |a|
      ensures Products(Minus(a, b), Minus(a, b), ma - mb, ma - mb)[i]
           == Products(a, a, ma, ma)[i] + Products(b, b, mb, mb)[i] - 2.0 * Products(a, b, ma, mb)[i]
    {
      ProductOfMinus(a, b, ma, mb, i);
    }
  }

  lemma CodeviationOfMinus(a: seq<real>, b: seq<real>, ma: real, mb: real)
    requires |a| == |b|
    ensures Codeviation(Minus(a, b), Minus(a, b), ma - mb, ma - mb)
         == Codeviation(a, a, ma, ma) + Codeviation(b, b, mb, mb) - 2.0 * Codeviation(a, b, ma, mb)
  {
    ProductsOfMinus(a, b, ma, mb);
    SumLinear(Products(Minus(a, b), Minus(a, b), ma - mb, ma - mb), Products(a, a, ma, ma), Products(b, b, mb, mb),
              Products(a, b, ma, mb));
  }

  lemma CombineProducts(p: real, x: real, y: real, xy: real, e: real, u: real, v: real)
    requires p == e * e && x == u * u && y == v * v && xy == u * v && e == u - v
    ensures p == x + y - 2.0 * xy
  {
    SquareOfDifference(u, v);
  }

  lemma SquareOfDifference(x: real, y: real)
    ensures (x - y) * (x - y) == x * x + y * y - 2.0 * (x * y)
  {
  }

  /** The variance of a difference, from the covariance matrix. */
  lemma CovOfMinus(a: seq<real>, b: seq<real>)
    requires |a| == |b|
    ensures Cov(Minus(a, b), Minus(a, b)) == Cov(a, a) + Cov(b, b) - 2.0 * Cov(a, b)
  {
    MeanOfMinus(a, b);
    CodeviationOfMinus(a, b, Mean(a), Mean(b));
    CombineQuotients(Codeviation(a, a, Mean(a), Mean(a)), Codeviation(b, b, Mean(b), Mean(b)),
                     Codeviation(a, b, Mean(a), Mean(b)), if |a| > 1 then (|a| - 1) as real else 1.0);
  }

  lemma {:induction false} SumNonNegative(s: seq<real>)
    requires forall i :: 0 <= i < |s| ==> s[i] >= 0.0
    ensures Sum(s) >= 0.0
  {
    if s != [] {
      SumNonNegative(s[..|s| - 1]);
    }
  }

  lemma SquaresNonNegative(a: seq<real>, m: real)
    ensures Codeviation(a, a, m, m) >= 0.0
  {
    var p := Products(a, a, m, m);
    forall i | 0 <= i < |p| ensures p[i] >= 0.0 {
      SquareNonNegative(a[i] - m);
    }
    SumNonNegative(p);
  }

  lemma SquareNonNegative(x: real)
    ensures x * x >= 0.0
  {
  }

  lemma VarianceNonNegative(a: seq<real>)
    ensures Cov(a, a) >= 0.0
  {
    SquaresNonNegative(a, Mean(a));
    NonNegativeQuotient(Codeviation(a, a, Mean(a), Mean(a)), if |a| > 1 then (|a| - 1) as real else 1.0);
  }

  lemma NonNegativeQuotient(a: real, d: real)
    requires a >= 0.0 && d > 0.0
    ensures a / d >= 0.0
  {
  }

  /** DeLong's variance is never negative, so clamping it at zero changes nothing. */
  lemma VarDiffNonNegative(posA: seq<real>, negA: seq<real>, posB: seq<real>, negB: seq<real>)
    requires |posA| == |posB| > 0 && |negA| == |negB| > 0
    ensures VarDiff(posA, negA, posB, negB) >= 0.0
  {
    var d01 := Minus(V01(posA, negA), V01(posB, negB));
    var d10 := Minus(V10(posA, negA), V10(posB, negB));
    VarianceNonNegative(d01);
    VarianceNonNegative(d10);
    NonNegativeQuotient(Cov(d01, d01), |posA| as real);
    NonNegativeQuotient(Cov(d10, d10), |negA| as real);
  }

  lemma CombineQuotients(x: real, y: real, xy: real, m: real)
    requires m > 0.0
    ensures x / m + y / m - 2.0 * (xy / m) == (x + y - 2.0 * xy) / m
  {
    AddFractions(x, y, m);
    AddFractions(x + y, -2.0 * xy, m);
    assert (-2.0 * xy) / m == -2.0 * (xy / m);
  }

  /** The variance the covariance matrices give is the variance of the paired differences. */
  method VarianceOfDifference(v01A: seq<real>, v01B: seq<real>, v10A: seq<real>,
                              v10B: seq<real>)
    returns (varDiff: real)
    requires |v01A| == |v01B| > 0 && |v10A| == |v10B| > 0
    ensures var d01, d10 := Minus(v01A, v01B), Minus(v10A, v10B);
            varDiff == Cov(d01, d01) / |v01A| as real + Cov(d10, d10) / |v10A| as real
  {
    var sx := CovMatrix([v01A, v01B]);
    var sy := CovMatrix([v10A, v10B]);
    var m, n := |v01A| as real, |v10A| as real;
    var s00 := sx[0][0] / m + sy[0][0] / n;
    var s11 := sx[1][1] / m + sy[1][1] / n;
    var s01 := sx[0][1] / m + sy[0][1] / n;
    varDiff := s00 + s11 - 2.0 * s01;
    CovOfMinus(v01A, v01B);
    CovOfMinus(v10A, v10B);
    CombineQuotients(sx[0][0], sx[1][1], sx[0][1], m);
    CombineQuotients(sy[0][0], sy[1][1], sy[0][1], n);
  }

  /** The rank-based computation returns exactly the pairwise DeLong test. */
  method FastDeLong(scoresA: seq<real>, scoresB: seq<real>, labels: seq<bool>,
                    sqrt: real -> real, cdf: real -> real)
    returns (r: Option<DeLongResult>)
    ensures r == PairwiseDeLong(scoresA, scoresB, labels, sqrt, cdf)
  {
    if |scoresA| != |labels| || |scoresB| != |labels| {
      return None;
    }
    var posIdx, negIdx := SplitIndices(labels);
    var m, n := |posIdx|, |negIdx|;
    if m < 2 || n < 2 {
      return None;
    }
    var verdict := CompareClasses(Gather(scoresA, posIdx), Gather(scoresA, negIdx),
                                  Gather(scoresB, posIdx), Gather(scoresB, negIdx), sqrt, cdf);
    r := Some(verdict);
  }

  method CompareClasses(posA: seq<real>, negA: seq<real>, posB: seq<real>, negB: seq<real>,
                        sqrt: real -> real, cdf: real -> real)
    returns (r: DeLongResult)
    requires |posA| == |posB| > 0 && |negA| == |negB| > 0
    ensures r == ClassDeLong(posA, negA, posB, negB, sqrt, cdf)
  {
    var aucA, v01A, v10A := ForecasterPlacements(posA, negA);
    var aucB, v01B, v10B := ForecasterPlacements(posB, negB);
    var varDiff := VarianceOfDifference(v01A, v01B, v10A, v10B);
    VarDiffNonNegative(posA, negA, posB, negB);
    r := TestStatistic(aucA, aucB, varDiff, |posA| + |negA|, sqrt, cdf);
  }

  method TestStatistic(aucA: real, aucB: real, varDiff: real, n: nat, sqrt: real -> real,
                       cdf: real -> real)
    returns (r: DeLongResult)
    requires varDiff >= 0.0
    ensures r == Verdict(aucA, aucB, varDiff, n, sqrt, cdf)
  {
    var se := sqrt(if varDiff > 0.0 then varDiff else 0.0);
    var diff := aucA - aucB;
    var z := if se > 0.0 then diff / se else 0.0;
    var p := if se > 0.0 then 2.0 * (1.0 - cdf(if z < 0.0 then -z else z)) else 1.0;
    r := DeLongResult(aucA, aucB, diff, se, z, p, n);
  }

  method SplitIndices(labels: seq<bool>) returns (posIdx: seq<nat>, negIdx: seq<nat>)
    ensures posIdx == Indices(labels, true) && negIdx == Indices(labels, false)
  {
    posIdx, negIdx := [], [];
    for i := 0 to |labels|
      invariant posIdx == Indices(labels[..i], true) && negIdx == Indices(labels[..i], false)
    {
      assert labels[..i + 1][..i] == labels[..i];
      if labels[i] {
        posIdx := posIdx + [i];
      } else {
        negIdx := negIdx + [i];
      }
    }
    assert labels[..|labels|] == labels;
  }

  // ----- symmetry and blindness to monotone rescaling

  lemma CodeviationNegated(a: seq<real>, b: seq<real>, m: real)
    requires |a| == |b|
    requires forall i :: 0 <= i < |a| ==> b[i] == -a[i]
    ensures Codeviation(b, b, -m, -m) == Codeviation(a, a, m, m)
  {
    var p, q := Products(b, b, -m, -m), Products(a, a, m, m);
    forall i | 0 <= i < |p| ensures p[i] == q[i] {
      assert b[i] - -m == -(a[i] - m);
    }
    assert p == q;
  }

  lemma VarianceOfReversedDifference(a: seq<real>, b: seq<real>)
    requires |a| == |b|
    ensures Cov(Minus(b, a), Minus(b, a)) == Cov(Minus(a, b), Minus(a, b))
  {
    MeanOfMinus(a, b);
    MeanOfMinus(b, a);
    CodeviationNegated(Minus(a, b), Minus(b, a), Mean(a) - Mean(b));
  }

  lemma VarDiffSymmetric(posA: seq<real>, negA: seq<real>, posB: seq<real>, negB: seq<real>)
    requires |posA| == |posB| > 0 && |negA| == |negB| > 0
    ensures VarDiff(posB, negB, posA, negA) == VarDiff(posA, negA, posB, negB)
  {
    VarianceOfReversedDifference(V01(posA, negA), V01(posB, negB));
    VarianceOfReversedDifference(V10(posA, negA), V10(posB, negB));
  }

  /** Swapping the forecasters negates the difference and keeps its standard error and p-value. */
  lemma DeLongAntisymmetric(a: seq<real>, b: seq<real>, labels: seq<bool>, sqrt: real -> real,
                            cdf: real -> real)
    ensures var ab, ba := PairwiseDeLong(a, b, labels, sqrt, cdf), PairwiseDeLong(b, a, labels, sqrt, cdf);
            && (ab.Some? <==> ba.Some?)
            && (ab.Some? ==>
                  && ba.value.diff == -ab.value.diff && ba.value.se == ab.value.se
                  && ba.value.z == -ab.value.z && ba.value.p == ab.value.p
                  && ba.value.aucA == ab.value.aucB && ba.value.aucB == ab.value.aucA)
  {
    if |a| == |labels| && |b| == |labels| {
      var P, N := Indices(labels, true), Indices(labels, false);
      if |P| >= 2 && |N| >= 2 {
        var posA, negA, posB, negB := Gather(a, P), Gather(a, N), Gather(b, P), Gather(b, N);
        VarDiffSymmetric(posA, negA, posB, negB);
        VerdictReversed(PairwiseAuc(posA, negA), PairwiseAuc(posB, negB), VarDiff(posA, negA, posB, negB),
                        |P| + |N|, sqrt, cdf);
      }
    }
  }

  lemma VerdictReversed(aucA: real, aucB: real, v: real, n: nat, sqrt: real -> real,
                        cdf: real -> real)
    ensures var ab, ba := Verdict(aucA, aucB, v, n, sqrt, cdf), Verdict(aucB, aucA, v, n, sqrt, cdf);
            ba.diff == -ab.diff && ba.se == ab.se && ba.z == -ab.z && ba.p == ab.p
  {
    var se := sqrt(v);
    if se > 0.0 {
      assert (aucB - aucA) / se == -((aucA - aucB) / se);
    }
  }

  /** Both forecasters order every pair of observations alike. */
  ghost predicate OrderEquivalent(a: seq<real>, b: seq<real>) {
    && |a| == |b|
    && (forall i, j :: 0 <= i < |a| && 0 <= j < |a| ==> (a[i] < a[j] <==> b[i] < b[j]))
  }

  lemma {:induction false} SamePlacement(x: real, ys: seq<real>, u: real, vs: seq<real>)
    requires |ys| == |vs|
    requires forall j :: 0 <= j < |ys| ==> Psi(x, ys[j]) == Psi(u, vs[j])
    ensures Placement(x, ys) == Placement(u, vs)
  {
    if ys != [] {
      SamePlacement(x, ys[..|ys| - 1], u, vs[..|vs| - 1]);
    }
  }

  lemma {:induction false} SamePairSum(xs: seq<real>, ys: seq<real>, us: seq<real>,
                                       vs: seq<real>)
    requires |xs| == |us| && |ys| == |vs|
    requires forall i, j :: 0 <= i < |xs| && 0 <= j < |ys| ==> Psi(xs[i], ys[j]) == Psi(us[i], vs[j])
    ensures PairSum(xs, ys) == PairSum(us, vs)
  {
    if xs != [] {
      var m := |xs| - 1;
      SamePairSum(xs[..m], ys, us[..m], vs);
      SamePlacement(xs[m], ys, us[m], vs);
    }
  }

  lemma {:induction false} SumOfZeros(s: seq<real>)
    requires forall i :: 0 <= i < |s| ==> s[i] == 0.0
    ensures Sum(s) == 0.0
  {
    if s != [] {
      SumOfZeros(s[..|s| - 1]);
    }
  }

  lemma NoVariance(a: seq<real>, b: seq<real>)
    requires a == b
    ensures Cov(Minus(a, b), Minus(a, b)) == 0.0
  {
    var d := Minus(a, b);
    SumOfZeros(d);
    SumOfZeros(Products(d, d, 0.0, 0.0));
  }

  /** Forecasters that rank alike show no difference: zero gap, zero error, p-value one. */
  lemma OrderEquivalentForecasters(a: seq<real>, b: seq<real>, labels: seq<bool>,
                                   sqrt: real -> real, cdf: real -> real)
    requires OrderEquivalent(a, b)
    requires sqrt(0.0) == 0.0
    ensures var r := PairwiseDeLong(a, b, labels, sqrt, cdf);
            r.Some? ==> r.value.diff == 0.0 && r.value.se == 0.0 && r.value.z == 0.0 && r.value.p == 1.0
  {
    if |a| == |labels| {
      var P, N := Indices(labels, true), Indices(labels, false);
      if |P| >= 2 && |N| >= 2 {
        var posA, negA, posB, negB := Gather(a, P), Gather(a, N), Gather(b, P), Gather(b, N);
        forall i, j | 0 <= i < |P| && 0 <= j < |N|
          ensures Psi(posA[i], negA[j]) == Psi(posB[i], negB[j])
        {
          assert a[P[i]] < a[N[j]] <==> b[P[i]] < b[N[j]];
          assert a[N[j]] < a[P[i]] <==> b[N[j]] < b[P[i]];
        }
        SamePairSum(posA, negA, posB, negB);
        forall i | 0 <= i < |P| ensures V01(posA, negA)[i] == V01(posB, negB)[i] {
          SamePlacement(posA[i], negA, posB[i], negB);
        }
        forall j | 0 <= j < |N| ensures V10(posA, negA)[j] == V10(posB, negB)[j] {
          SamePairSum(posA, [negA[j]], posB, [negB[j]]);
        }
        NoVariance(V01(posA, negA), V01(posB, negB));
        NoVariance(V10(posA, negA), V10(posB, negB));
        assert VarDiff(posA, negA, posB, negB) == 0.0;
      }
    }
  }
}
