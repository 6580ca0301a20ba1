/**
 * Discrimination statistics of one benchmark cell: midranks and the rank-sum AUROC,
 * measured against the pairwise definition of the area under the ROC curve.
 */
module Ranking {
  import opened Common
  import opened Sorting

  // ----- the pairwise definition

  /** The value of one (positive, negative) comparison: won, tied or lost. */
  function Psi(x: real, y: real): real {
    if x > y then 1.0 else if x == y then 0.5 else 0.0
  }

  /** How many of `ys` lie below `x`, a tie counting one half. */
  function Placement(x: real, ys: seq<real>): real {
    if ys == [] then 0.0 else Placement(x, ys[..|ys| - 1]) + Psi(x, ys[|ys| - 1])
  }

  /** The value of all comparisons of an `xs` element with a `ys` element. */
  function PairSum(xs: seq<real>, ys: seq<real>): real {
    if xs == [] then 0.0 else PairSum(xs[..|xs| - 1], ys) + Placement(xs[|xs| - 1], ys)
  }

  /** The scores whose label is `which`, in order. */
  function Select(scores: seq<real>, labels: seq<bool>, which: bool): (r: seq<real>)
    requires |scores| == |labels|
  {
    if scores == [] then []
    else
      var n := |scores| - 1;
      Select(scores[..n], labels[..n], which) + (if labels[n] == which then [scores[n]] else [])
  }

  /** The scores of the positions that have label `which`, each once and in order. */
  ghost predicate Selects(at: seq<nat>, scores: seq<real>, labels: seq<bool>, which: bool) {
    && |scores| == |labels|
    && (forall i, j :: 0 <= i < j < |at| ==> at[i] < at[j])
    && (forall k: nat :: k in at <==> k < |labels| && labels[k] == which)
  }

  lemma {:induction false} SelectIs(scores: seq<real>, labels: seq<bool>, which: bool) returns (at: seq<nat>)
    requires |scores| == |labels|
    ensures Selects(at, scores, labels, which)
    ensures |Select(scores, labels, which)| == |at|
    ensures forall i :: 0 <= i < |at| ==> at[i] < |scores| && Select(scores, labels, which)[i] == scores[at[i]]
  {
    at := [];
    if scores != [] {
      var n := |scores| - 1;
      var before := SelectIs(scores[..n], labels[..n], which);
      assert forall i :: 0 <= i < |before| ==> before[i] in before;
      at := before + (if labels[n] == which then [n] else []);
      assert forall k: nat :: k in at <==> k in before || (k == n && labels[n] == which);
    }
  }

  ghost predicate TwoClasses(labels: seq<bool>) {
    true in labels && false in labels
  }

  /** The pairwise AUROC: the average comparison over all positive-negative pairs. */
  function PairwiseAuc(pos: seq<real>, neg: seq<real>): real
    requires pos != [] && neg != []
  {
    PairSum(pos, neg) / (|pos| * |neg|) as real
  }

  // ----- the midrank of a value, by counting

  function CountBelow(s: seq<real>, v: real): nat {
    if s == [] then 0 else CountBelow(s[..|s| - 1], v) + (if s[|s| - 1] < v then 1 else 0)
  }

  function CountEqual(s: seq<real>, v: real): nat {
    if s == [] then 0 else CountEqual(s[..|s| - 1], v) + (if s[|s| - 1] == v then 1 else 0)
  }

  /** The average 1-based rank of `v` in `s`: those below, plus the middle of its tie group. */
  function Midrank(s: seq<real>, v: real): real {
    CountBelow(s, v) as real + (CountEqual(s, v) as real + 1.0) / 2.0
  }

  lemma {:induction false} MidrankIsPlacement(s: seq<real>, v: real)
    ensures Midrank(s, v) == Placement(v, s) + 0.5
  {
    if s != [] {
      MidrankIsPlacement(s[..|s| - 1], v);
    }
  }

  /** The lists before and after dropping an element end alike. */
  lemma DropLast(s: seq<real>, k: nat)
    requires k < |s| - 1
    ensures var n, t := |s| - 1, s[..k] + s[k + 1..];
            && |t| == n && t[n - 1] == s[n] && s[..n][k] == s[k]
            && t[..n - 1] == s[..n][..k] + s[..n][k + 1..]
  {
  }

  /** Dropping any one element changes both counts by that element alone. */
  lemma {:induction false} CountWithout(s: seq<real>, v: real, k: nat)
    requires k < |s|
    ensures var t := s[..k] + s[k + 1..];
            && CountBelow(s, v) == CountBelow(t, v) + (if s[k] < v then 1 else 0)
            && CountEqual(s, v) == CountEqual(t, v) + (if s[k] == v then 1 else 0)
  {
    var n, t := |s| - 1, s[..k] + s[k + 1..];
    if k == n {
      assert t == s[..n];
    } else {
      DropLast(s, k);
      CountWithout(s[..n], v, k);
      assert t != [];
    }
  }

  lemma {:induction false} CountPermutation(a: seq<real>, b: seq<real>, v: real)
    requires multiset(a) == multiset(b)
    ensures CountBelow(a, v) == CountBelow(b, v) && CountEqual(a, v) == CountEqual(b, v)
  {
    if a == [] {
      assert |b| == |multiset(b)| == 0;
    } else {
      var n := |a| - 1;
      assert a == a[..n] + [a[n]];
      var k := FindIn(b, a[n]);
      var c := b[..k] + b[k + 1..];
      MultisetWithout(b, k);
      CountWithout(b, v, k);
      CountPermutation(a[..n], c, v);
    }
  }

  /** In a sorted list a tie group at positions `i..j` has `i` values below it and `j - i + 1` in it. */
  lemma {:induction false} CountTieGroup(s: seq<real>, v: real, i: nat, j: int)
    requires i <= j + 1 <= |s|
    requires forall k :: 0 <= k < i ==> s[k] < v
    requires forall k :: i <= k <= j ==> s[k] == v
    requires forall k :: j < k < |s| ==> s[k] > v
    ensures CountBelow(s, v) == i && CountEqual(s, v) == j + 1 - i
  {
    if s != [] {
      var n := |s| - 1;
      if j < n {
        CountTieGroup(s[..n], v, i, j);
      } else if i <= j {
        CountTieGroup(s[..n], v, i, j - 1);
      } else {
        CountTieGroup(s[..n], v, i - 1, j - 1);
      }
    }
  }

  // ----- the midrank loop

  /** `values` paired with their positions, as the sort sees them. */
  function Indexed(values: seq<real>): (r: seq<(real, nat)>) {
    seq(|values|, i requires 0 <= i < |values| => (values[i], i))
  }

  function Firsts(order: seq<(real, nat)>): (r: seq<real>) {
    seq(|order|, i requires 0 <= i < |order| => order[i].0)
  }

  predicate ByValue(a: (real, nat), b: (real, nat)) {
    a.0 <= b.0
  }

  lemma {:induction false} FirstsPermutation(a: seq<(real, nat)>, b: seq<(real, nat)>)
    requires multiset(a) == multiset(b)
    ensures multiset(Firsts(a)) == multiset(Firsts(b))
  {
    if a == [] {
      assert |b| == |multiset(b)| == 0;
    } else {
      var n := |a| - 1;
      assert a == a[..n] + [a[n]];
      var k := FindIn(b, a[n]);
      var c := b[..k] + b[k + 1..];
      MultisetWithout(b, k);
      FirstsPermutation(a[..n], c);
      assert Firsts(a) == Firsts(a[..n]) + [a[n].0];
      assert Firsts(c) == Firsts(b[..k]) + Firsts(b[k + 1..]);
      assert Firsts(b) == Firsts(b[..k]) + [b[k].0] + Firsts(b[k + 1..]);
    }
  }

  /** `order` lists every position of `values` exactly once, by non-decreasing value. */
  ghost predicate IsOrder(order: seq<(real, nat)>, values: seq<real>) {
    && |order| == |values|
    && multiset(Firsts(order)) == multiset(values)
    && SortedBy(ByValue, order)
    && (forall k :: 0 <= k < |order| ==> order[k].1 < |values| && order[k].0 == values[order[k].1])
    && (forall k, l :: 0 <= k < l < |order| ==> order[k].1 != order[l].1)
    && (forall i :: 0 <= i < |values| ==> (values[i], i) in order)
  }

  lemma {:induction false} IndexedOnce(values: seq<real>)
    ensures forall p :: multiset(Indexed(values))[p] <= 1
  {
    if values != [] {
      var n := |values| - 1;
      IndexedOnce(values[..n]);
      var last := (values[n], n as nat);
      assert Indexed(values) == Indexed(values[..n]) + [last];
      assert last !in Indexed(values[..n]);
    }
  }

  /** No entry repeats in a permutation of the indexed list, so no position does. */
  lemma PositionsOnce(values: seq<real>, order: seq<(real, nat)>)
    requires multiset(order) == multiset(Indexed(values))
    requires forall k :: 0 <= k < |order| ==> order[k].1 < |values| && order[k].0 == values[order[k].1]
    ensures forall k, l :: 0 <= k < l < |order| ==> order[k].1 != order[l].1
  {
    IndexedOnce(values);
    forall k, l | 0 <= k < l < |order|
      ensures order[k].1 != order[l].1
    {
      if order[k] == order[l] {
        RepeatedElement(order, k, l);
        assert false;
      }
    }
  }

  lemma EveryPosition(values: seq<real>, order: seq<(real, nat)>)
    requires forall p :: p in order <==> p in Indexed(values)
    ensures forall k :: 0 <= k < |order| ==> order[k].1 < |values| && order[k].0 == values[order[k].1]
    ensures forall i :: 0 <= i < |values| ==> (values[i], i as nat) in order
  {
    forall i | 0 <= i < |values|
      ensures (values[i], i as nat) in order
    {
      assert Indexed(values)[i] in Indexed(values);
    }
    forall k | 0 <= k < |order|
      ensures order[k].1 < |values| && order[k].0 == values[order[k].1]
    {
      assert order[k] in Indexed(values);
    }
  }

  lemma OrderIsOrder(values: seq<real>)
    ensures IsOrder(SortBy(ByValue, Indexed(values)), values)
  {
    var idx := Indexed(values);
    var order := SortBy(ByValue, idx);
    SortBySorted(ByValue, idx);
    SortByMembers(ByValue, idx);
    FirstsPermutation(order, idx);
    assert Firsts(idx) == values;
    EveryPosition(values, order);
    PositionsOnce(values, order);
  }

  ghost function RanksInOrder(values: seq<real>, order: seq<(real, nat)>): (r: seq<real>)
    ensures |r| == |order|
  {
    seq(|order|, k requires 0 <= k < |order| => Midrank(values, order[k].0))
  }

  /** The last position holding the same value as position `i`, scanning right. */
  method TieGroupEnd(order: seq<(real, nat)>, i: nat) returns (j: nat)
    requires i < |order|
    ensures i <= j < |order|
    ensures forall k :: i <= k <= j ==> order[k].0 == order[i].0
    ensures j < |order| - 1 ==> order[j + 1].0 != order[i].0
  {
    j := i;
    while j < |order| - 1 && order[j + 1].0 == order[i].0
      invariant i <= j < |order|
      invariant forall k :: i <= k <= j ==> order[k].0 == order[i].0
    {
      j := j + 1;
    }
  }

  /** Write one rank to the positions `order[i..j]` point at, and to no other. */
  method FillGroup(values: seq<real>, order: seq<(real, nat)>, out: array<real>, i: nat, j: nat,
                   avg: real)
    requires IsOrder(order, values) && out.Length == |values|
    requires i <= j < |order|
    modifies out
    ensures forall k :: i <= k <= j ==> out[order[k].1] == avg
    ensures forall k :: 0 <= k < i ==> out[order[k].1] == old(out[order[k].1])
  {
    for k := i to j + 1
      invariant forall l :: i <= l < k ==> out[order[l].1] == avg
      invariant forall l :: 0 <= l < i ==> out[order[l].1] == old(out[order[l].1])
    {
      out[order[k].1] := avg;
    }
  }

  /** The average 1-based rank of every value, tie groups sharing theirs. */
  method Midranks(values: seq<real>) returns (ranks: seq<real>)
    ensures |ranks| == |values|
    ensures forall i :: 0 <= i < |values| ==> ranks[i] == Midrank(values, values[i])
  {
    var order := SortBy(ByValue, Indexed(values));
    OrderIsOrder(values);
    ranks := RanksFromOrder(values, order);
  }

  /** One sweep over the sorted order, a tie group at a time. */
  method RanksFromOrder(values: seq<real>, order: seq<(real, nat)>) returns (ranks: seq<real>)
    requires IsOrder(order, values)
    ensures |ranks| == |values|
    ensures forall i :: 0 <= i < |values| ==> ranks[i] == Midrank(values, values[i])
  {
    var n := |order|;
    ghost var target := RanksInOrder(values, order);
    var out := new real[n];
    var i := 0;
    while i < n
      invariant 0 <= i <= n
      invariant 0 < i < n ==> order[i - 1].0 < order[i].0
      invariant forall k :: 0 <= k < i ==> out[order[k].1] == target[k]
    {
      var j := TieGroupEnd(order, i);
      var avg := (i + j) as real / 2.0 + 1.0;
      TieGroupRank(values, order, i, j);
      FillGroup(values, order, out, i, j, avg);
      i := j + 1;
    }
    ranks := out[..];
    OrderCovers(values, order, ranks);
  }

  /** Ranks right along the order are right at every position. */
  lemma OrderCovers(values: seq<real>, order: seq<(real, nat)>, ranks: seq<real>)
    requires IsOrder(order, values) && |ranks| == |values|
    requires forall k :: 0 <= k < |order| ==> ranks[order[k].1] == RanksInOrder(values, order)[k]
    ensures forall i :: 0 <= i < |values| ==> ranks[i] == Midrank(values, values[i])
  {
    forall i | 0 <= i < |values|
      ensures ranks[i] == Midrank(values, values[i])
    {
      var k: nat :| k < |order| && order[k] == (values[i], i as nat);
      assert ranks[order[k].1] == RanksInOrder(values, order)[k];
    }
  }

  /** The average of the first and last position of a tie group is the midrank of its value. */
  lemma TieGroupRank(values: seq<real>, order: seq<(real, nat)>, i: nat, j: nat)
    requires IsOrder(order, values)
    requires i <= j < |order|
    requires i > 0 ==> order[i - 1].0 < order[i].0
    requires forall k :: i <= k <= j ==> order[k].0 == order[i].0
    requires j < |order| - 1 ==> order[j + 1].0 != order[i].0
    ensures forall k :: i <= k <= j ==> RanksInOrder(values, order)[k] == (i + j) as real / 2.0 + 1.0
  {
    var vs, v := Firsts(order), order[i].0;
    forall k | 0 <= k < i ensures vs[k] < v {
      assert k == i - 1 || ByValue(order[k], order[i - 1]);
    }
    forall k | j < k < |vs| ensures vs[k] > v {
      assert ByValue(order[j], order[j + 1]);
      assert k == j + 1 || ByValue(order[j + 1], order[k]);
    }
    CountTieGroup(vs, v, i, j);
    CountPermutation(vs, values, v);
  }

  // ----- algebra of the pairwise sums

  lemma PlacementSnoc(x: real, ys: seq<real>, y: real)
    ensures Placement(x, ys + [y]) == Placement(x, ys) + Psi(x, y)
  {
    assert (ys + [y])[..|ys|] == ys;
  }

  lemma {:induction false} PlacementSplit(x: real, scores: seq<real>, labels: seq<bool>)
    requires |scores| == |labels|
    ensures Placement(x, scores)
         == Placement(x, Select(scores, labels, true)) + Placement(x, Select(scores, labels, false))
  {
    if scores != [] {
      var n, b := |scores| - 1, labels[|scores| - 1];
      PlacementSplit(x, scores[..n], labels[..n]);
      PlacementSnoc(x, Select(scores[..n], labels[..n], b), scores[n]);
      assert Select(scores, labels, !b) == Select(scores[..n], labels[..n], !b);
    }
  }

  lemma {:induction false} PairSumSplit(xs: seq<real>, scores: seq<real>, labels: seq<bool>)
    requires |scores| == |labels|
    ensures PairSum(xs, scores)
         == PairSum(xs, Select(scores, labels, true)) + PairSum(xs, Select(scores, labels, false))
  {
    if xs != [] {
      PairSumSplit(xs[..|xs| - 1], scores, labels);
      PlacementSplit(xs[|xs| - 1], scores, labels);
    }
  }

  lemma {:induction false} PairSumSnoc(xs: seq<real>, ys: seq<real>, y: real)
    ensures PairSum(xs, ys + [y]) == PairSum(xs, ys) + PairSum(xs, [y])
  {
    if xs != [] {
      PairSumSnoc(xs[..|xs| - 1], ys, y);
      var x := xs[|xs| - 1];
      assert (ys + [y])[..|ys|] == ys;
      assert [y][..0] == [];
      assert Placement(x, [y]) == Placement(x, []) + Psi(x, y);
      assert Placement(x, ys + [y]) == Placement(x, ys) + Psi(x, y);
    }
  }

  /** Every comparison and its mirror image share one point. */
  lemma {:induction false} MirrorColumn(xs: seq<real>, y: real)
    ensures PairSum(xs, [y]) + Placement(y, xs) == |xs| as real
  {
    if xs != [] {
      MirrorColumn(xs[..|xs| - 1], y);
      var x := xs[|xs| - 1];
      assert [y][..0] == [];
      assert Placement(x, [y]) == Placement(x, []) + Psi(x, y);
    }
  }

  /** The number of pairs in an `m` by `n` grid, built up column by column. */
  function Grid(m: nat, n: nat): real {
    if n == 0 then 0.0 else Grid(m, n - 1) + m as real
  }

  lemma {:induction false} GridIsProduct(m: nat, n: nat)
    ensures Grid(m, n) == m as real * n as real == (m * n) as real
  {
    if n > 0 {
      GridIsProduct(m, n - 1);
      assert m * n == m * (n - 1) + m;
      assert m as real * n as real == m as real * (n - 1) as real + m as real;
    }
  }

  lemma {:induction false} PairSumMirror(xs: seq<real>, ys: seq<real>)
    ensures PairSum(xs, ys) + PairSum(ys, xs) == Grid(|xs|, |ys|)
  {
    if ys == [] {
      PairSumEmpty(xs);
    } else {
      var n := |ys| - 1;
      PairSumMirror(xs, ys[..n]);
      PairSumSnoc(xs, ys[..n], ys[n]);
      assert ys == ys[..n] + [ys[n]];
      MirrorColumn(xs, ys[n]);
    }
  }

  lemma {:induction false} PairSumEmpty(xs: seq<real>)
    ensures PairSum(xs, []) == 0.0
  {
    if xs != [] {
      PairSumEmpty(xs[..|xs| - 1]);
    }
  }

  lemma {:induction false} SelectClasses(scores: seq<real>, labels: seq<bool>)
    requires |scores| == |labels|
    ensures |Select(scores, labels, true)| + |Select(scores, labels, false)| == |scores|
    ensures forall b :: Select(scores, labels, b) != [] <==> b in labels
  {
    if scores != [] {
      var n := |scores| - 1;
      SelectClasses(scores[..n], labels[..n]);
      assert labels == labels[..n] + [labels[n]];
    }
  }

  // ----- AUROC

  method Split(scores: seq<real>, labels: seq<bool>) returns (pos: seq<real>, neg: seq<real>)
    requires |scores| == |labels|
    ensures pos == Select(scores, labels, true) && neg == Select(scores, labels, false)
  {
    pos, neg := [], [];
    for i := 0 to |scores|
      invariant pos == Select(scores[..i], labels[..i], true)
      invariant neg == Select(scores[..i], labels[..i], false)
    {
      assert scores[..i + 1][..i] == scores[..i] && labels[..i + 1][..i] == labels[..i];
      if labels[i] {
        pos := pos + [scores[i]];
      } else {
        neg := neg + [scores[i]];
      }
    }
    assert scores[..|scores|] == scores && labels[..|labels|] == labels;
  }

  /** Taking the positives' own ranks off their rank sum leaves the pairwise comparisons. */
  lemma RankSumIdentity(scores: seq<real>, labels: seq<bool>, pos: seq<real>, neg: seq<real>,
                        rankSum: real)
    requires |scores| == |labels|
    requires pos == Select(scores, labels, true) && neg == Select(scores, labels, false)
    requires rankSum == PairSum(pos, scores) + 0.5 * |pos| as real
    ensures rankSum - (|pos| * (|pos| + 1)) as real / 2.0 == PairSum(pos, neg)
  {
    PairSumSplit(pos, scores, labels);
    PairSumMirror(pos, pos);
    RankSumArithmetic(|pos|, PairSum(pos, pos), PairSum(pos, neg), rankSum);
  }

  lemma RankSumArithmetic(m: nat, own: real, cross: real, rankSum: real)
    requires own + own == Grid(m, m)
    requires rankSum == own + cross + 0.5 * m as real
    ensures rankSum - (m * (m + 1)) as real / 2.0 == cross
  {
    GridIsProduct(m, m);
    assert m * (m + 1) == m * m + m;
  }

  method PositiveRankSum(scores: seq<real>, labels: seq<bool>,
                         ranks: seq<real>) returns (rankSumPos: real)
    requires |scores| == |labels| == |ranks|
    requires forall i :: 0 <= i < |ranks| ==> ranks[i] == Midrank(scores, scores[i])
    ensures var pos := Select(scores, labels, true);
            rankSumPos == PairSum(pos, scores) + 0.5 * |pos| as real
  {
    rankSumPos := 0.0;
    for i := 0 to |labels|
      invariant rankSumPos == PairSum(Select(scores[..i], labels[..i], true), scores)
                              + 0.5 * |Select(scores[..i], labels[..i], true)| as real
    {
      assert scores[..i + 1][..i] == scores[..i] && labels[..i + 1][..i] == labels[..i];
      ghost var before := Select(scores[..i], labels[..i], true);
      if labels[i] {
        MidrankIsPlacement(scores, scores[i]);
        rankSumPos := rankSumPos + ranks[i];
        assert Select(scores[..i + 1], labels[..i + 1], true) == before + [scores[i]];
        assert (before + [scores[i]])[..|before|] == before;
      } else {
        assert Select(scores[..i + 1], labels[..i + 1], true) == before;
      }
    }
    assert scores[..|scores|] == scores && labels[..|labels|] == labels;
  }

  /** The rank-sum AUROC is the average over all positive-negative pairs, ties counting one half. */
  method Auroc(scores: seq<real>, labels: seq<bool>) returns (r: Option<real>)
    ensures r.Some? <==> |scores| == |labels| && TwoClasses(labels)
    ensures r.Some? ==>
      var pos, neg := Select(scores, labels, true), Select(scores, labels, false);
      pos != [] && neg != [] && r.value == PairwiseAuc(pos, neg)
  {
    if |scores| != |labels| || |scores| == 0 {
      return None;
    }
    var pos, neg := Split(scores, labels);
    SelectClasses(scores, labels);
    if |pos| == 0 || |neg| == 0 {
      return None;
    }
    var ranks := Midranks(scores);
    var rankSumPos := PositiveRankSum(scores, labels, ranks);
    RankSumIdentity(scores, labels, pos, neg, rankSumPos);
    var above := rankSumPos - (|pos| * (|pos| + 1)) as real / 2.0;
    assert above == PairSum(pos, neg);
    r := Some(above / (|pos| * |neg|) as real);
  }

  // ----- what the statistic means

  lemma {:induction false} PlacementOfConstant(c: real, ys: seq<real>)
    requires forall i :: 0 <= i < |ys| ==> ys[i] == c
    ensures Placement(c, ys) == 0.5 * |ys| as real
  {
    if ys != [] {
      PlacementOfConstant(c, ys[..|ys| - 1]);
    }
  }

  lemma {:induction false} PairSumOfConstant(c: real, xs: seq<real>, ys: seq<real>)
    requires forall i :: 0 <= i < |xs| ==> xs[i] == c
    requires forall i :: 0 <= i < |ys| ==> ys[i] == c
    ensures PairSum(xs, ys) == 0.5 * Grid(|ys|, |xs|)
  {
    if xs != [] {
      PairSumOfConstant(c, xs[..|xs| - 1], ys);
      PlacementOfConstant(c, ys);
    }
  }

  /** A constant predictor scores exactly one half. */
  lemma ConstantPredictor(c: real, pos: seq<real>, neg: seq<real>)
    requires pos != [] && neg != []
    requires forall i :: 0 <= i < |pos| ==> pos[i] == c
    requires forall i :: 0 <= i < |neg| ==> neg[i] == c
    ensures PairwiseAuc(pos, neg) == 0.5
  {
    PairSumOfConstant(c, pos, neg);
    GridIsProduct(|neg|, |pos|);
    HalfOf((|pos| * |neg|) as real);
  }

  lemma HalfOf(d: real)
    requires d > 0.0
    ensures (0.5 * d) / d == 0.5
  {
  }

  lemma {:induction false} PairSumNonNegative(xs: seq<real>, ys: seq<real>)
    ensures PairSum(xs, ys) >= 0.0
  {
    if xs != [] {
      PairSumNonNegative(xs[..|xs| - 1], ys);
      PlacementNonNegative(xs[|xs| - 1], ys);
    }
  }

  lemma {:induction false} PlacementNonNegative(x: real, ys: seq<real>)
    ensures Placement(x, ys) >= 0.0
  {
    if ys != [] {
      PlacementNonNegative(x, ys[..|ys| - 1]);
    }
  }

  /** Exchanging the classes reflects the AUROC about one half, so it stays within [0, 1]. */
  lemma AucComplement(pos: seq<real>, neg: seq<real>)
    requires pos != [] && neg != []
    ensures PairwiseAuc(pos, neg) + PairwiseAuc(neg, pos) == 1.0
    ensures 0.0 <= PairwiseAuc(pos, neg) <= 1.0
  {
    PairSumMirror(pos, neg);
    PairSumNonNegative(pos, neg);
    PairSumNonNegative(neg, pos);
    GridIsProduct(|pos|, |neg|);
    GridIsProduct(|neg|, |pos|);
    SharesOfOne(PairSum(pos, neg), PairSum(neg, pos), (|pos| * |neg|) as real);
  }

  lemma SharesOfOne(a: real, b: real, d: real)
    requires a >= 0.0 && b >= 0.0 && d > 0.0 && a + b == d
    ensures a / d + b / d == 1.0 && 0.0 <= a / d <= 1.0
  {
    assert a / d + b / d == (a + b) / d;
  }

  // ----- what the value says: one for perfect separation, zero for the reverse

  ghost predicate AllAbove(xs: seq<real>, ys: seq<real>) {
    forall i, j :: 0 <= i < |xs| && 0 <= j < |ys| ==> xs[i] > ys[j]
  }

  lemma {:induction false} PlacementAtMost(x: real, ys: seq<real>)
    ensures Placement(x, ys) <= |ys| as real
    ensures Placement(x, ys) == |ys| as real <==> forall j :: 0 <= j < |ys| ==> x > ys[j]
  {
    if ys != [] {
      PlacementAtMost(x, ys[..|ys| - 1]);
    }
  }

  lemma {:induction false} PairSumAtMost(xs: seq<real>, ys: seq<real>)
    ensures PairSum(xs, ys) <= Grid(|ys|, |xs|)
    ensures PairSum(xs, ys) == Grid(|ys|, |xs|) <==> AllAbove(xs, ys)
  {
    if xs != [] {
      var n := |xs| - 1;
      PairSumAtMost(xs[..n], ys);
      PlacementAtMost(xs[n], ys);
      assert AllAbove(xs, ys) <==> AllAbove(xs[..n], ys) && forall j :: 0 <= j < |ys| ==> xs[n] > ys[j];
    }
  }

  lemma ShareIsOne(part: real, whole: real)
    requires whole > 0.0
    ensures part / whole == 1.0 <==> part == whole
  {
    assert (part / whole) * whole == part;
  }

  /** The value is one exactly when every positive scores above every negative, and zero exactly when every one scores below. */
  lemma PerfectIff(pos: seq<real>, neg: seq<real>)
    requires pos != [] && neg != []
    ensures PairwiseAuc(pos, neg) == 1.0 <==> AllAbove(pos, neg)
    ensures PairwiseAuc(pos, neg) == 0.0 <==> AllAbove(neg, pos)
  {
    OneIff(pos, neg);
    OneIff(neg, pos);
    AucComplement(pos, neg);
  }

  lemma OneIff(pos: seq<real>, neg: seq<real>)
    requires pos != [] && neg != []
    ensures PairwiseAuc(pos, neg) == 1.0 <==> AllAbove(pos, neg)
  {
    PairSumAtMost(pos, neg);
    GridIsProduct(|neg|, |pos|);
    ShareIsOne(PairSum(pos, neg), (|pos| * |neg|) as real);
  }
}
