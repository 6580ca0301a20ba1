/**
 * The published comparison of one forecaster with its baselines: alignment by observation, the
 * DeLong test on the paired sample, and the gate that decides whether a gain may be claimed.
 */
module ClaimGate {
  import opened Common
  import opened Sorting
  import opened Ranking
  import opened DeLong

  const MIN_FOR_METRICS := 100
  const MIN_FOR_CLAIMS := 200
  const MIN_POSITIVES_FOR_CLAIMS := 30

  datatype ScoreRow = ScoreRow(obsId: string, prob: real, outcome: bool)

  /** One paired observation: both forecasters' probabilities and the first one's label. */
  datatype Paired = Paired(obsId: string, pa: real, pb: real, y: bool)

  datatype Note = Overlap | SmallSample | FewPositives | OwnAucNotAboveChance | Gain | NoGain | NotSignificant

  datatype Comparison = Comparison(vs: string, n: nat, positives: nat, claimAllowed: bool, note: Note)

  /** Rows keyed by observation, a later row replacing an earlier one. */
  function ByObs(rows: seq<ScoreRow>): (m: map<string, ScoreRow>) {
    if rows == [] then map[]
    else ByObs(rows[..|rows| - 1])[rows[|rows| - 1].obsId := rows[|rows| - 1]]
  }

  /** The rows of `a` that have a counterpart in `b`, in `a`'s order. */
  function Align(a: seq<ScoreRow>, b: map<string, ScoreRow>): (r: seq<Paired>) {
    if a == [] then []
    else
      var x := a[|a| - 1];
      Align(a[..|a| - 1], b) + (if x.obsId in b then [Paired(x.obsId, x.prob, b[x.obsId].prob, x.outcome)] else [])
  }

  function First(t: seq<Paired>): (r: seq<real>) {
    seq(|t|, i requires 0 <= i < |t| => t[i].pa)
  }

  function Second(t: seq<Paired>): (r: seq<real>) {
    seq(|t|, i requires 0 <= i < |t| => t[i].pb)
  }

  function Truth(t: seq<Paired>): (r: seq<bool>) {
    seq(|t|, i requires 0 <= i < |t| => t[i].y)
  }

  function CountTrue(y: seq<bool>): nat {
    if y == [] then 0 else CountTrue(y[..|y| - 1]) + (if y[|y| - 1] then 1 else 0)
  }

  function Probs(rows: seq<ScoreRow>): (r: seq<real>) {
    seq(|rows|, i requires 0 <= i < |rows| => rows[i].prob)
  }

  function Labels(rows: seq<ScoreRow>): (r: seq<bool>) {
    seq(|rows|, i requires 0 <= i < |rows| => rows[i].outcome)
  }

  method AlignByObs(a: seq<ScoreRow>,
                    b: seq<ScoreRow>) returns (pa: seq<real>, pb: seq<real>, y: seq<bool>)
    ensures var t := Align(a, ByObs(b)); pa == First(t) && pb == Second(t) && y == Truth(t)
  {
    var bm: map<string, ScoreRow> := map[];
    for i := 0 to |b|
      invariant bm == ByObs(b[..i])
    {
      assert b[..i + 1][..i] == b[..i];
      bm := bm[b[i].obsId := b[i]];
    }
    assert b[..|b|] == b;
    pa, pb, y := [], [], [];
    for i := 0 to |a|
      invariant var t := Align(a[..i], bm); pa == First(t) && pb == Second(t) && y == Truth(t)
    {
      assert a[..i + 1][..i] == a[..i];
      if a[i].obsId in bm {
        pa := pa + [a[i].prob];
        pb := pb + [bm[a[i].obsId].prob];
        y := y + [a[i].outcome];
      }
    }
    assert a[..|a|] == a;
  }

  /** Own AUROC over a class-separated sample beats chance. */
  ghost predicate AboveChance(rows: seq<ScoreRow>) {
    var pos, neg := Select(Probs(rows), Labels(rows), true), Select(Probs(rows), Labels(rows), false);
    pos != [] && neg != [] && PairwiseAuc(pos, neg) > 0.5
  }

  /** Pairwise AUROC of the first (second) forecaster on the paired sample exceeds the other's. */
  ghost predicate RanksBetter(t: seq<Paired>) {
    var y := Truth(t);
    var posA, negA := Select(First(t), y, true), Select(First(t), y, false);
    var posB, negB := Select(Second(t), y, true), Select(Second(t), y, false);
    posA != [] && negA != [] && posB != [] && negB != [] && PairwiseAuc(posA, negA) > PairwiseAuc(posB, negB)
  }

  /** The evidence a published claim stands for. */
  ghost predicate ClaimJustified(rows: seq<ScoreRow>, base: seq<ScoreRow>, sqrt: real -> real,
                                 cdf: real -> real) {
    var t := Align(rows, ByObs(base));
    && |t| >= 200 && multiset(Truth(t))[true] >= 30
    && AboveChance(rows)
    && RanksBetter(t)
    && var dl := PairwiseDeLong(First(t), Second(t), Truth(t), sqrt, cdf); dl.Some? && dl.value.p < 0.05
  }

  /** The DeLong AUROCs are the plain AUROCs of the two forecasters on the same sample. */
  lemma DeLongAucIsAuroc(a: seq<real>, b: seq<real>, labels: seq<bool>, sqrt: real -> real,
                         cdf: real -> real)
    requires PairwiseDeLong(a, b, labels, sqrt, cdf).Some?
    ensures |a| == |b| == |labels|
    ensures var posA, negA := Select(a, labels, true), Select(a, labels, false);
            var posB, negB := Select(b, labels, true), Select(b, labels, false);
            var r := PairwiseDeLong(a, b, labels, sqrt, cdf).value;
            && posA != [] && negA != [] && posB != [] && negB != []
            && r.aucA == PairwiseAuc(posA, negA) && r.aucB == PairwiseAuc(posB, negB)
            && r.diff == r.aucA - r.aucB
  {
    GatherIsSelect(a, labels, true);
    GatherIsSelect(a, labels, false);
    GatherIsSelect(b, labels, true);
    GatherIsSelect(b, labels, false);
  }

  lemma {:induction false} CountTrueIs(y: seq<bool>)
    ensures CountTrue(y) == multiset(y)[true]
  {
    if y != [] {
      var n := |y| - 1;
      CountTrueIs(y[..n]);
      assert y == y[..n] + [y[n]];
    }
  }

  method CountPositives(y: seq<bool>) returns (n: nat)
    ensures n == multiset(y)[true]
  {
    n := 0;
    for i := 0 to |y|
      invariant n == CountTrue(y[..i])
    {
      assert y[..i + 1][..i] == y[..i];
      if y[i] {
        n := n + 1;
      }
    }
    assert y[..|y|] == y;
    CountTrueIs(y);
  }

  /** A note names the first piece of evidence that is missing. */
  ghost predicate NoteFits(c: Comparison, rows: seq<ScoreRow>, base: seq<ScoreRow>, sqrt: real -> real,
                           cdf: real -> real) {
    var t := Align(rows, ByObs(base));
    var dl := PairwiseDeLong(First(t), Second(t), Truth(t), sqrt, cdf);
    match c.note
    case Overlap => dl.None?
    case SmallSample => dl.Some? && c.n < 200
    case FewPositives => dl.Some? && c.n >= 200 && c.positives < 30
    case OwnAucNotAboveChance => dl.Some? && c.n >= 200 && c.positives >= 30 && !AboveChance(rows)
    case NoGain => dl.Some? && c.n >= 200 && c.positives >= 30 && AboveChance(rows) && !RanksBetter(t)
    case NotSignificant =>
      dl.Some? && c.n >= 200 && c.positives >= 30 && AboveChance(rows) && RanksBetter(t) && dl.value.p >= 0.05
    case Gain => c.claimAllowed
  }

  /** One comparison: a claim is allowed exactly when the evidence justifies it. */
  method Compare(rows: seq<ScoreRow>, auc: Option<real>, vs: string, base: seq<ScoreRow>,
                 sqrt: real -> real, cdf: real -> real)
    returns (c: Comparison)
    requires auc.Some? && auc.value > 0.5 <==> AboveChance(rows)
    ensures c.vs == vs
    ensures var t := Align(rows, ByObs(base)); c.n == |t| && c.positives == multiset(Truth(t))[true]
    ensures c.claimAllowed <==> ClaimJustified(rows, base, sqrt, cdf)
    ensures c.claimAllowed <==> c.note == Gain
    ensures NoteFits(c, rows, base, sqrt, cdf)
  {
    var pa, pb, y := AlignByObs(rows, base);
    var pairedPositives := CountPositives(y);
    var dl := FastDeLong(pa, pb, y, sqrt, cdf);
    if dl.None? {
      return Comparison(vs, |y|, pairedPositives, false, Overlap);
    }
    DeLongAucIsAuroc(pa, pb, y, sqrt, cdf);
    var enoughPositives := pairedPositives >= MIN_POSITIVES_FOR_CLAIMS;
    var ownAucAboveChance := auc.Some? && auc.value > 0.5;
    var claimAllowed := |y| >= MIN_FOR_CLAIMS && enoughPositives && ownAucAboveChance
                        && dl.value.p < 0.05 && dl.value.diff > 0.0;
    var note :=
      if |y| < MIN_FOR_CLAIMS then SmallSample
      else if !enoughPositives then FewPositives
      else if !ownAucAboveChance then OwnAucNotAboveChance
      else if claimAllowed then Gain
      else if dl.value.diff <= 0.0 then NoGain
      else NotSignificant;
    c := Comparison(vs, |y|, pairedPositives, claimAllowed, note);
  }

  method OwnAuroc(rows: seq<ScoreRow>) returns (auc: Option<real>)
    ensures auc.Some? && auc.value > 0.5 <==> AboveChance(rows)
  {
    auc := Auroc(Probs(rows), Labels(rows));
    SelectClasses(Probs(rows), Labels(rows));
  }

  /** The baselines a cell is compared with, in their order: known ones other than itself. */
  function Others(baselines: seq<string>, forecaster: string,
                  peers: map<string, seq<ScoreRow>>): seq<string> {
    if baselines == [] then []
    else
      var n := |baselines| - 1;
      Others(baselines[..n], forecaster, peers)
      + (if baselines[n] != forecaster && baselines[n] in peers then [baselines[n]] else [])
  }

  /** Each known baseline other than the forecaster itself is compared as often as it is listed, and nothing else is. */
  lemma {:induction false} OthersAre(baselines: seq<string>, forecaster: string, peers: map<string, seq<ScoreRow>>, x: string)
    ensures multiset(Others(baselines, forecaster, peers))[x] ==
            if x != forecaster && x in peers then multiset(baselines)[x] else 0
  {
    if baselines != [] {
      var n := |baselines| - 1;
      OthersAre(baselines[..n], forecaster, peers, x);
      assert baselines == baselines[..n] + [baselines[n]];
    }
  }

  function Versus(comparisons: seq<Comparison>): (r: seq<string>) {
    seq(|comparisons|, k requires 0 <= k < |comparisons| => comparisons[k].vs)
  }

  /** The comparison reports the paired sample and claims exactly what is justified. */
  ghost predicate Fair(c: Comparison, rows: seq<ScoreRow>, peers: map<string, seq<ScoreRow>>,
                       sqrt: real -> real, cdf: real -> real) {
    && c.vs in peers
    && var t := Align(rows, ByObs(peers[c.vs]));
       && c.n == |t| && c.positives == multiset(Truth(t))[true]
       && (c.claimAllowed <==> ClaimJustified(rows, peers[c.vs], sqrt, cdf))
  }

  method CompareFairly(rows: seq<ScoreRow>, auc: Option<real>, vs: string, peers: map<string, seq<ScoreRow>>,
                       sqrt: real -> real, cdf: real -> real)
    returns (c: Comparison)
    requires vs in peers && (auc.Some? && auc.value > 0.5 <==> AboveChance(rows))
    ensures c.vs == vs && Fair(c, rows, peers, sqrt, cdf)
  {
    c := Compare(rows, auc, vs, peers[vs], sqrt, cdf);
  }

  /** The comparisons of one cell: none below the metrics minimum, else one per known other baseline, in order. */
  method CellComparisons(forecaster: string, rows: seq<ScoreRow>, peers: map<string, seq<ScoreRow>>,
                         baselines: seq<string>, sqrt: real -> real, cdf: real -> real)
    returns (comparisons: seq<Comparison>)
    ensures Versus(comparisons) == if |rows| < 100 then [] else Others(baselines, forecaster, peers)
    ensures forall k :: 0 <= k < |comparisons| ==> Fair(comparisons[k], rows, peers, sqrt, cdf)
  {
    comparisons := [];
    var auc := OwnAuroc(rows);
    if |rows| < MIN_FOR_METRICS {
      return;
    }
    for i := 0 to |baselines|
      invariant Versus(comparisons) == Others(baselines[..i], forecaster, peers)
      invariant forall k :: 0 <= k < |comparisons| ==> Fair(comparisons[k], rows, peers, sqrt, cdf)
    {
      assert baselines[..i + 1][..i] == baselines[..i];
      var base := baselines[i];
      if base != forecaster && base in peers {
        var c := CompareFairly(rows, auc, base, peers, sqrt, cdf);
        assert Versus(comparisons + [c]) == Versus(comparisons) + [base];
        comparisons := comparisons + [c];
      }
    }
    assert baselines[..|baselines|] == baselines;
  }

  // ----- what the gate can never publish

  /** A forecaster that ranks the paired sample exactly as its baseline does may claim nothing. */
  lemma NoClaimWithoutReordering(rows: seq<ScoreRow>, base: seq<ScoreRow>, sqrt: real -> real,
                                 cdf: real -> real)
    requires var t := Align(rows, ByObs(base)); OrderEquivalent(First(t), Second(t))
    requires sqrt(0.0) == 0.0
    ensures !ClaimJustified(rows, base, sqrt, cdf)
  {
    var t := Align(rows, ByObs(base));
    OrderEquivalentForecasters(First(t), Second(t), Truth(t), sqrt, cdf);
  }

  // ----- no two forecasters may both claim to beat the other

  /** No observation that `b` has is twice in `a`. */
  ghost predicate OnceShared(a: seq<ScoreRow>, b: seq<ScoreRow>) {
    forall i, j, k :: 0 <= i < j < |a| && 0 <= k < |b| && a[i].obsId == a[j].obsId ==> b[k].obsId != a[i].obsId
  }

  /** Both forecasters saw the same outcome for the same observation. */
  ghost predicate SameTruth(a: seq<ScoreRow>, b: seq<ScoreRow>) {
    forall i, j :: 0 <= i < |a| && 0 <= j < |b| && a[i].obsId == b[j].obsId ==> a[i].outcome == b[j].outcome
  }

  function Swap(p: Paired): Paired {
    Paired(p.obsId, p.pb, p.pa, p.y)
  }

  function SwapAll(t: seq<Paired>): (r: seq<Paired>) {
    seq(|t|, i requires 0 <= i < |t| => Swap(t[i]))
  }

  lemma {:induction false} ByObsLookup(b: seq<ScoreRow>)
    ensures forall j :: 0 <= j < |b| ==> b[j].obsId in ByObs(b)
    ensures forall o :: o in ByObs(b) ==> ByObs(b)[o] in b && ByObs(b)[o].obsId == o
  {
    if b != [] {
      ByObsLookup(b[..|b| - 1]);
    }
  }

  /** An observation is looked up under the last row that has it. */
  lemma {:induction false} ByObsLast(b: seq<ScoreRow>, k: nat)
    requires k < |b| && forall j :: k < j < |b| ==> b[j].obsId != b[k].obsId
    ensures b[k].obsId in ByObs(b) && ByObs(b)[b[k].obsId] == b[k]
  {
    if k < |b| - 1 {
      ByObsLast(b[..|b| - 1], k);
    }
  }

  /** A shared observation is found under its one row. */
  lemma LookupOnce(a: seq<ScoreRow>, b: seq<ScoreRow>, i: nat, k: nat)
    requires OnceShared(a, b) && i < |a| && k < |b| && a[i].obsId == b[k].obsId
    ensures a[i].obsId in ByObs(a) && ByObs(a)[a[i].obsId] == a[i]
  {
    ByObsLookup(a);
    var j :| 0 <= j < |a| && a[j] == ByObs(a)[a[i].obsId];
    assert i == j;
  }

  /** `p` is what row `x` contributes to an alignment with `m`. */
  ghost predicate PairsAs(x: ScoreRow, m: map<string, ScoreRow>, p: Paired) {
    x.obsId in m && p == Paired(x.obsId, x.prob, m[x.obsId].prob, x.outcome)
  }

  /** The alignment holds exactly the observations both forecasters have. */
  lemma {:induction false} AlignMembers(a: seq<ScoreRow>, m: map<string, ScoreRow>, p: Paired)
    ensures p in Align(a, m) <==> exists i :: 0 <= i < |a| && PairsAs(a[i], m, p)
  {
    if a != [] {
      var n := |a| - 1;
      AlignMembers(a[..n], m, p);
      if p in Align(a[..n], m) {
        var i :| 0 <= i < n && PairsAs(a[..n][i], m, p);
        assert PairsAs(a[i], m, p);
      }
      if i :| 0 <= i < |a| && PairsAs(a[i], m, p) {
        if i < n {
          assert PairsAs(a[..n][i], m, p);
        }
      }
    }
  }

  lemma {:induction false} AlignOnce(a: seq<ScoreRow>, b: seq<ScoreRow>, p: Paired)
    requires OnceShared(a, b)
    ensures multiset(Align(a, ByObs(b)))[p] <= 1
  {
    if a != [] {
      var n := |a| - 1;
      AlignOnce(a[..n], b, p);
      if PairsAs(a[n], ByObs(b), p) {
        ByObsLookup(b);
        var k :| 0 <= k < |b| && b[k] == ByObs(b)[p.obsId];
        AlignMembers(a[..n], ByObs(b), p);
        assert p !in Align(a[..n], ByObs(b));
      }
    }
  }

  lemma {:induction false} SwapMultiplicity(t: seq<Paired>, p: Paired)
    ensures multiset(SwapAll(t))[Swap(p)] == multiset(t)[p]
  {
    if t != [] {
      var n := |t| - 1;
      SwapMultiplicity(t[..n], p);
      assert t == t[..n] + [t[n]];
      assert SwapAll(t) == SwapAll(t[..n]) + [Swap(t[n])];
      assert Swap(t[n]) == Swap(p) <==> t[n] == p;
    }
  }

  /** A pair found in one direction is found, swapped, in the other. */
  lemma AlignsBothWays(a: seq<ScoreRow>, b: seq<ScoreRow>, p: Paired)
    requires OnceShared(a, b) && OnceShared(b, a) && SameTruth(a, b)
    ensures p in Align(a, ByObs(b)) ==> Swap(p) in Align(b, ByObs(a))
  {
    ByObsLookup(a);
    ByObsLookup(b);
    AlignMembers(a, ByObs(b), p);
    AlignMembers(b, ByObs(a), Swap(p));
    if i :| 0 <= i < |a| && PairsAs(a[i], ByObs(b), p) {
      var j :| 0 <= j < |b| && b[j] == ByObs(b)[a[i].obsId];
      LookupOnce(a, b, i, j);
      assert PairsAs(b[j], ByObs(a), Swap(p));
    }
  }

  lemma SameMultiplicity(a: seq<ScoreRow>, b: seq<ScoreRow>, p: Paired)
    requires OnceShared(a, b) && OnceShared(b, a) && SameTruth(a, b)
    ensures multiset(Align(a, ByObs(b)))[p] == multiset(SwapAll(Align(b, ByObs(a))))[p]
  {
    var q := Swap(p);
    assert SameTruth(b, a);
    SwapMultiplicity(Align(b, ByObs(a)), q);
    AlignOnce(a, b, p);
    AlignOnce(b, a, q);
    AlignsBothWays(a, b, p);
    AlignsBothWays(b, a, q);
    assert Swap(q) == p;
  }

  /** Aligning in either direction pairs the same observations. */
  lemma AlignSymmetric(a: seq<ScoreRow>, b: seq<ScoreRow>)
    requires OnceShared(a, b) && OnceShared(b, a) && SameTruth(a, b)
    ensures multiset(Align(a, ByObs(b))) == multiset(SwapAll(Align(b, ByObs(a))))
  {
    forall p: Paired
      ensures multiset(Align(a, ByObs(b)))[p] == multiset(SwapAll(Align(b, ByObs(a))))[p]
    {
      SameMultiplicity(a, b, p);
    }
  }

  /** How many observations of one class have score `v`. */
  ghost function ClassCount(t: seq<Paired>, which: bool, v: real): nat {
    if t == [] then 0
    else ClassCount(t[..|t| - 1], which, v) + (if t[|t| - 1].y == which && t[|t| - 1].pa == v then 1 else 0)
  }

  lemma LastSelected(t: seq<Paired>, which: bool)
    requires t != []
    ensures var n := |t| - 1;
            Select(First(t), Truth(t), which) ==
            Select(First(t[..n]), Truth(t[..n]), which) + (if t[n].y == which then [t[n].pa] else [])
  {
    var n := |t| - 1;
    assert First(t)[..n] == First(t[..n]) && Truth(t)[..n] == Truth(t[..n]);
  }

  lemma {:induction false} ClassCountIs(t: seq<Paired>, which: bool, v: real)
    ensures multiset(Select(First(t), Truth(t), which))[v] == ClassCount(t, which, v)
  {
    if t != [] {
      ClassCountIs(t[..|t| - 1], which, v);
      LastSelected(t, which);
    }
  }

  /** The lists before and after dropping an element end alike. */
  lemma DropPair(t: seq<Paired>, k: nat)
    requires k < |t| - 1
    ensures var n, u := |t| - 1, t[..k] + t[k + 1..];
            && |u| == n && u[n - 1] == t[n] && t[..n][k] == t[k]
            && u[..n - 1] == t[..n][..k] + t[..n][k + 1..]
  {
  }

  /** Dropping one observation drops its score from its class. */
  lemma {:induction false} ClassCountWithout(t: seq<Paired>, k: nat, which: bool, v: real)
    requires k < |t|
    ensures ClassCount(t, which, v) == ClassCount(t[..k] + t[k + 1..], which, v) + (if t[k].y == which && t[k].pa == v then 1 else 0)
  {
    var n, u := |t| - 1, t[..k] + t[k + 1..];
    if k == n {
      assert u == t[..n];
    } else {
      DropPair(t, k);
      ClassCountWithout(t[..n], k, which, v);
      assert u != [];
    }
  }

  lemma {:induction false} ClassCountPermutation(s: seq<Paired>, t: seq<Paired>, which: bool,
        v: real)
    requires multiset(s) == multiset(t)
    ensures ClassCount(s, which, v) == ClassCount(t, which, v)
  {
    if s == [] {
      assert |t| == |multiset(t)| == 0;
    } else {
      var n := |s| - 1;
      assert s == s[..n] + [s[n]];
      var k := FindIn(t, s[n]);
      var u := t[..k] + t[k + 1..];
      MultisetWithout(t, k);
      ClassCountWithout(t, k, which, v);
      ClassCountPermutation(s[..n], u, which, v);
    }
  }

  lemma ClassScoresPermutation(s: seq<Paired>, t: seq<Paired>, which: bool)
    requires multiset(s) == multiset(t)
    ensures multiset(Select(First(s), Truth(s), which)) == multiset(Select(First(t), Truth(t), which))
  {
    var a, b := multiset(Select(First(s), Truth(s), which)), multiset(Select(First(t), Truth(t), which));
    forall v ensures a[v] == b[v] {
      ClassCountIs(s, which, v);
      ClassCountIs(t, which, v);
      ClassCountPermutation(s, t, which, v);
    }
  }

  /** Swapping every pair keeps equal samples equal. */
  lemma SwapPermutation(s: seq<Paired>, t: seq<Paired>)
    requires multiset(s) == multiset(t)
    ensures multiset(SwapAll(s)) == multiset(SwapAll(t))
  {
    forall p ensures multiset(SwapAll(s))[p] == multiset(SwapAll(t))[p] {
      SwapMultiplicity(s, Swap(p));
      SwapMultiplicity(t, Swap(p));
    }
  }

  lemma {:induction false} PairSumPermuteRight(xs: seq<real>, ys: seq<real>, zs: seq<real>)
    requires multiset(ys) == multiset(zs)
    ensures PairSum(xs, ys) == PairSum(xs, zs)
  {
    if xs != [] {
      var x := xs[|xs| - 1];
      PairSumPermuteRight(xs[..|xs| - 1], ys, zs);
      CountPermutation(ys, zs, x);
      MidrankIsPlacement(ys, x);
      MidrankIsPlacement(zs, x);
    }
  }

  /** The AUROC does not depend on the order of the observations. */
  lemma AucPermutation(pos: seq<real>, neg: seq<real>, pos': seq<real>, neg': seq<real>)
    requires multiset(pos) == multiset(pos') && multiset(neg) == multiset(neg')
    requires pos != [] && neg != []
    ensures |pos'| == |pos| && |neg'| == |neg|
    ensures PairwiseAuc(pos, neg) == PairwiseAuc(pos', neg')
  {
    assert |pos| == |multiset(pos)| == |pos'| && |neg| == |multiset(neg)| == |neg'|;
    PairSumPermuteRight(pos, neg, neg');
    PairSumPermuteRight(neg', pos, pos');
    PairSumMirror(pos, neg');
    PairSumMirror(pos', neg');
  }

  lemma SwapProjections(t: seq<Paired>)
    ensures First(SwapAll(t)) == Second(t) && Second(SwapAll(t)) == First(t) && Truth(SwapAll(t)) == Truth(t)
  {
  }

  /** At most one of two forecasters may claim a gain over the other. */
  lemma NoMutualClaims(a: seq<ScoreRow>, b: seq<ScoreRow>, sqrt: real -> real,
                       cdf: real -> real)
    requires OnceShared(a, b) && OnceShared(b, a) && SameTruth(a, b)
    ensures !(ClaimJustified(a, b, sqrt, cdf) && ClaimJustified(b, a, sqrt, cdf))
  {
    if ClaimJustified(a, b, sqrt, cdf) && ClaimJustified(b, a, sqrt, cdf) {
      var s, t := Align(a, ByObs(b)), Align(b, ByObs(a));
      var u := SwapAll(t);
      AlignSymmetric(a, b);
      SwapPermutation(s, u);
      SwapProjections(s);
      SwapProjections(t);
      SwapProjections(u);
      ClassScoresPermutation(s, u, true);
      ClassScoresPermutation(s, u, false);
      ClassScoresPermutation(SwapAll(s), SwapAll(u), true);
      ClassScoresPermutation(SwapAll(s), SwapAll(u), false);
      var y, w := Truth(s), Truth(t);
      AucPermutation(Select(First(s), y, true), Select(First(s), y, false), Select(Second(t), w, true), Select(Second(t), w, false));
      AucPermutation(Select(Second(s), y, true), Select(Second(s), y, false), Select(First(t), w, true), Select(First(t), w, false));
      assert false;
    }
  }
}
