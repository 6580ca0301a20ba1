/**
 * Epoch reconciliation of the spend ledger. Amounts are integer micro-dollars, reconciliation
 * factors are integer millionths, percentages integer millionths of a percent.
 */
module SpendLedger {
  import opened Common

  const MILLION := 1_000_000

  /** `Math.round(a / b)`: to the nearest integer, halves up. */
  function RoundDiv(a: int, b: int): int
    requires b > 0
  {
    (2 * a + b) / (2 * b)
  }

  lemma RoundDivError(a: int, b: int)
    requires b > 0
    ensures -b <= 2 * a - 2 * (b * RoundDiv(a, b)) <= b
  {
    var q, n := RoundDiv(a, b), 2 * a + b;
    assert n == (2 * b) * q + n % (2 * b);
    assert (2 * b) * q == 2 * (b * q);
  }

  // ----- grading one window

  datatype BillingStatus = AggregateOnly | Unavailable | Anomaly | Phantom

  datatype EpochInput = EpochInput(
    providerNow: int, providerPrev: int, localEstimate: int, requestCount: nat, lagRequestCount: nat,
    anomalyPct: int, phantomTolerance: int, minGrade: int)

  datatype EpochResult = EpochResult(
    providerDelta: int, localEstimate: int, requestCount: nat, factor: Option<int>, discrepancyPct: Option<int>,
    phantom: bool, anomaly: bool, billingStatus: BillingStatus)

  function Abs(x: int): nat {
    if x < 0 then -x else x
  }

  /** Requests ran, they were priced, and the window is big enough on one side. */
  predicate Gradable(i: EpochInput) {
    i.requestCount > 0 && i.localEstimate > 0
    && (i.localEstimate >= i.minGrade || Max(0, i.providerNow - i.providerPrev) >= i.minGrade)
  }

  function ReconcileEpoch(i: EpochInput): (r: EpochResult)
    ensures r.providerDelta == Max(0, i.providerNow - i.providerPrev)
    ensures r.localEstimate == Max(0, i.localEstimate) && r.requestCount == i.requestCount
    ensures r.phantom <==> i.requestCount == 0 && i.lagRequestCount == 0 && r.providerDelta > i.phantomTolerance
    ensures r.phantom <==> r.billingStatus == Phantom
    ensures r.factor.Some? <==> Gradable(i) && r.providerDelta > 0
    ensures r.discrepancyPct.Some? <==> Gradable(i)
    ensures r.anomaly <==> r.discrepancyPct.Some? && Abs(r.discrepancyPct.value) > i.anomalyPct
    ensures r.anomaly <==> r.billingStatus == Anomaly
    ensures r.billingStatus == Unavailable <==> i.requestCount > 0 && i.localEstimate <= 0
    ensures r.factor.Some? ==>
      && r.providerDelta > 0 && r.localEstimate > 0 && r.localEstimate == i.localEstimate
      && r.factor.value == RoundDiv(r.providerDelta * MILLION, r.localEstimate)
  {
    var delta := Max(0, i.providerNow - i.providerPrev);
    var estimate := Max(0, i.localEstimate);
    if i.requestCount == 0 && i.lagRequestCount == 0 && delta > i.phantomTolerance then
      EpochResult(delta, estimate, i.requestCount, None, None, true, false, Phantom)
    else if i.requestCount == 0 then
      EpochResult(delta, estimate, i.requestCount, None, None, false, false, AggregateOnly)
    else if estimate <= 0 then
      EpochResult(delta, estimate, i.requestCount, None, None, false, false, Unavailable)
    else if estimate < i.minGrade && delta < i.minGrade then
      EpochResult(delta, estimate, i.requestCount, None, None, false, false, AggregateOnly)
    else
      var factor := if delta > 0 then Some(RoundDiv(delta * MILLION, estimate)) else None;
      var pct := RoundDiv((delta - estimate) * 100 * MILLION, estimate);
      var anomaly := Abs(pct) > i.anomalyPct;
      EpochResult(delta, estimate, i.requestCount, factor, Some(pct), false, anomaly, if anomaly then Anomaly else AggregateOnly)
  }

  /** The discrepancy is the provider's excess over the estimate in percent, to the nearest millionth. */
  lemma DiscrepancyIs(i: EpochInput)
    requires Gradable(i)
    ensures var r := ReconcileEpoch(i);
            var exact := (r.providerDelta - i.localEstimate) * (100 * MILLION);
            Abs(2 * exact - 2 * (i.localEstimate * r.discrepancyPct.value)) <= i.localEstimate
  {
    var r := ReconcileEpoch(i);
    var exact := (r.providerDelta - i.localEstimate) * (100 * MILLION);
    assert (r.providerDelta - i.localEstimate) * 100 * MILLION == exact;
    RoundDivError(exact, i.localEstimate);
  }

  // ----- the ledger

  datatype CostBasis = TokenEstimate | ProviderReconciledEstimate | OtherBasis

  /** `generation` identifies the provider's run, where it was supplied. */
  datatype SpendRow = SpendRow(at: int, cost: int, estimate: Option<int>, basis: CostBasis, generation: Option<nat>,
                               reconciled: Option<int>, epoch: Option<nat>)

  /** The first row of a generation. */
  function FindGeneration(rows: seq<SpendRow>, g: nat): (r: Option<nat>)
    ensures r.None? <==> forall k :: 0 <= k < |rows| ==> rows[k].generation != Some(g)
    ensures r.Some? ==> r.value < |rows| && rows[r.value].generation == Some(g)
  {
    if rows == [] then None
    else
      var n := |rows| - 1;
      var before := FindGeneration(rows[..n], g);
      if before.Some? then before else if rows[n].generation == Some(g) then Some(n) else None
  }

  /** No generation is in the ledger twice. */
  ghost predicate OncePerGeneration(rows: seq<SpendRow>) {
    forall i, j :: 0 <= i < j < |rows| && rows[i].generation.Some? ==> rows[i].generation != rows[j].generation
  }

  /** Not yet stamped, and recorded after `since` and no later than `until`. */
  predicate InWindow(row: SpendRow, since: int, until: int) {
    row.epoch.None? && since < row.at <= until
  }

  /** What an epoch makes of a row in its window. */
  function Stamped(row: SpendRow, epoch: nat, factor: Option<int>): SpendRow {
    if factor.Some? && row.estimate.Some? then
      var cost := RoundDiv(row.estimate.value * factor.value, MILLION);
      row.(epoch := Some(epoch), reconciled := Some(cost), cost := cost, basis := ProviderReconciledEstimate)
    else row.(epoch := Some(epoch))
  }

  function StampAll(rows: seq<SpendRow>, since: int, until: int, epoch: nat,
                    factor: Option<int>): (r: seq<SpendRow>)
    ensures |r| == |rows|
    ensures forall i :: 0 <= i < |rows| ==>
      r[i] == if InWindow(rows[i], since, until) then Stamped(rows[i], epoch, factor) else rows[i]
  {
    seq(|rows|, i requires 0 <= i < |rows| =>
      if InWindow(rows[i], since, until) then Stamped(rows[i], epoch, factor) else rows[i])
  }

  function EstimateOf(row: SpendRow): int {
    if row.estimate.Some? then row.estimate.value else 0
  }

  function WindowSum(rows: seq<SpendRow>, since: int, until: int): int {
    if rows == [] then 0
    else
      var n := |rows| - 1;
      WindowSum(rows[..n], since, until) + (if InWindow(rows[n], since, until) then EstimateOf(rows[n]) else 0)
  }

  function WindowCount(rows: seq<SpendRow>, since: int, until: int): nat {
    if rows == [] then 0
    else
      var n := |rows| - 1;
      WindowCount(rows[..n], since, until) + (if InWindow(rows[n], since, until) then 1 else 0)
  }

  class Ledger {
    var rows: seq<SpendRow>

    constructor ()
      ensures rows == []
    {
      rows := [];
    }

    /**
     * Record one run; the database stamps the time. A generation already in the ledger is found
     * instead of recorded again.
     */
    method Record(at: int, cost: int, model: string, estimate: Option<int>, basis: CostBasis,
                  generation: Option<nat>)
      returns (r: Result<(nat, bool)>)
      modifies this
      ensures r.Ok? <==> cost >= 0 && model != ""
      ensures r.Ok? ==> r.value.0 < |rows| && rows[r.value.0].generation == generation
      ensures r.Ok? ==>
        (r.value.1 <==> generation.Some? && exists k :: 0 <= k < |old(rows)| && old(rows)[k].generation == generation)
      ensures r.Ok? && !r.value.1 ==>
        rows == old(rows) + [SpendRow(at, cost, estimate, basis, generation, None, None)] && r.value.0 == |old(rows)|
      ensures r.Err? || r.value.1 ==> rows == old(rows)
      ensures OncePerGeneration(old(rows)) ==> OncePerGeneration(rows)
    {
      if cost < 0 {
        return Err("recordSpend: costUsd must be a finite, non-negative number");
      }
      if model == "" {
        return Err("recordSpend: model is required");
      }
      if generation.Some? {
        var existing := FindGeneration(rows, generation.value);
        if existing.Some? {
          return Ok((existing.value, true));
        }
      }
      r := Ok((|rows|, false));
      rows := rows + [SpendRow(at, cost, estimate, basis, generation, None, None)];
    }

    method WindowEstimate(since: int, until: int) returns (estimated: int, count: nat)
      ensures estimated == WindowSum(rows, since, until) && count == WindowCount(rows, since, until)
    {
      estimated, count := 0, 0;
      for i := 0 to |rows|
        invariant estimated == WindowSum(rows[..i], since, until) && count == WindowCount(rows[..i], since, until)
      {
        assert rows[..i + 1][..i] == rows[..i];
        if InWindow(rows[i], since, until) {
          estimated := estimated + EstimateOf(rows[i]);
          count := count + 1;
        }
      }
      assert rows[..|rows|] == rows;
    }

    /** Stamp the window's rows with the epoch, and with the reconciled cost where there is a factor. */
    method ApplyReconciliation(since: int, until: int, epoch: nat,
                               factor: Option<int>) returns (n: nat)
      modifies this
      ensures rows == StampAll(old(rows), since, until, epoch, factor)
      ensures n == WindowCount(old(rows), since, until)
    {
      ghost var rows0 := rows;
      n := 0;
      for i := 0 to |rows|
        invariant |rows| == |rows0| && n == WindowCount(rows0[..i], since, until)
        invariant forall k :: i <= k < |rows| ==> rows[k] == rows0[k]
        invariant forall k :: 0 <= k < i ==> rows[k] == StampAll(rows0, since, until, epoch, factor)[k]
      {
        assert rows0[..i + 1][..i] == rows0[..i];
        if InWindow(rows[i], since, until) {
          var row := rows[i];
          if factor.None? {
            rows := rows[i := row.(epoch := Some(epoch))];
          } else if row.estimate.Some? {
            var reconciled := RoundDiv(row.estimate.value * factor.value, MILLION);
            rows := rows[i := row.(epoch := Some(epoch), reconciled := Some(reconciled), cost := reconciled, basis := ProviderReconciledEstimate)];
          } else {
            rows := rows[i := row.(epoch := Some(epoch))];
          }
          n := n + 1;
        }
      }
      assert rows0[..|rows0|] == rows0;
    }
  }

  // ----- the reconciled costs add up to the provider's charge

  /** Reconciled costs of the window's rows. */
  function ReconciledSum(rows: seq<SpendRow>, since: int, until: int, factor: int): int {
    if rows == [] then 0
    else
      var n := |rows| - 1;
      ReconciledSum(rows[..n], since, until, factor)
      + (if InWindow(rows[n], since, until) then RoundDiv(EstimateOf(rows[n]) * factor, MILLION) else 0)
  }

  /** The window's estimates, each scaled by the factor. */
  function ScaledSum(rows: seq<SpendRow>, since: int, until: int, factor: int): int {
    if rows == [] then 0
    else
      var n := |rows| - 1;
      ScaledSum(rows[..n], since, until, factor)
      + (if InWindow(rows[n], since, until) then EstimateOf(rows[n]) * factor else 0)
  }

  lemma {:induction false} ScaledSumIs(rows: seq<SpendRow>, since: int, until: int, factor: int)
    ensures ScaledSum(rows, since, until, factor) == WindowSum(rows, since, until) * factor
  {
    if rows != [] {
      var n := |rows| - 1;
      ScaledSumIs(rows[..n], since, until, factor);
      Distribute(WindowSum(rows[..n], since, until), EstimateOf(rows[n]), factor);
    }
  }

  lemma Distribute(a: int, b: int, f: int)
    ensures (a + b) * f == a * f + b * f
  {
  }

  /** Each rounding loses at most half a micro-dollar. */
  lemma {:induction false} RoundingLoss(rows: seq<SpendRow>, since: int, until: int,
                                        factor: int)
    ensures var gap := 2 * (MILLION * ReconciledSum(rows, since, until, factor)) - 2 * ScaledSum(rows, since, until, factor);
            Abs(gap) <= WindowCount(rows, since, until) * MILLION
  {
    if rows != [] {
      var n := |rows| - 1;
      RoundingLoss(rows[..n], since, until, factor);
      if InWindow(rows[n], since, until) {
        RoundDivError(EstimateOf(rows[n]) * factor, MILLION);
      }
    }
  }

  /**
   * Conservation. When a factor applies and every row of the window has an estimate, the
   * reconciled costs differ from the provider's delta by at most n/2 + estimate/(2 * 10^6).
   */
  lemma ReconciledCostsMatchDelta(rows: seq<SpendRow>, since: int, until: int, i: EpochInput)
    requires i.localEstimate == WindowSum(rows, since, until) && i.requestCount == WindowCount(rows, since, until)
    requires ReconcileEpoch(i).factor.Some?
    ensures var r := ReconcileEpoch(i);
            2 * MILLION * Abs(ReconciledSum(rows, since, until, r.factor.value) - r.providerDelta)
              <= i.requestCount * MILLION + r.localEstimate
  {
    var r := ReconcileEpoch(i);
    var f, total := r.factor.value, ReconciledSum(rows, since, until, r.factor.value);
    RoundingLoss(rows, since, until, f);
    ScaledSumIs(rows, since, until, f);
    RoundDivError(r.providerDelta * MILLION, r.localEstimate);
    GapArithmetic(total, r.localEstimate * f, r.providerDelta, r.localEstimate, i.requestCount * MILLION);
  }

  lemma GapArithmetic(total: int, scaled: int, delta: int, estimate: int, loss: int)
    requires Abs(2 * (MILLION * total) - 2 * scaled) <= loss
    requires Abs(2 * (delta * MILLION) - 2 * scaled) <= estimate
    ensures 2 * MILLION * Abs(total - delta) <= loss + estimate
  {
  }

  // ----- epochs

  datatype Epoch = Epoch(at: int, start: int, provider: int, delta: int, result: EpochResult)

  datatype World = World(rows: seq<SpendRow>, epochs: seq<Epoch>)

  /** What a tick brings: its time, the provider's counter, and the key's baseline if there is one. */
  datatype Tick = Tick(at: int, provider: int, baseline: Option<(int, int)>, interval: int,
                       anomalyPct: int, phantomTolerance: int, minGrade: int)

  function WindowStart(w: World, t: Tick): int {
    if w.epochs != [] then w.epochs[|w.epochs| - 1].at
    else if t.baseline.Some? then t.baseline.value.0
    else t.at
  }

  function ProviderBefore(w: World, t: Tick): int {
    if w.epochs != [] then w.epochs[|w.epochs| - 1].provider
    else if t.baseline.Some? then t.baseline.value.1
    else t.provider
  }

  /** The request count the runner takes for the window before this one. */
  function LagCount(w: World, t: Tick): nat {
    var n := |w.epochs|;
    if n == 0 then 0
    else
      var prev := w.epochs[n - 1].at;
      WindowCount(w.rows, if n >= 2 then w.epochs[n - 2].at else prev - t.interval, prev)
  }

  function GradedInput(w: World, t: Tick): EpochInput {
    var start := WindowStart(w, t);
    EpochInput(t.provider, ProviderBefore(w, t), WindowSum(w.rows, start, t.at), WindowCount(w.rows, start, t.at),
               LagCount(w, t), t.anomalyPct, t.phantomTolerance, t.minGrade)
  }

  function Grade(w: World, t: Tick): EpochResult {
    ReconcileEpoch(GradedInput(w, t))
  }

  /** The epoch a tick adds. */
  function NewEpoch(w: World, t: Tick): Epoch {
    var r := Grade(w, t);
    Epoch(t.at, WindowStart(w, t), t.provider, r.providerDelta, r)
  }

  /** One epoch; `between` are the rows other writers insert after the window is read and before it is stamped. */
  function RunEpoch(w: World, t: Tick, between: seq<SpendRow>): World {
    var e := NewEpoch(w, t);
    World(StampAll(w.rows + between, e.start, e.at, |w.epochs|, e.result.factor), w.epochs + [e])
  }

  /** The epoch part of one lifecycle tick. */
  class EpochRunner {
    const ledger: Ledger
    var epochs: seq<Epoch>

    ghost function Model(): World
      reads this, ledger
    {
      World(ledger.rows, epochs)
    }

    constructor (ledger: Ledger)
      ensures this.ledger == ledger && epochs == []
    {
      this.ledger := ledger;
      epochs := [];
    }

    method RunTick(t: Tick, between: seq<SpendRow>)
      modifies this, ledger
      ensures Model() == RunEpoch(old(Model()), t, between)
    {
      var n := |epochs|;
      var providerPrev := if n > 0 then epochs[n - 1].provider else if t.baseline.Some? then t.baseline.value.1 else t.provider;
      var windowStart := if n > 0 then epochs[n - 1].at else if t.baseline.Some? then t.baseline.value.0 else t.at;
      var estimated, count := ledger.WindowEstimate(windowStart, t.at);
      var lag := 0;
      if n > 0 {
        var _, lagged := ledger.WindowEstimate(if n >= 2 then epochs[n - 2].at else epochs[n - 1].at - t.interval, epochs[n - 1].at);
        lag := lagged;
      }
      var ep := ReconcileEpoch(EpochInput(t.provider, providerPrev, estimated, count, lag, t.anomalyPct, t.phantomTolerance, t.minGrade));
      epochs := epochs + [Epoch(t.at, windowStart, t.provider, ep.providerDelta, ep)];
      ledger.rows := ledger.rows + between;
      var stamped := ledger.ApplyReconciliation(windowStart, t.at, n, ep.factor);
    }
  }
}
