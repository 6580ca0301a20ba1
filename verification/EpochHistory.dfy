/**
 * Every run of the spend ledger: rows appear with whatever date they carry, ticks close one window
 * after another, and each row is stamped by the epoch that contains it, unless it came too late.
 */
module EpochHistory {
  import opened Common
  import opened SpendLedger

  /** A spend row appears, or a tick completes an epoch. */
  datatype Event = Spends(row: SpendRow) | Ticks(tick: Tick, between: seq<SpendRow>)

  /** New rows are unstamped, whatever their date; ticks come in order of time. */
  ghost predicate Allowed(w: World, e: Event) {
    match e
    case Spends(row) => row.epoch.None?
    case Ticks(t, between) =>
      && (w.epochs != [] ==> t.at > w.epochs[|w.epochs| - 1].at)
      && (forall k :: 0 <= k < |between| ==> between[k].epoch.None?)
  }

  function Apply(w: World, e: Event): World {
    match e
    case Spends(row) => w.(rows := w.rows + [row])
    case Ticks(t, between) => RunEpoch(w, t, between)
  }

  ghost predicate Run(worlds: seq<World>, events: seq<Event>) {
    && |worlds| == |events| + 1 && worlds[0] == World([], [])
    && (forall i :: 0 <= i < |events| ==> Allowed(worlds[i], events[i]) && worlds[i + 1] == Apply(worlds[i], events[i]))
  }

  /** Each window starts where the one before it ended. */
  ghost predicate Tiled(epochs: seq<Epoch>) {
    && (forall k :: 0 < k < |epochs| ==> epochs[k].start == epochs[k - 1].at)
    && (forall k, l :: 0 <= k < l < |epochs| ==> epochs[k].at < epochs[l].at)
  }

  ghost predicate Contains(e: Epoch, at: int) {
    e.start < at <= e.at
  }

  /** No time lies in two windows. */
  lemma WindowsDisjoint(epochs: seq<Epoch>, k: nat, l: nat, at: int)
    requires Tiled(epochs) && k < l < |epochs| && Contains(epochs[k], at)
    ensures !Contains(epochs[l], at)
  {
    assert epochs[l].start == epochs[l - 1].at;
    assert k == l - 1 || epochs[k].at < epochs[l - 1].at;
  }

  lemma TiledSnoc(epochs: seq<Epoch>, e: Epoch)
    requires Tiled(epochs)
    requires epochs != [] ==> e.start == epochs[|epochs| - 1].at < e.at
    ensures Tiled(epochs + [e])
  {
    var n := |epochs|;
    assert forall k :: 0 <= k < n ==> epochs[k].at <= epochs[n - 1].at;
  }

  /** In every state of every run the windows tile time. */
  lemma {:induction false} WindowsTile(worlds: seq<World>, events: seq<Event>, n: nat)
    requires Run(worlds, events) && n < |worlds|
    ensures Tiled(worlds[n].epochs)
  {
    if n > 0 {
      WindowsTile(worlds, events, n - 1);
      var w := worlds[n - 1];
      if events[n - 1].Ticks? {
        TiledSnoc(w.epochs, NewEpoch(w, events[n - 1].tick));
      }
    }
  }

  // ----- the fate of one row

  /** The row is stamped by an epoch exactly when that epoch's window contains it. */
  ghost predicate StampedOnce(w: World, i: nat) {
    && i < |w.rows|
    && (w.rows[i].epoch.Some? ==> w.rows[i].epoch.value < |w.epochs|)
    && (forall k :: 0 <= k < |w.epochs| ==> (w.rows[i].epoch == Some(k) <==> Contains(w.epochs[k], w.rows[i].at)))
  }

  /** The row is dated no later than a completed epoch, but no epoch stamped it. */
  ghost predicate Missed(w: World, i: nat) {
    && i < |w.rows| && w.epochs != []
    && w.rows[i].epoch.None? && w.rows[i].at <= w.epochs[|w.epochs| - 1].at
  }

  /** A row dated `at` that appears now comes before any epoch has reached its time. */
  ghost predicate OnTime(w: World, at: int) {
    w.epochs != [] ==> w.epochs[|w.epochs| - 1].at < at
  }

  /** Event `m` brings row `i`. */
  ghost predicate AddedBy(worlds: seq<World>, m: nat, i: nat) {
    m + 1 < |worlds| && |worlds[m].rows| <= i < |worlds[m + 1].rows|
  }

  /** Event `m` brings row `i` after an epoch that had already reached its time. */
  ghost predicate AddedLate(worlds: seq<World>, m: nat, i: nat) {
    AddedBy(worlds, m, i) && !OnTime(worlds[m], worlds[m + 1].rows[i].at)
  }

  /** Closing a window keeps a row's stamps exact. */
  lemma CloseWindowRow(rows: seq<SpendRow>, epochs: seq<Epoch>, e: Epoch, factor: Option<int>, i: nat)
    requires StampedOnce(World(rows, epochs), i) && Tiled(epochs + [e])
    ensures StampedOnce(World(StampAll(rows, e.start, e.at, |epochs|, factor), epochs + [e]), i)
  {
    var es, n, at := epochs + [e], |epochs|, rows[i].at;
    assert forall k :: 0 <= k < n ==> es[k] == epochs[k];
    if rows[i].epoch.Some? {
      var k := rows[i].epoch.value;
      assert Contains(epochs[k], at);
      WindowsDisjoint(es, k, n, at);
    } else {
      assert forall k :: 0 <= k < n ==> !Contains(epochs[k], at);
    }
  }

  /** A row that appears on time lies in no completed window. */
  lemma OnTimeUnseen(rows: seq<SpendRow>, epochs: seq<Epoch>, i: nat)
    requires i < |rows| && rows[i].epoch.None? && Tiled(epochs) && OnTime(World(rows, epochs), rows[i].at)
    ensures StampedOnce(World(rows, epochs), i)
  {
    forall k | 0 <= k < |epochs| ensures !Contains(epochs[k], rows[i].at) {
      var last := |epochs| - 1;
      assert k == last || epochs[k].at < epochs[last].at;
    }
  }

  lemma TickKeepsStamps(w: World, t: Tick, between: seq<SpendRow>, i: nat)
    requires Allowed(w, Ticks(t, between)) && Tiled(w.epochs) && StampedOnce(World(w.rows + between, w.epochs), i)
    ensures StampedOnce(RunEpoch(w, t, between), i)
  {
    var e := NewEpoch(w, t);
    TiledSnoc(w.epochs, e);
    CloseWindowRow(w.rows + between, w.epochs, e, e.result.factor, i);
  }

  /** A row brought by an event starts out exactly stamped if on time, and missed otherwise. */
  lemma RowAppears(w: World, e: Event, i: nat)
    requires Allowed(w, e) && Tiled(w.epochs) && |w.rows| <= i < |Apply(w, e).rows|
    ensures var v := Apply(w, e); if OnTime(w, v.rows[i].at) then StampedOnce(v, i) else Missed(v, i)
  {
    match e
    case Spends(row) =>
      if OnTime(w, row.at) {
        OnTimeUnseen(w.rows + [row], w.epochs, i);
      }
    case Ticks(t, between) =>
      var rows := w.rows + between;
      if OnTime(w, rows[i].at) {
        OnTimeUnseen(rows, w.epochs, i);
        TickKeepsStamps(w, t, between, i);
      }
  }

  /** Every further event keeps it so. */
  lemma RowStays(w: World, e: Event, i: nat)
    requires Allowed(w, e) && Tiled(w.epochs) && i < |w.rows|
    ensures var v := Apply(w, e);
            && i < |v.rows| && v.rows[i].at == w.rows[i].at
            && (StampedOnce(w, i) ==> StampedOnce(v, i)) && (Missed(w, i) ==> Missed(v, i))
  {
    if StampedOnce(w, i) && e.Ticks? {
      assert StampedOnce(World(w.rows + e.between, w.epochs), i);
      TickKeepsStamps(w, e.tick, e.between, i);
    }
  }

  /** In every later state an on-time row carries exactly the epoch that contains it, and a late one none. */
  lemma {:induction false} RowFate(worlds: seq<World>, events: seq<Event>, m: nat, n: nat, i: nat)
    requires Run(worlds, events) && AddedBy(worlds, m, i) && m < n < |worlds|
    ensures i < |worlds[n].rows| && worlds[n].rows[i].at == worlds[m + 1].rows[i].at
    ensures if AddedLate(worlds, m, i) then Missed(worlds[n], i) else StampedOnce(worlds[n], i)
    decreases n - m
  {
    if n == m + 1 {
      WindowsTile(worlds, events, m);
      RowAppears(worlds[m], events[m], i);
    } else {
      RowFate(worlds, events, m, n - 1, i);
      WindowsTile(worlds, events, n - 1);
      RowStays(worlds[n - 1], events[n - 1], i);
    }
  }

  /** Every time after the first window's start and up to the last epoch lies in some window. */
  lemma {:induction false} TimeIsCovered(epochs: seq<Epoch>, at: int) returns (k: nat)
    requires Tiled(epochs) && epochs != [] && epochs[0].start < at <= epochs[|epochs| - 1].at
    ensures k < |epochs| && Contains(epochs[k], at)
    decreases |epochs|
  {
    var n := |epochs| - 1;
    if n == 0 || epochs[n].start < at {
      k := n;
    } else {
      k := TimeIsCovered(epochs[..n], at);
    }
  }

  /**
   * A row dated after the first window's start and no later than the last epoch is stamped exactly
   * if it appeared before any epoch had reached its time, and then by the one epoch containing it.
   */
  lemma StampedIffOnTime(worlds: seq<World>, events: seq<Event>, m: nat, n: nat, i: nat)
    requires Run(worlds, events) && AddedBy(worlds, m, i) && m < n < |worlds|
    requires var es, at := worlds[n].epochs, worlds[m + 1].rows[i].at; es != [] && es[0].start < at <= es[|es| - 1].at
    ensures i < |worlds[n].rows|
    ensures var row, es := worlds[n].rows[i], worlds[n].epochs;
            && (row.epoch.Some? <==> OnTime(worlds[m], worlds[m + 1].rows[i].at))
            && (row.epoch.Some? ==> forall k :: 0 <= k < |es| ==> (Contains(es[k], row.at) <==> row.epoch == Some(k)))
  {
    RowFate(worlds, events, m, n, i);
    WindowsTile(worlds, events, n);
    var k := TimeIsCovered(worlds[n].epochs, worlds[n].rows[i].at);
  }

  /** Some event brought every row there is. */
  lemma {:induction false} BroughtBy(worlds: seq<World>, events: seq<Event>, n: nat, i: nat) returns (m: nat)
    requires Run(worlds, events) && n < |worlds| && i < |worlds[n].rows|
    ensures m < n && AddedBy(worlds, m, i)
  {
    if i < |worlds[n - 1].rows| {
      m := BroughtBy(worlds, events, n - 1, i);
    } else {
      m := n - 1;
    }
  }

  // ----- what a stamp changes

  /** The row as event `e` brings it. */
  function Brought(w: World, e: Event, i: nat): SpendRow
    requires |w.rows| <= i < |Apply(w, e).rows|
  {
    match e
    case Spends(row) => row
    case Ticks(_, between) => between[i - |w.rows|]
  }

  /** The cost is `estimate` scaled by `factor` millionths, to the nearest micro-dollar. */
  ghost predicate Reconciles(cost: int, estimate: int, factor: int) {
    Abs(2 * (MILLION * cost) - 2 * (estimate * factor)) <= MILLION
  }

  /**
   * An unstamped row is as it was brought; a stamped one differs in its stamp and, where its epoch
   * has a factor and the row an estimate, in carrying the reconciled cost as its cost.
   */
  ghost predicate Kept(before: SpendRow, row: SpendRow, epochs: seq<Epoch>) {
    match row.epoch
    case None => row == before
    case Some(k) =>
      && k < |epochs|
      && var f := epochs[k].result.factor;
         if f.Some? && before.estimate.Some? then
           && row == before.(epoch := row.epoch, cost := row.cost, reconciled := Some(row.cost),
                             basis := ProviderReconciledEstimate)
           && Reconciles(row.cost, before.estimate.value, f.value)
         else row == before.(epoch := row.epoch)
  }

  lemma StampKeeps(before: SpendRow, row: SpendRow, epochs: seq<Epoch>, e: Epoch)
    requires Kept(before, row, epochs) && before.epoch.None?
    ensures Kept(before, if InWindow(row, e.start, e.at) then Stamped(row, |epochs|, e.result.factor) else row, epochs + [e])
  {
    if row.epoch.None? && e.result.factor.Some? && row.estimate.Some? {
      RoundDivError(row.estimate.value * e.result.factor.value, MILLION);
    }
  }

  lemma EventKeeps(w: World, e: Event, before: SpendRow, i: nat)
    requires Allowed(w, e) && i < |w.rows| && Kept(before, w.rows[i], w.epochs) && before.epoch.None?
    ensures i < |Apply(w, e).rows| && Kept(before, Apply(w, e).rows[i], Apply(w, e).epochs)
  {
    if e.Ticks? {
      StampKeeps(before, w.rows[i], w.epochs, NewEpoch(w, e.tick));
    }
  }

  lemma BringingKeeps(w: World, e: Event, i: nat)
    requires Allowed(w, e) && |w.rows| <= i < |Apply(w, e).rows|
    ensures Brought(w, e, i).epoch.None? && Kept(Brought(w, e, i), Apply(w, e).rows[i], Apply(w, e).epochs)
  {
    if e.Ticks? {
      var row := e.between[i - |w.rows|];
      assert (w.rows + e.between)[i] == row;
      StampKeeps(row, row, w.epochs, NewEpoch(w, e.tick));
    }
  }

  /** In every run a row keeps its time, generation and estimate, and its cost unless it is reconciled. */
  lemma {:induction false} RowKept(worlds: seq<World>, events: seq<Event>, m: nat, n: nat, i: nat)
    requires Run(worlds, events) && AddedBy(worlds, m, i) && m < n < |worlds|
    ensures |worlds[m].rows| <= i < |Apply(worlds[m], events[m]).rows| && i < |worlds[n].rows|
    ensures var before := Brought(worlds[m], events[m], i);
            before.epoch.None? && Kept(before, worlds[n].rows[i], worlds[n].epochs)
    decreases n - m
  {
    if n == m + 1 {
      BringingKeeps(worlds[m], events[m], i);
    } else {
      RowKept(worlds, events, m, n - 1, i);
      EventKeeps(worlds[n - 1], events[n - 1], Brought(worlds[m], events[m], i), i);
    }
  }

  // ----- a run with a late row

  function LateRowEvents(row: SpendRow, provider: int): seq<Event> {
    [Ticks(LateChargeTick(60, 0), []), Spends(row), Ticks(LateChargeTick(120, provider), [])]
  }

  function WorldsOf(events: seq<Event>): (r: seq<World>)
    ensures |r| == |events| + 1 && r[0] == World([], [])
    ensures forall i :: 0 <= i < |events| ==> r[i + 1] == Apply(r[i], events[i])
  {
    if events == [] then [World([], [])]
    else
      var before := WorldsOf(events[..|events| - 1]);
      before + [Apply(before[|before| - 1], events[|events| - 1])]
  }

  /** A row dated inside the first window and inserted just after its epoch is in no epoch, then or later. */
  lemma LateRowNeverStamped(row: SpendRow, provider: int)
    requires 0 < row.at <= 60 && row.epoch.None?
    ensures var worlds := WorldsOf(LateRowEvents(row, provider));
            && Run(worlds, LateRowEvents(row, provider)) && AddedLate(worlds, 1, 0)
            && |worlds[3].epochs| == 2 && Contains(worlds[3].epochs[0], row.at) && Missed(worlds[3], 0)
  {
    var events := LateRowEvents(row, provider);
    var worlds := WorldsOf(events);
    assert worlds[1] == Apply(worlds[0], events[0]) && worlds[2] == Apply(worlds[1], events[1]);
    assert worlds[3] == Apply(worlds[2], events[2]);
    forall i | 0 <= i < 3 ensures Allowed(worlds[i], events[i]) {
      assert i == 0 || i == 1 || i == 2;
    }
    RowFate(worlds, events, 1, 3, 0);
  }

  // ----- conservation, epoch by epoch

  /** What the rows stamped by an epoch cost. */
  function StampedCost(rows: seq<SpendRow>, epoch: nat): int {
    if rows == [] then 0
    else
      var n := |rows| - 1;
      StampedCost(rows[..n], epoch) + (if rows[n].epoch == Some(epoch) then rows[n].cost else 0)
  }

  /** Stamping a window gives the epoch exactly the reconciled costs of the rows in it. */
  lemma {:induction false} StampedCostIs(rows: seq<SpendRow>, since: int, until: int, epoch: nat, factor: int)
    requires forall k :: 0 <= k < |rows| ==> rows[k].epoch != Some(epoch)
    requires forall k :: 0 <= k < |rows| && InWindow(rows[k], since, until) ==> rows[k].estimate.Some?
    ensures StampedCost(StampAll(rows, since, until, epoch, Some(factor)), epoch) == ReconciledSum(rows, since, until, factor)
  {
    if rows != [] {
      var n := |rows| - 1;
      StampedCostIs(rows[..n], since, until, epoch, factor);
      assert StampAll(rows, since, until, epoch, Some(factor))[..n] == StampAll(rows[..n], since, until, epoch, Some(factor));
    }
  }

  lemma {:induction false} ReconciledConcat(a: seq<SpendRow>, b: seq<SpendRow>, since: int, until: int, factor: int)
    ensures ReconciledSum(a + b, since, until, factor) == ReconciledSum(a, since, until, factor) + ReconciledSum(b, since, until, factor)
  {
    if b == [] {
      assert a + b == a;
    } else {
      var n := |b| - 1;
      ReconciledConcat(a, b[..n], since, until, factor);
      assert (a + b)[..|a + b| - 1] == a + b[..n];
    }
  }

  /** No row carries the number of an epoch still to come. */
  lemma StampsArePast(worlds: seq<World>, events: seq<Event>, n: nat, i: nat)
    requires Run(worlds, events) && n < |worlds| && i < |worlds[n].rows|
    ensures worlds[n].rows[i].epoch.Some? ==> worlds[n].rows[i].epoch.value < |worlds[n].epochs|
  {
    var m := BroughtBy(worlds, events, n, i);
    RowFate(worlds, events, m, n, i);
  }

  lemma NumberIsNew(worlds: seq<World>, events: seq<Event>, n: nat)
    requires Run(worlds, events) && n < |events| && events[n].Ticks?
    ensures var rows := worlds[n].rows + events[n].between;
            forall k :: 0 <= k < |rows| ==> rows[k].epoch != Some(|worlds[n].epochs|)
  {
    var w, between := worlds[n], events[n].between;
    var rows := w.rows + between;
    assert Allowed(w, events[n]);
    forall k | 0 <= k < |rows| ensures rows[k].epoch != Some(|w.epochs|) {
      if k < |w.rows| {
        StampsArePast(worlds, events, n, k);
      }
    }
  }

  /**
   * Conservation. In every run, when a tick's window gets a factor and all its rows have estimates,
   * the rows its epoch stamps cost the provider's delta to within n/2 + estimate/(2 * 10^6)
   * micro-dollars, beyond the rows that slipped in after the window was read.
   */
  lemma EpochCostsMatchDelta(worlds: seq<World>, events: seq<Event>, n: nat)
    requires Run(worlds, events) && n < |events| && events[n].Ticks?
    requires NewEpoch(worlds[n], events[n].tick).result.factor.Some?
    requires var rows, e := worlds[n].rows + events[n].between, NewEpoch(worlds[n], events[n].tick);
             forall k :: 0 <= k < |rows| && InWindow(rows[k], e.start, e.at) ==> rows[k].estimate.Some?
    ensures var w, e := worlds[n], NewEpoch(worlds[n], events[n].tick);
            var slipped := ReconciledSum(events[n].between, e.start, e.at, e.result.factor.value);
            2 * MILLION * Abs(StampedCost(worlds[n + 1].rows, |w.epochs|) - slipped - e.delta)
              <= e.result.requestCount * MILLION + e.result.localEstimate
  {
    var w, t, between := worlds[n], events[n].tick, events[n].between;
    var e := NewEpoch(w, t);
    var rows, f := w.rows + between, e.result.factor.value;
    assert Allowed(w, events[n]);
    NumberIsNew(worlds, events, n);
    StampedCostIs(rows, e.start, e.at, |w.epochs|, f);
    ReconciledConcat(w.rows, between, e.start, e.at, f);
    ReconciledCostsMatchDelta(w.rows, e.start, e.at, GradedInput(w, t));
  }

  // ----- the anomaly flag

  /** More than `percent` millionths of a percent of `estimate`, once rounded to the nearest one, halves up. */
  ghost predicate OffByMore(excess: int, estimate: int, percent: int) {
    || 200_000_000 * excess >= (2 * percent + 1) * estimate
    || 200_000_000 * excess < -((2 * percent + 1) * estimate)
  }

  /** Rounding to the nearest, halves up: reaching `n` is reaching `n` less a half. */
  lemma RoundReaches(a: int, b: int, n: int)
    requires b > 0
    ensures RoundDiv(a, b) >= n <==> 2 * a >= (2 * n - 1) * b
  {
    var q, top := RoundDiv(a, b), 2 * a + b;
    var r := top % (2 * b);
    assert top == (2 * b) * q + r && 0 <= r < 2 * b;
    assert (2 * n - 1) * b == (2 * b) * n - b;
    if q >= n {
      assert (2 * b) * q >= (2 * b) * n;
    } else {
      assert (2 * b) * (q + 1) <= (2 * b) * n;
      assert (2 * b) * (q + 1) == (2 * b) * q + 2 * b;
    }
  }

  lemma AnomalyArithmetic(excess: int, estimate: int, percent: int)
    requires estimate > 0
    ensures Abs(RoundDiv(excess * 100 * MILLION, estimate)) > percent <==> OffByMore(excess, estimate, percent)
  {
    var a := excess * 100 * MILLION;
    RoundReaches(a, estimate, percent + 1);
    RoundReaches(a, estimate, -percent);
    assert (2 * (percent + 1) - 1) * estimate == (2 * percent + 1) * estimate;
    assert (2 * -percent - 1) * estimate == -((2 * percent + 1) * estimate);
  }

  /**
   * In every run an epoch is an anomaly exactly when its window had priced requests, the estimate or
   * the provider's rise reached the grading minimum, and the two are further apart than allowed.
   */
  lemma EpochAnomalyIff(worlds: seq<World>, events: seq<Event>, n: nat)
    requires Run(worlds, events) && n < |events| && events[n].Ticks?
    ensures |worlds[n + 1].epochs| == |worlds[n].epochs| + 1
    ensures var w, t := worlds[n], events[n].tick;
            var e := worlds[n + 1].epochs[|w.epochs|];
            var estimate := WindowSum(w.rows, e.start, t.at);
            && e.at == t.at && e.provider == t.provider
            && (e.result.anomaly <==>
                  && WindowCount(w.rows, e.start, t.at) > 0 && estimate > 0
                  && (estimate >= t.minGrade || e.delta >= t.minGrade)
                  && OffByMore(e.delta - estimate, estimate, t.anomalyPct))
  {
    var w, t := worlds[n], events[n].tick;
    assert Allowed(w, events[n]);
    var e := NewEpoch(w, t);
    var i := GradedInput(w, t);
    if Gradable(i) {
      AnomalyArithmetic(e.delta - i.localEstimate, i.localEstimate, t.anomalyPct);
      DiscrepancyOf(i);
    }
  }

  lemma DiscrepancyOf(i: EpochInput)
    requires Gradable(i)
    ensures var r := ReconcileEpoch(i);
            r.discrepancyPct == Some(RoundDiv((r.providerDelta - i.localEstimate) * 100 * MILLION, i.localEstimate))
  {
  }

  /** The first epoch of a run starts at the key's baseline, or is empty where there is none. */
  lemma FirstEpochIs(worlds: seq<World>, events: seq<Event>, n: nat)
    requires Run(worlds, events) && n < |events| && events[n].Ticks? && worlds[n].epochs == []
    ensures |worlds[n + 1].epochs| == 1
    ensures var e, t := worlds[n + 1].epochs[0], events[n].tick;
            && e.at == t.at && e.provider == t.provider
            && (t.baseline.None? ==> e.start == t.at && e.delta == 0)
            && (t.baseline.Some? ==> e.start == t.baseline.value.0 && e.delta == Max(0, t.provider - t.baseline.value.1))
  {
    assert Allowed(worlds[n], events[n]);
  }

  // ----- the provider's counter

  function DeltaSum(epochs: seq<Epoch>): int {
    if epochs == [] then 0 else DeltaSum(epochs[..|epochs| - 1]) + epochs[|epochs| - 1].delta
  }

  ghost predicate NonDecreasing(w: World, first: int) {
    && (w.epochs != [] ==> first <= w.epochs[0].provider)
    && (forall k, l :: 0 <= k < l < |w.epochs| ==> w.epochs[k].provider <= w.epochs[l].provider)
  }

  /** Each epoch's delta is its rise over the counter before it. */
  ghost predicate DeltasRise(epochs: seq<Epoch>, first: int) {
    forall k :: 0 <= k < |epochs| ==>
      epochs[k].delta == Max(0, epochs[k].provider - (if k == 0 then first else epochs[k - 1].provider))
  }

  lemma {:induction false} DeltasTelescope(epochs: seq<Epoch>, first: int)
    requires DeltasRise(epochs, first) && NonDecreasing(World([], epochs), first) && epochs != []
    ensures DeltaSum(epochs) == epochs[|epochs| - 1].provider - first
  {
    var n := |epochs| - 1;
    if n > 0 {
      DeltasTelescope(epochs[..n], first);
      assert epochs[n - 1].provider <= epochs[n].provider;
    } else {
      assert epochs[0].delta == epochs[0].provider - first;
      assert epochs[..0] == [] && DeltaSum([]) == 0;
    }
  }

  /** Tick `m` is the run's first, and `first` the counter its delta is measured from. */
  ghost predicate FirstTick(worlds: seq<World>, events: seq<Event>, m: nat, first: int) {
    && m < |events| && m < |worlds| && events[m].Ticks? && worlds[m].epochs == []
    && first == ProviderBefore(worlds[m], events[m].tick)
  }

  /** In every run each epoch's delta is measured from the counter of the one before. */
  lemma {:induction false} DeltasMeasured(worlds: seq<World>, events: seq<Event>,
        n: nat) returns (first: int, m: nat)
    requires Run(worlds, events) && n < |worlds|
    ensures DeltasRise(worlds[n].epochs, first)
    ensures worlds[n].epochs != [] ==> FirstTick(worlds, events, m, first)
  {
    if n == 0 {
      first, m := 0, 0;
    } else {
      first, m := DeltasMeasured(worlds, events, n - 1);
      var w := worlds[n - 1];
      if events[n - 1].Ticks? {
        var t := events[n - 1].tick;
        if w.epochs == [] {
          first, m := ProviderBefore(w, t), n - 1;
        }
        EpochDelta(w, t, events[n - 1].between, first);
      }
    }
  }

  lemma EpochDelta(w: World, t: Tick, between: seq<SpendRow>, first: int)
    requires DeltasRise(w.epochs, first) && (w.epochs == [] ==> first == ProviderBefore(w, t))
    ensures DeltasRise(RunEpoch(w, t, between).epochs, first)
  {
    var v := RunEpoch(w, t, between);
    assert forall k :: 0 <= k < |w.epochs| ==> v.epochs[k] == w.epochs[k];
  }

  /** With a counter that never falls, the deltas of a run add up to its total rise since the first tick's baseline. */
  lemma DeltasSumToRise(worlds: seq<World>, events: seq<Event>,
                        n: nat) returns (first: int, m: nat)
    requires Run(worlds, events) && n < |worlds| && worlds[n].epochs != []
    ensures DeltasRise(worlds[n].epochs, first) && FirstTick(worlds, events, m, first)
    ensures NonDecreasing(worlds[n], first) ==>
      DeltaSum(worlds[n].epochs) == worlds[n].epochs[|worlds[n].epochs| - 1].provider - first
  {
    first, m := DeltasMeasured(worlds, events, n);
    if NonDecreasing(worlds[n], first) {
      DeltasTelescope(worlds[n].epochs, first);
    }
  }

  // ----- the lag guard

  /** Where the runner starts looking for the window before this one. */
  function LagStart(w: World, t: Tick): int
    requires w.epochs != []
  {
    var n := |w.epochs|;
    if n >= 2 then w.epochs[n - 2].at else w.epochs[n - 1].at - t.interval
  }

  /** The row is dated in the range the lag count looks at. */
  ghost predicate InLagRange(w: World, t: Tick, i: nat) {
    w.epochs != [] && i < |w.rows| && LagStart(w, t) < w.rows[i].at <= w.epochs[|w.epochs| - 1].at
  }

  /** What makes a row dated in that range unstamped: it came late, or predates the very first window. */
  ghost predicate Escaped(worlds: seq<World>, n: nat, i: nat)
    requires n < |worlds| && i < |worlds[n].rows|
  {
    || (exists m :: 0 <= m < n && AddedLate(worlds, m, i))
    || (|worlds[n].epochs| == 1 && worlds[n].rows[i].at <= worlds[n].epochs[0].start)
  }

  lemma UnstampedIffEscaped(worlds: seq<World>, events: seq<Event>, n: nat, t: Tick, i: nat)
    requires Run(worlds, events) && n < |worlds| && InLagRange(worlds[n], t, i)
    ensures worlds[n].rows[i].epoch.None? <==> Escaped(worlds, n, i)
  {
    var w := worlds[n];
    var m := BroughtBy(worlds, events, n, i);
    RowFate(worlds, events, m, n, i);
    WindowsTile(worlds, events, n);
    forall l | 0 <= l < n && AddedLate(worlds, l, i) ensures l == m {
      RowsOnlyGrow(worlds, events, if l < m then l + 1 else m + 1, if l < m then m else l);
    }
    var last := |w.epochs| - 1;
    if !AddedLate(worlds, m, i) && w.rows[i].epoch.None? {
      assert !Contains(w.epochs[last], w.rows[i].at);
    }
  }

  lemma {:induction false} RowsOnlyGrow(worlds: seq<World>, events: seq<Event>, m: nat, n: nat)
    requires Run(worlds, events) && m < |worlds| && n < |worlds|
    ensures m <= n ==> |worlds[m].rows| <= |worlds[n].rows|
    decreases n
  {
    if m < n {
      RowsOnlyGrow(worlds, events, m, n - 1);
    }
  }

  lemma {:induction false} CountNeedsRow(rows: seq<SpendRow>, since: int,
        until: int) returns (i: nat)
    requires WindowCount(rows, since, until) > 0
    ensures i < |rows| && InWindow(rows[i], since, until)
  {
    var n := |rows| - 1;
    if InWindow(rows[n], since, until) {
      i := n;
    } else {
      i := CountNeedsRow(rows[..n], since, until);
    }
  }

  lemma {:induction false} RowIsCounted(rows: seq<SpendRow>, since: int, until: int, i: nat)
    requires i < |rows| && InWindow(rows[i], since, until)
    ensures WindowCount(rows, since, until) > 0
  {
    var n := |rows| - 1;
    if i < n {
      RowIsCounted(rows[..n], since, until, i);
    }
  }

  /**
   * The lag count never sees an on-time row of the window before, since that window is already
   * stamped. So spend in an idle window is phantom exactly when it exceeds the tolerance and no
   * row in the range looked at came late or predates the very first window, however busy the
   * window before was.
   */
  lemma LagGuardNeverHelps(worlds: seq<World>, events: seq<Event>, n: nat, t: Tick)
    requires Run(worlds, events) && n < |worlds| && worlds[n].epochs != []
    ensures var w := worlds[n];
            Grade(w, t).phantom <==>
              && WindowCount(w.rows, WindowStart(w, t), t.at) == 0
              && Max(0, t.provider - ProviderBefore(w, t)) > t.phantomTolerance
              && (forall i: nat :: InLagRange(w, t, i) ==> !Escaped(worlds, n, i))
  {
    var w := worlds[n];
    var since, until := LagStart(w, t), w.epochs[|w.epochs| - 1].at;
    if LagCount(w, t) > 0 {
      var i := CountNeedsRow(w.rows, since, until);
      UnstampedIffEscaped(worlds, events, n, t, i);
      assert InLagRange(w, t, i) && Escaped(worlds, n, i);
    } else {
      forall i: nat | InLagRange(w, t, i) ensures !Escaped(worlds, n, i) {
        UnstampedIffEscaped(worlds, events, n, t, i);
        if w.rows[i].epoch.None? {
          RowIsCounted(w.rows, since, until, i);
        }
      }
    }
  }

  /** The run: one priced request in the first window, nothing after it, and its charge a window late. */
  function LateChargeRow(at: int): SpendRow {
    SpendRow(at, 0, Some(50_000), TokenEstimate, None, None, None)
  }

  function LateChargeTick(at: int, provider: int): Tick {
    Tick(at, provider, Some((0, 0)), 60, 50 * MILLION, 10_000, 20_000)
  }

  function LateChargeEvents(charge: int): seq<Event> {
    [Spends(LateChargeRow(30)), Ticks(LateChargeTick(60, 0), []), Ticks(LateChargeTick(120, charge), [])]
  }

  lemma BusyWindow(charge: int)
    ensures var w := WorldsOf(LateChargeEvents(charge))[2];
            && |w.rows| == 1 && w.rows[0].epoch == Some(0) && w.rows[0].at == 30
            && |w.epochs| == 1 && w.epochs[0].at == 60 && w.epochs[0].provider == 0 && w.epochs[0].result.requestCount == 1
  {
    var events := LateChargeEvents(charge);
    var worlds, t := WorldsOf(events), LateChargeTick(60, 0);
    assert worlds[1] == Apply(worlds[0], events[0]) && worlds[2] == Apply(worlds[1], events[1]);
    assert worlds[1] == World([LateChargeRow(30)], []);
    CountOne(LateChargeRow(30), 0, 60);
    assert WindowStart(worlds[1], t) == 0 && Grade(worlds[1], t).requestCount == 1;
  }

  /** A busy window, then an idle one in which its charge of more than a cent lands: graded phantom. */
  lemma LateChargeIsPhantom(charge: int)
    requires charge > 10_000
    ensures Run(WorldsOf(LateChargeEvents(charge)), LateChargeEvents(charge))
    ensures var w := WorldsOf(LateChargeEvents(charge))[3];
            && |w.epochs| == 2 && w.epochs[0].result.requestCount == 1
            && w.epochs[1].result.phantom && w.epochs[1].result.requestCount == 0
  {
    BusyWindow(charge);
    var events := LateChargeEvents(charge);
    var worlds := WorldsOf(events);
    var w := worlds[2];
    assert worlds[1] == Apply(worlds[0], events[0]) && worlds[3] == Apply(w, events[2]);
    var stamped := w.rows[0];
    assert w.rows == [stamped];
    CountOne(stamped, 60, 120);
    CountOne(stamped, 0, 60);
    assert LagStart(w, LateChargeTick(120, charge)) == 0;
    forall i | 0 <= i < 3 ensures Allowed(worlds[i], events[i]) {
      assert i == 0 || i == 1 || i == 2;
    }
  }

  lemma CountOne(row: SpendRow, since: int, until: int)
    ensures WindowCount([row], since, until) == if InWindow(row, since, until) then 1 else 0
  {
    assert [row][..0] == [];
  }
}
