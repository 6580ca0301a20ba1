/**
 * Which report-outcome pairs may count toward a claim, and the collector that turns the database
 * into score rows while counting every pair it looks at.
 */
module Eligibility {
  import opened Common

  datatype Class = Eligible | Replay | Late | Uncommitted | MissingTime

  const REPLAY_AFTER_MS := 30 * 60_000

  datatype Horizon = H1 | H6 | H24 | H72 | D7

  function HorizonMs(h: Horizon): int {
    match h
    case H1 => 3_600_000
    case H6 => 6 * 3_600_000
    case H24 => 24 * 3_600_000
    case H72 => 72 * 3_600_000
    case D7 => 7 * 24 * 3_600_000
  }

  function Classify(reportTime: int, committed: bool, commitBlockTime: Option<int>,
                    horizonEnd: int): Class {
    if !committed then Uncommitted
    else if commitBlockTime.None? then MissingTime
    else if commitBlockTime.value >= horizonEnd then Late
    else if commitBlockTime.value - reportTime > REPLAY_AFTER_MS then Replay
    else Eligible
  }

  predicate ScannerFetchIsTimely(reportTime: int, fetchedAt: Option<int>) {
    fetchedAt.Some? && fetchedAt.value - reportTime <= REPLAY_AFTER_MS
  }

  // ----- the database

  datatype OutcomeLabel = InsiderExit | SellImpaired | LiqImpaired | Drawdown80 | TradingAlive

  datatype OutcomeKey = OutcomeKey(outcome: OutcomeLabel, horizon: Horizon)

  /** Every scored cell, in its fixed order. */
  const ALL_OUTCOME_KEYS: seq<OutcomeKey> := [
    OutcomeKey(InsiderExit, H6), OutcomeKey(InsiderExit, H24), OutcomeKey(InsiderExit, H72),
    OutcomeKey(SellImpaired, H1), OutcomeKey(SellImpaired, H24),
    OutcomeKey(LiqImpaired, H24), OutcomeKey(LiqImpaired, D7),
    OutcomeKey(Drawdown80, H24), OutcomeKey(Drawdown80, D7),
    OutcomeKey(TradingAlive, H24), OutcomeKey(TradingAlive, D7)]

  /** An observation: one token at one anchor time. */
  datatype ObsKey = ObsKey(chainId: nat, token: nat, anchor: int)

  /** A resolved outcome. */
  datatype Outcome = Outcome(obs: ObsKey, key: OutcomeKey, value: bool)

  /** A forecaster's name: the reference, the computed ones, or any other string. */
  datatype Forecaster = DetV0 | BaseRate | BaseRateFixed | Scanhood | Goplus | Named(name: string)

  datatype Trigger = Launch | Qualified | OtherTrigger

  datatype Report = Report(obs: ObsKey, forecaster: Forecaster, trigger: Trigger, launchId: Option<nat>,
                           commitBlock: Option<nat>, probs: map<OutcomeKey, real>)

  datatype Feature = Feature(launchId: nat, scanhood: map<OutcomeKey, real>, goplus: map<OutcomeKey, real>,
                             scanhoodFetchedAt: Option<int>, goplusFetchedAt: Option<int>)

  /** A resolved observation with its labels, in order of first appearance. */
  datatype Obs = Obs(key: ObsKey, labels: seq<(OutcomeKey, bool)>)

  /** One pair looked at, and how it was classed. */
  datatype Pair = Pair(obs: ObsKey, forecaster: Forecaster, key: OutcomeKey, prob: real, truth: bool, cls: Class)

  datatype Row = Row(obs: ObsKey, forecaster: Forecaster, key: OutcomeKey, prob: real, truth: bool)

  // ----- grouping outcomes by observation

  function LabelOf(labels: seq<(OutcomeKey, bool)>, key: OutcomeKey): Option<bool> {
    if labels == [] then None
    else if labels[0].0 == key then Some(labels[0].1)
    else LabelOf(labels[1..], key)
  }

  /** `Map.set`: replace in place, or append. */
  function SetLabel(labels: seq<(OutcomeKey, bool)>, key: OutcomeKey,
                    value: bool): seq<(OutcomeKey, bool)> {
    if labels == [] then [(key, value)]
    else if labels[0].0 == key then [(key, value)] + labels[1..]
    else [labels[0]] + SetLabel(labels[1..], key, value)
  }

  function FindObs(obs: seq<Obs>, key: ObsKey): Option<Obs> {
    if obs == [] then None
    else if obs[0].key == key then Some(obs[0])
    else FindObs(obs[1..], key)
  }

  function AddOutcome(obs: seq<Obs>, o: Outcome): seq<Obs> {
    if obs == [] then [Obs(o.obs, [(o.key, o.value)])]
    else if obs[0].key == o.obs then [Obs(o.obs, SetLabel(obs[0].labels, o.key, o.value))] + obs[1..]
    else [obs[0]] + AddOutcome(obs[1..], o)
  }

  function GroupOutcomes(outcomes: seq<Outcome>): seq<Obs> {
    if outcomes == [] then [] else AddOutcome(GroupOutcomes(outcomes[..|outcomes| - 1]), outcomes[|outcomes| - 1])
  }

  // ----- which pairs are examined, and how they are classed

  function ReportClass(r: Report, key: OutcomeKey, blockTime: nat -> Option<int>): Class {
    Classify(r.obs.anchor, r.commitBlock.Some?, if r.commitBlock.Some? then blockTime(r.commitBlock.value) else None,
             r.obs.anchor + HorizonMs(key.horizon))
  }

  /** The pairs of one report, over the first keys of the fixed order. */
  function ReportPairs(r: Report, e: Obs, keys: seq<OutcomeKey>,
                       blockTime: nat -> Option<int>): seq<Pair> {
    if keys == [] then []
    else
      var n := |keys| - 1;
      var y := LabelOf(e.labels, keys[n]);
      ReportPairs(r, e, keys[..n], blockTime)
      + (if y.Some? && keys[n] in r.probs then
           [Pair(r.obs, r.forecaster, keys[n], r.probs[keys[n]], y.value, ReportClass(r, keys[n], blockTime))]
         else [])
  }

  function AllReportPairs(reports: seq<Report>, obs: seq<Obs>,
                          blockTime: nat -> Option<int>): seq<Pair> {
    if reports == [] then []
    else
      var n := |reports| - 1;
      var e := FindObs(obs, reports[n].obs);
      AllReportPairs(reports[..n], obs, blockTime)
      + (if e.Some? then ReportPairs(reports[n], e.value, ALL_OUTCOME_KEYS, blockTime) else [])
  }

  /** The class of the first reference pair for an observation and outcome. */
  function RefClass(pairs: seq<Pair>, o: ObsKey, key: OutcomeKey): Option<Class> {
    if pairs == [] then None
    else
      var n := |pairs| - 1;
      var before := RefClass(pairs[..n], o, key);
      if before.Some? then before
      else if pairs[n].forecaster == DetV0 && pairs[n].obs == o && pairs[n].key == key then Some(pairs[n].cls)
      else None
  }

  function Inherited(pairs: seq<Pair>, o: ObsKey, key: OutcomeKey): Class {
    var c := RefClass(pairs, o, key);
    if c.Some? then c.value else Uncommitted
  }

  /** The observation of a launch's earliest launch or qualified report. */
  function LaunchAnchor(reports: seq<Report>, obs: seq<Obs>, launch: nat): Option<ObsKey> {
    if reports == [] then None
    else
      var n := |reports| - 1;
      var before := LaunchAnchor(reports[..n], obs, launch);
      if before.Some? then before
      else if FindObs(obs, reports[n].obs).Some? && reports[n].launchId == Some(launch) && !reports[n].trigger.OtherTrigger? then
        Some(reports[n].obs)
      else None
  }

  /** Both base rates, for the first `n` labels of an observation. */
  function BasePairs(e: Obs, n: nat, refs: seq<Pair>, rate: (OutcomeKey, int) -> real,
                     fixedRate: OutcomeKey -> real): seq<Pair>
    requires n <= |e.labels|
  {
    if n == 0 then []
    else
      var (key, y) := e.labels[n - 1];
      var cls := Inherited(refs, e.key, key);
      BasePairs(e, n - 1, refs, rate, fixedRate)
      + [Pair(e.key, BaseRate, key, rate(key, e.key.anchor), y, cls), Pair(e.key, BaseRateFixed, key, fixedRate(key), y, cls)]
  }

  /** A scanner inherits the reference class, but a late fetch is a replay. */
  function ScannerClass(ref: Class, anchor: int, fetchedAt: Option<int>): Class {
    if ref == Eligible && !ScannerFetchIsTimely(anchor, fetchedAt) then Replay else ref
  }

  function ScannerPair(e: Obs, k: nat, refs: seq<Pair>, name: Forecaster,
                       probs: map<OutcomeKey, real>, fetchedAt: Option<int>): seq<Pair>
    requires k < |e.labels|
  {
    var (key, y) := e.labels[k];
    if key in probs then
      [Pair(e.key, name, key, probs[key], y, ScannerClass(Inherited(refs, e.key, key), e.key.anchor, fetchedAt))]
    else []
  }

  function ScannerPairs(f: Feature, e: Obs, n: nat, refs: seq<Pair>): seq<Pair>
    requires n <= |e.labels|
  {
    if n == 0 then []
    else
      ScannerPairs(f, e, n - 1, refs)
      + ScannerPair(e, n - 1, refs, Scanhood, f.scanhood, f.scanhoodFetchedAt)
      + ScannerPair(e, n - 1, refs, Goplus, f.goplus, f.goplusFetchedAt)
  }

  datatype Database = Database(outcomes: seq<Outcome>, reports: seq<Report>, features: seq<Feature>)

  // ----- counting

  type Counts = map<OutcomeKey, map<Forecaster, map<Class, nat>>>

  function Cell(counts: Counts, key: OutcomeKey, forecaster: Forecaster, c: Class): nat {
    if key in counts && forecaster in counts[key] && c in counts[key][forecaster] then counts[key][forecaster][c] else 0
  }

  /** Increment one cell of the nested record, creating it on the way. */
  function CountExclusion(counts: Counts, key: OutcomeKey, forecaster: Forecaster,
                          c: Class): (r: Counts)
    ensures forall k, f, d :: Cell(r, k, f, d) == Cell(counts, k, f, d) + (if k == key && f == forecaster && d == c then 1 else 0)
  {
    var byF := if key in counts then counts[key] else map[];
    var byE := if forecaster in byF then byF[forecaster] else map[];
    counts[key := byF[forecaster := byE[c := (if c in byE then byE[c] else 0) + 1]]]
  }

  function Tally(pairs: seq<Pair>, key: OutcomeKey, forecaster: Forecaster, c: Class): nat {
    if pairs == [] then 0
    else
      var p := pairs[|pairs| - 1];
      Tally(pairs[..|pairs| - 1], key, forecaster, c) + (if p.key == key && p.forecaster == forecaster && p.cls == c then 1 else 0)
  }

  function RowOf(p: Pair): Row {
    Row(p.obs, p.forecaster, p.key, p.prob, p.truth)
  }

  function RowsOf(pairs: seq<Pair>): seq<Row> {
    if pairs == [] then []
    else
      var p := pairs[|pairs| - 1];
      var before := RowsOf(pairs[..|pairs| - 1]);
      if p.cls == Eligible then before + [RowOf(p)] else before
  }

  // ----- the collector

  /** The nested record holds the tally of these pairs. */
  ghost predicate CountsMatch(counts: Counts, pairs: seq<Pair>) {
    forall k, f, c :: Cell(counts, k, f, c) == Tally(pairs, k, f, c)
  }

  /** The inherited classes are those of the first reference pairs. */
  ghost predicate RefsMatch(refClass: map<(ObsKey, OutcomeKey), Class>, pairs: seq<Pair>) {
    forall o, k :: RefClass(pairs, o, k) == if (o, k) in refClass then Some(refClass[(o, k)]) else None
  }

  lemma CountsMatchSnoc(counts: Counts, pairs: seq<Pair>, p: Pair)
    requires CountsMatch(counts, pairs)
    ensures CountsMatch(CountExclusion(counts, p.key, p.forecaster, p.cls), pairs + [p])
  {
    var r := CountExclusion(counts, p.key, p.forecaster, p.cls);
    assert (pairs + [p])[..|pairs|] == pairs;
    forall k, f, c ensures Cell(r, k, f, c) == Tally(pairs + [p], k, f, c) {
      assert Cell(counts, k, f, c) == Tally(pairs, k, f, c);
    }
  }

  lemma RefsMatchSnoc(refClass: map<(ObsKey, OutcomeKey), Class>, pairs: seq<Pair>, p: Pair)
    requires RefsMatch(refClass, pairs)
    ensures p.forecaster == DetV0 && (p.obs, p.key) !in refClass ==> RefsMatch(refClass[(p.obs, p.key) := p.cls], pairs + [p])
    ensures !(p.forecaster == DetV0 && (p.obs, p.key) !in refClass) ==> RefsMatch(refClass, pairs + [p])
  {
    var first := p.forecaster == DetV0 && (p.obs, p.key) !in refClass;
    var r := if first then refClass[(p.obs, p.key) := p.cls] else refClass;
    assert (pairs + [p])[..|pairs|] == pairs;
    forall o, k ensures RefClass(pairs + [p], o, k) == if (o, k) in r then Some(r[(o, k)]) else None {
      assert RefClass(pairs, o, k) == if (o, k) in refClass then Some(refClass[(o, k)]) else None;
    }
  }

  lemma RowsOfSnoc(pairs: seq<Pair>, p: Pair)
    ensures RowsOf(pairs + [p]) == if p.cls == Eligible then RowsOf(pairs) + [RowOf(p)] else RowsOf(pairs)
  {
    assert (pairs + [p])[..|pairs|] == pairs;
  }

  class Collector {
    var rows: seq<Row>
    var exclusions: Counts
    var refClass: map<(ObsKey, OutcomeKey), Class>
    ghost var examined: seq<Pair>

    /** Rows and counts account for exactly the pairs examined so far. */
    ghost predicate Valid()
      reads this
    {
      && rows == RowsOf(examined)
      && CountsMatch(exclusions, examined)
      && RefsMatch(refClass, examined)
    }

    constructor ()
      ensures Valid() && examined == []
    {
      rows, exclusions, refClass, examined := [], map[], map[], [];
    }

    /** Count a classified pair, and keep it as a row if it is eligible. */
    method Note(p: Pair)
      requires Valid()
      modifies this
      ensures Valid() && examined == old(examined) + [p]
    {
      CountsMatchSnoc(exclusions, examined, p);
      RefsMatchSnoc(refClass, examined, p);
      RowsOfSnoc(examined, p);
      exclusions := CountExclusion(exclusions, p.key, p.forecaster, p.cls);
      if p.forecaster == DetV0 && (p.obs, p.key) !in refClass {
        refClass := refClass[(p.obs, p.key) := p.cls];
      }
      if p.cls == Eligible {
        rows := rows + [RowOf(p)];
      }
      examined := examined + [p];
    }

    function Inherit(o: ObsKey, key: OutcomeKey): (cls: Class)
      reads this
      requires Valid()
      ensures cls == Inherited(examined, o, key)
    {
      assert RefClass(examined, o, key) == if (o, key) in refClass then Some(refClass[(o, key)]) else None;
      if (o, key) in refClass then refClass[(o, key)] else Uncommitted
    }

    method AddReport(r: Report, e: Obs, blockTime: nat -> Option<int>)
      requires Valid()
      modifies this
      ensures Valid() && examined == old(examined) + ReportPairs(r, e, ALL_OUTCOME_KEYS, blockTime)
    {
      var keys := ALL_OUTCOME_KEYS;
      for i := 0 to |keys|
        invariant Valid() && examined == old(examined) + ReportPairs(r, e, keys[..i], blockTime)
      {
        assert keys[..i + 1][..i] == keys[..i];
        ghost var before := examined;
        var key := keys[i];
        var y := LabelOf(e.labels, key);
        if y.Some? && key in r.probs {
          var commitTime := if r.commitBlock.Some? then blockTime(r.commitBlock.value) else None;
          var cls := Classify(r.obs.anchor, r.commitBlock.Some?, commitTime, r.obs.anchor + HorizonMs(key.horizon));
          Note(Pair(r.obs, r.forecaster, key, r.probs[key], y.value, cls));
        }
      }
      assert keys[..|keys|] == keys;
    }

    method AddBaseRates(e: Obs, rate: (OutcomeKey, int) -> real, fixedRate: OutcomeKey -> real,
                        ghost refs: seq<Pair>)
      requires Valid() && SameReferences(examined, refs)
      modifies this
      ensures Valid() && SameReferences(examined, refs)
      ensures examined == old(examined) + BasePairs(e, |e.labels|, refs, rate, fixedRate)
    {
      for i := 0 to |e.labels|
        invariant Valid() && SameReferences(examined, refs)
        invariant examined == old(examined) + BasePairs(e, i, refs, rate, fixedRate)
      {
        var (key, y) := e.labels[i];
        var cls := Inherit(e.key, key);
        SameInherited(examined, refs, e.key, key);
        var p := Pair(e.key, BaseRate, key, rate(key, e.key.anchor), y, cls);
        var q := Pair(e.key, BaseRateFixed, key, fixedRate(key), y, cls);
        Regroup(old(examined), BasePairs(e, i, refs, rate, fixedRate), [p, q]);
        Regroup(examined, [p], [q]);
        assert [p] + [q] == [p, q];
        NotReference(examined, refs, p);
        Note(p);
        NotReference(examined, refs, q);
        Note(q);
      }
    }

    method AddScanner(e: Obs, k: nat, name: Forecaster, probs: map<OutcomeKey, real>,
                      fetchedAt: Option<int>, ghost refs: seq<Pair>)
      requires Valid() && SameReferences(examined, refs) && k < |e.labels| && name != DetV0
      modifies this
      ensures Valid() && SameReferences(examined, refs)
      ensures examined == old(examined) + ScannerPair(e, k, refs, name, probs, fetchedAt)
    {
      var (key, y) := e.labels[k];
      var ref := Inherit(e.key, key);
      SameInherited(examined, refs, e.key, key);
      if key in probs {
        var cls := if ref == Eligible && !ScannerFetchIsTimely(e.key.anchor, fetchedAt) then Replay else ref;
        NotReference(examined, refs, Pair(e.key, name, key, probs[key], y, cls));
        Note(Pair(e.key, name, key, probs[key], y, cls));
      }
    }

    method AddFeature(f: Feature, e: Obs, ghost refs: seq<Pair>)
      requires Valid() && SameReferences(examined, refs)
      modifies this
      ensures Valid() && SameReferences(examined, refs)
      ensures examined == old(examined) + ScannerPairs(f, e, |e.labels|, refs)
    {
      for i := 0 to |e.labels|
        invariant Valid() && SameReferences(examined, refs)
        invariant examined == old(examined) + ScannerPairs(f, e, i, refs)
      {
        ghost var a := ScannerPairs(f, e, i, refs);
        ghost var b := ScannerPair(e, i, refs, Scanhood, f.scanhood, f.scanhoodFetchedAt);
        ghost var c := ScannerPair(e, i, refs, Goplus, f.goplus, f.goplusFetchedAt);
        AddScanner(e, i, Scanhood, f.scanhood, f.scanhoodFetchedAt, refs);
        AddScanner(e, i, Goplus, f.goplus, f.goplusFetchedAt, refs);
        Regroup(old(examined), a, b);
        Regroup(old(examined), a + b, c);
      }
    }
  }

  /** Concatenation associates. */
  lemma Regroup(a: seq<Pair>, b: seq<Pair>, c: seq<Pair>)
    ensures a + b + c == a + (b + c)
  {
  }

  /** Both lists give every observation the same reference class. */
  ghost predicate SameReferences(a: seq<Pair>, b: seq<Pair>) {
    forall o, k :: RefClass(a, o, k) == RefClass(b, o, k)
  }

  lemma SameInherited(a: seq<Pair>, b: seq<Pair>, o: ObsKey, k: OutcomeKey)
    requires SameReferences(a, b)
    ensures Inherited(a, o, k) == Inherited(b, o, k)
  {
    assert RefClass(a, o, k) == RefClass(b, o, k);
  }

  /** A pair of another forecaster leaves the reference classes alone. */
  lemma NotReference(a: seq<Pair>, refs: seq<Pair>, p: Pair)
    requires SameReferences(a, refs) && p.forecaster != DetV0
    ensures SameReferences(a + [p], refs)
  {
    assert (a + [p])[..|a|] == a;
    forall o, k ensures RefClass(a + [p], o, k) == RefClass(refs, o, k) {
      assert RefClass(a, o, k) == RefClass(refs, o, k);
    }
  }
}
