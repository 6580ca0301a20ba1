/** Collecting score rows from the whole database, and what the result accounts for. */
module Collect {
  import opened Common
  import opened Eligibility

  function AllBasePairs(obs: seq<Obs>, refs: seq<Pair>, rate: (OutcomeKey, int) -> real,
                        fixedRate: OutcomeKey -> real): seq<Pair> {
    if obs == [] then []
    else
      var e := obs[|obs| - 1];
      AllBasePairs(obs[..|obs| - 1], refs, rate, fixedRate) + BasePairs(e, |e.labels|, refs, rate, fixedRate)
  }

  function FeaturePairs(f: Feature, db: Database, obs: seq<Obs>, refs: seq<Pair>): seq<Pair> {
    var k := LaunchAnchor(db.reports, obs, f.launchId);
    if k.None? then []
    else
      var e := FindObs(obs, k.value);
      if e.None? then [] else ScannerPairs(f, e.value, |e.value.labels|, refs)
  }

  function AllScannerPairs(features: seq<Feature>, db: Database, obs: seq<Obs>,
                           refs: seq<Pair>): seq<Pair> {
    if features == [] then []
    else AllScannerPairs(features[..|features| - 1], db, obs, refs) + FeaturePairs(features[|features| - 1], db, obs, refs)
  }

  /** Every pair a collection looks at: reports first, then both base rates, then the scanners. */
  function Examined(db: Database, blockTime: nat -> Option<int>,
                    rate: (OutcomeKey, int) -> real, fixedRate: OutcomeKey -> real): seq<Pair> {
    var obs := GroupOutcomes(db.outcomes);
    var refs := AllReportPairs(db.reports, obs, blockTime);
    refs + AllBasePairs(obs, refs, rate, fixedRate) + AllScannerPairs(db.features, db, obs, refs)
  }

  // ----- the collection

  method GroupAll(outcomes: seq<Outcome>) returns (obs: seq<Obs>)
    ensures obs == GroupOutcomes(outcomes)
  {
    obs := [];
    for i := 0 to |outcomes|
      invariant obs == GroupOutcomes(outcomes[..i])
    {
      assert outcomes[..i + 1][..i] == outcomes[..i];
      obs := AddOutcome(obs, outcomes[i]);
    }
    assert outcomes[..|outcomes|] == outcomes;
  }

  method AddReports(c: Collector, reports: seq<Report>, obs: seq<Obs>,
                    blockTime: nat -> Option<int>) returns (launchAnchor: map<nat, ObsKey>)
    requires c.Valid() && c.examined == []
    modifies c
    ensures c.Valid() && c.examined == AllReportPairs(reports, obs, blockTime)
    ensures AnchorsMatch(launchAnchor, reports, obs)
  {
    launchAnchor := map[];
    for i := 0 to |reports|
      invariant c.Valid() && c.examined == AllReportPairs(reports[..i], obs, blockTime)
      invariant forall l: nat :: LaunchAnchor(reports[..i], obs, l) == if l in launchAnchor then Some(launchAnchor[l]) else None
    {
      assert reports[..i + 1][..i] == reports[..i];
      var r := reports[i];
      var e := FindObs(obs, r.obs);
      if e.Some? {
        if r.launchId.Some? && !r.trigger.OtherTrigger? && r.launchId.value !in launchAnchor {
          launchAnchor := launchAnchor[r.launchId.value := r.obs];
        }
        c.AddReport(r, e.value, blockTime);
      }
    }
    assert reports[..|reports|] == reports;
  }

  method AddAllBaseRates(c: Collector, obs: seq<Obs>, rate: (OutcomeKey, int) -> real,
                         fixedRate: OutcomeKey -> real, ghost refs: seq<Pair>)
    requires c.Valid() && c.examined == refs
    modifies c
    ensures c.Valid() && SameReferences(c.examined, refs)
    ensures c.examined == refs + AllBasePairs(obs, refs, rate, fixedRate)
  {
    for i := 0 to |obs|
      invariant c.Valid() && SameReferences(c.examined, refs)
      invariant c.examined == refs + AllBasePairs(obs[..i], refs, rate, fixedRate)
    {
      assert obs[..i + 1][..i] == obs[..i];
      Regroup(refs, AllBasePairs(obs[..i], refs, rate, fixedRate), BasePairs(obs[i], |obs[i].labels|, refs, rate, fixedRate));
      c.AddBaseRates(obs[i], rate, fixedRate, refs);
    }
    assert obs[..|obs|] == obs;
  }

  ghost predicate AnchorsMatch(launchAnchor: map<nat, ObsKey>, reports: seq<Report>,
                               obs: seq<Obs>) {
    forall l: nat :: LaunchAnchor(reports, obs, l) == if l in launchAnchor then Some(launchAnchor[l]) else None
  }

  method AddFeature(c: Collector, f: Feature, db: Database, obs: seq<Obs>,
                    launchAnchor: map<nat, ObsKey>, ghost refs: seq<Pair>)
    requires c.Valid() && SameReferences(c.examined, refs) && AnchorsMatch(launchAnchor, db.reports, obs)
    modifies c
    ensures c.Valid() && SameReferences(c.examined, refs)
    ensures c.examined == old(c.examined) + FeaturePairs(f, db, obs, refs)
  {
    assert LaunchAnchor(db.reports, obs, f.launchId) == if f.launchId in launchAnchor then Some(launchAnchor[f.launchId]) else None;
    if f.launchId in launchAnchor {
      var e := FindObs(obs, launchAnchor[f.launchId]);
      if e.Some? {
        c.AddFeature(f, e.value, refs);
      }
    }
  }

  method AddFeatures(c: Collector, db: Database, obs: seq<Obs>, launchAnchor: map<nat, ObsKey>,
                     ghost refs: seq<Pair>)
    requires c.Valid() && SameReferences(c.examined, refs) && AnchorsMatch(launchAnchor, db.reports, obs)
    modifies c
    ensures c.Valid() && c.examined == old(c.examined) + AllScannerPairs(db.features, db, obs, refs)
  {
    for i := 0 to |db.features|
      invariant c.Valid() && SameReferences(c.examined, refs)
      invariant c.examined == old(c.examined) + AllScannerPairs(db.features[..i], db, obs, refs)
    {
      assert db.features[..i + 1][..i] == db.features[..i];
      Regroup(old(c.examined), AllScannerPairs(db.features[..i], db, obs, refs), FeaturePairs(db.features[i], db, obs, refs));
      AddFeature(c, db.features[i], db, obs, launchAnchor, refs);
    }
    assert db.features[..|db.features|] == db.features;
  }

  /** The books balance: as many rows as eligible pairs, and the classes add up to the pairs examined. */
  ghost predicate Balanced(rows: seq<Row>, counts: Counts, examined: seq<Pair>) {
    forall k, f {:trigger RowCount(rows, k, f)} ::
      && RowCount(rows, k, f) == Cell(counts, k, f, Eligible)
      && CellTotal(counts, k, f) == PairCount(examined, k, f)
  }

  /**
   * The collection examines exactly the listed pairs; its rows are the eligible ones among them,
   * its counts are their tally per outcome, forecaster and class, and the two balance.
   */
  method CollectScoreRows(db: Database, blockTime: nat -> Option<int>,
                          rate: (OutcomeKey, int) -> real, fixedRate: OutcomeKey -> real)
    returns (rows: seq<Row>, exclusions: Counts)
    ensures rows == RowsOf(Examined(db, blockTime, rate, fixedRate))
    ensures CountsMatch(exclusions, Examined(db, blockTime, rate, fixedRate))
    ensures Balanced(rows, exclusions, Examined(db, blockTime, rate, fixedRate))
  {
    var c := new Collector();
    var obs := GroupAll(db.outcomes);
    if |obs| == 0 {
      NothingToExamine(db, blockTime, rate, fixedRate);
    } else {
      ghost var refs := AllReportPairs(db.reports, obs, blockTime);
      var launchAnchor := AddReports(c, db.reports, obs, blockTime);
      AddAllBaseRates(c, obs, rate, fixedRate, refs);
      AddFeatures(c, db, obs, launchAnchor, refs);
    }
    assert c.examined == Examined(db, blockTime, rate, fixedRate);
    BooksBalance(c.exclusions, c.examined);
    return c.rows, c.exclusions;
  }

  lemma {:induction false} NoReportPairs(reports: seq<Report>, blockTime: nat -> Option<int>)
    ensures AllReportPairs(reports, [], blockTime) == []
  {
    if reports != [] {
      NoReportPairs(reports[..|reports| - 1], blockTime);
    }
  }

  lemma {:induction false} NoAnchor(reports: seq<Report>, launch: nat)
    ensures LaunchAnchor(reports, [], launch) == None
  {
    if reports != [] {
      NoAnchor(reports[..|reports| - 1], launch);
    }
  }

  lemma {:induction false} NoScannerPairs(features: seq<Feature>, db: Database, refs: seq<Pair>)
    ensures AllScannerPairs(features, db, [], refs) == []
  {
    if features != [] {
      NoScannerPairs(features[..|features| - 1], db, refs);
      NoAnchor(db.reports, features[|features| - 1].launchId);
    }
  }

  lemma NothingToExamine(db: Database, blockTime: nat -> Option<int>,
                         rate: (OutcomeKey, int) -> real, fixedRate: OutcomeKey -> real)
    requires GroupOutcomes(db.outcomes) == []
    ensures Examined(db, blockTime, rate, fixedRate) == []
  {
    NoReportPairs(db.reports, blockTime);
    NoScannerPairs(db.features, db, []);
  }

  // ----- the books balance

  function RowCount(rows: seq<Row>, key: OutcomeKey, forecaster: Forecaster): nat {
    if rows == [] then 0
    else
      var r := rows[|rows| - 1];
      RowCount(rows[..|rows| - 1], key, forecaster) + (if r.key == key && r.forecaster == forecaster then 1 else 0)
  }

  function PairCount(pairs: seq<Pair>, key: OutcomeKey, forecaster: Forecaster): nat {
    if pairs == [] then 0
    else
      var p := pairs[|pairs| - 1];
      PairCount(pairs[..|pairs| - 1], key, forecaster) + (if p.key == key && p.forecaster == forecaster then 1 else 0)
  }

  function CellTotal(counts: Counts, key: OutcomeKey, f: Forecaster): nat {
    Cell(counts, key, f, Eligible) + Cell(counts, key, f, Replay) + Cell(counts, key, f, Late)
    + Cell(counts, key, f, Uncommitted) + Cell(counts, key, f, MissingTime)
  }

  function TallyTotal(pairs: seq<Pair>, key: OutcomeKey, f: Forecaster): nat {
    Tally(pairs, key, f, Eligible) + Tally(pairs, key, f, Replay) + Tally(pairs, key, f, Late)
    + Tally(pairs, key, f, Uncommitted) + Tally(pairs, key, f, MissingTime)
  }

  lemma RowCountSnoc(rows: seq<Row>, row: Row, key: OutcomeKey, f: Forecaster)
    ensures RowCount(rows + [row], key, f) == RowCount(rows, key, f) + (if row.key == key && row.forecaster == f then 1 else 0)
  {
    assert (rows + [row])[..|rows|] == rows;
  }

  lemma {:induction false} RowsAreEligible(pairs: seq<Pair>, key: OutcomeKey, f: Forecaster)
    ensures RowCount(RowsOf(pairs), key, f) == Tally(pairs, key, f, Eligible)
  {
    if pairs != [] {
      var n := |pairs| - 1;
      RowsAreEligible(pairs[..n], key, f);
      var p := pairs[n];
      assert pairs[..n] + [p] == pairs;
      RowsOfSnoc(pairs[..n], p);
      RowCountSnoc(RowsOf(pairs[..n]), RowOf(p), key, f);
    }
  }

  lemma {:induction false} ClassesAddUp(pairs: seq<Pair>, key: OutcomeKey, f: Forecaster)
    ensures TallyTotal(pairs, key, f) == PairCount(pairs, key, f)
  {
    if pairs != [] {
      ClassesAddUp(pairs[..|pairs| - 1], key, f);
    }
  }

  lemma BooksBalance(counts: Counts, pairs: seq<Pair>)
    requires CountsMatch(counts, pairs)
    ensures Balanced(RowsOf(pairs), counts, pairs)
  {
    forall k, f ensures RowCount(RowsOf(pairs), k, f) == Cell(counts, k, f, Eligible) && CellTotal(counts, k, f) == PairCount(pairs, k, f) {
      RowsAreEligible(pairs, k, f);
      ClassesAddUp(pairs, k, f);
    }
  }
}
