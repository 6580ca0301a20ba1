/** No row that is due is missing: timely forecasts, and the base rates and scans of a timely reference. */
module Completeness {
  import opened Common
  import opened Eligibility
  import opened Grouping
  import opened Collect
  import opened References
  import opened Entitlement

  // ----- forecasts of reports

  /** The pair a report makes for a labelled outcome it forecasts, if its commit was timely. */
  function TimelyPair(r: Report, key: OutcomeKey, y: bool): Pair
    requires key in r.probs
  {
    Pair(r.obs, r.forecaster, key, r.probs[key], y, Eligible)
  }

  lemma {:induction false} ReportPairsComplete(r: Report, e: Obs, keys: seq<OutcomeKey>,
        blockTime: nat -> Option<int>, key: OutcomeKey)
    requires key in keys && key in r.probs && LabelOf(e.labels, key).Some?
    requires TimelyFrom(TimelyPair(r, key, LabelOf(e.labels, key).value), r, blockTime)
    ensures TimelyPair(r, key, LabelOf(e.labels, key).value) in ReportPairs(r, e, keys, blockTime)
  {
    var n := |keys| - 1;
    if key != keys[n] {
      assert key in keys[..n];
      ReportPairsComplete(r, e, keys[..n], blockTime, key);
    }
  }

  lemma {:induction false} AllReportPairsComplete(reports: seq<Report>, obs: seq<Obs>,
        blockTime: nat -> Option<int>, i: nat, p: Pair)
    requires i < |reports| && FindObs(obs, reports[i].obs).Some?
    requires p in ReportPairs(reports[i], FindObs(obs, reports[i].obs).value, ALL_OUTCOME_KEYS, blockTime)
    ensures p in AllReportPairs(reports, obs, blockTime)
  {
    var n := |reports| - 1;
    if i < n {
      AllReportPairsComplete(reports[..n], obs, blockTime, i, p);
    }
  }

  lemma {:induction false} EligiblePairHasRow(pairs: seq<Pair>, p: Pair)
    requires p in pairs && p.cls == Eligible
    ensures RowOf(p) in RowsOf(pairs)
  {
    var n := |pairs| - 1;
    if p != pairs[n] {
      assert p in pairs[..n];
      EligiblePairHasRow(pairs[..n], p);
    }
  }

  /** Every forecast of a resolved, scored outcome whose report was committed in time becomes a row. */
  lemma TimelyForecastHasRow(db: Database, blockTime: nat -> Option<int>, rate: (OutcomeKey, int) -> real,
                             fixedRate: OutcomeKey -> real, i: nat, key: OutcomeKey, y: bool)
    requires i < |db.reports| && Scored(key) && key in db.reports[i].probs
    requires ResolvedTo(db.outcomes, db.reports[i].obs, key, y)
    requires TimelyFrom(TimelyPair(db.reports[i], key, y), db.reports[i], blockTime)
    ensures RowOf(TimelyPair(db.reports[i], key, y)) in RowsOf(Examined(db, blockTime, rate, fixedRate))
  {
    var obs, r := GroupOutcomes(db.outcomes), db.reports[i];
    LabelIff(db.outcomes, r.obs, key, y);
    ScoredIff(key);
    assert LabelsAt(obs, r.obs) != [];
    var e := FindObs(obs, r.obs).value;
    ReportPairsComplete(r, e, ALL_OUTCOME_KEYS, blockTime, key);
    AllReportPairsComplete(db.reports, obs, blockTime, i, TimelyPair(r, key, y));
    EligiblePairHasRow(Examined(db, blockTime, rate, fixedRate), TimelyPair(r, key, y));
  }

  // ----- base rates

  lemma {:induction false} LabelIndex(labels: seq<(OutcomeKey, bool)>, key: OutcomeKey) returns (l: nat)
    requires LabelOf(labels, key).Some?
    ensures l < |labels| && labels[l] == (key, LabelOf(labels, key).value)
  {
    if labels[0].0 == key {
      l := 0;
    } else {
      l := LabelIndex(labels[1..], key);
      l := l + 1;
    }
  }

  /** Where a resolved outcome is found among the grouped observations. */
  lemma ResolvedIndex(outcomes: seq<Outcome>, o: ObsKey, key: OutcomeKey, y: bool) returns (k: nat, l: nat)
    requires ResolvedTo(outcomes, o, key, y)
    ensures var obs := GroupOutcomes(outcomes);
            && k < |obs| && obs[k].key == o && FindObs(obs, o) == Some(obs[k])
            && l < |obs[k].labels| && obs[k].labels[l] == (key, y)
  {
    LabelIff(outcomes, o, key, y);
    var obs := GroupOutcomes(outcomes);
    assert LabelsAt(obs, o) != [];
    k := FindIndex(obs, o);
    l := LabelIndex(obs[k].labels, key);
  }

  /** Both base rates of the label at `l`. */
  lemma {:induction false} BasePairsComplete(e: Obs, n: nat, refs: seq<Pair>, rate: (OutcomeKey, int) -> real,
                                             fixedRate: OutcomeKey -> real, l: nat)
    requires l < n <= |e.labels|
    ensures var (key, y) := e.labels[l];
            var cls, pairs := Inherited(refs, e.key, key), BasePairs(e, n, refs, rate, fixedRate);
            && Pair(e.key, BaseRate, key, rate(key, e.key.anchor), y, cls) in pairs
            && Pair(e.key, BaseRateFixed, key, fixedRate(key), y, cls) in pairs
  {
    if l < n - 1 {
      BasePairsComplete(e, n - 1, refs, rate, fixedRate, l);
    } else {
      var (key, y) := e.labels[l];
      var cls := Inherited(refs, e.key, key);
      var p := Pair(e.key, BaseRate, key, rate(key, e.key.anchor), y, cls);
      var q := Pair(e.key, BaseRateFixed, key, fixedRate(key), y, cls);
      assert [p, q][0] == p && [p, q][1] == q;
    }
  }

  lemma {:induction false} AllBasePairsComplete(obs: seq<Obs>, refs: seq<Pair>, rate: (OutcomeKey, int) -> real,
                                                fixedRate: OutcomeKey -> real, k: nat, p: Pair)
    requires k < |obs| && p in BasePairs(obs[k], |obs[k].labels|, refs, rate, fixedRate)
    ensures p in AllBasePairs(obs, refs, rate, fixedRate)
  {
    var n := |obs| - 1;
    if k < n {
      AllBasePairsComplete(obs[..n], refs, rate, fixedRate, k, p);
    }
  }

  /** The first reference forecast of a resolved outcome, committed in time, makes the inherited class eligible. */
  lemma TimelyReferenceInherits(db: Database, blockTime: nat -> Option<int>, i: nat, key: OutcomeKey, y: bool)
    requires i < |db.reports| && IsFirstReference(db.reports, i, db.reports[i].obs, key)
    requires CommittedInTime(db.reports[i], key, blockTime) && ResolvedTo(db.outcomes, db.reports[i].obs, key, y)
    ensures Inherited(AllReportPairs(db.reports, GroupOutcomes(db.outcomes), blockTime), db.reports[i].obs, key) == Eligible
  {
    var o := db.reports[i].obs;
    InheritedIs(db.reports, db.outcomes, blockTime, o, key, y);
    assert FirstClass(db.reports, blockTime, o, key, Some(Eligible));
    OneReferenceClass(db.reports, blockTime, o, key, Eligible,
                      Inherited(AllReportPairs(db.reports, GroupOutcomes(db.outcomes), blockTime), o, key));
  }

  /** Where the first reference forecast of a resolved outcome was committed in time, both base rates become rows. */
  lemma BaseRatesHaveRows(db: Database, blockTime: nat -> Option<int>, rate: (OutcomeKey, int) -> real,
                          fixedRate: OutcomeKey -> real, i: nat, key: OutcomeKey, y: bool)
    requires i < |db.reports| && IsFirstReference(db.reports, i, db.reports[i].obs, key)
    requires CommittedInTime(db.reports[i], key, blockTime) && ResolvedTo(db.outcomes, db.reports[i].obs, key, y)
    ensures var o, rows := db.reports[i].obs, RowsOf(Examined(db, blockTime, rate, fixedRate));
            Row(o, BaseRate, key, rate(key, o.anchor), y) in rows && Row(o, BaseRateFixed, key, fixedRate(key), y) in rows
  {
    var o, obs := db.reports[i].obs, GroupOutcomes(db.outcomes);
    var refs := AllReportPairs(db.reports, obs, blockTime);
    TimelyReferenceInherits(db, blockTime, i, key, y);
    var k, l := ResolvedIndex(db.outcomes, o, key, y);
    BasePairsComplete(obs[k], |obs[k].labels|, refs, rate, fixedRate, l);
    var p := Pair(o, BaseRate, key, rate(key, o.anchor), y, Eligible);
    var q := Pair(o, BaseRateFixed, key, fixedRate(key), y, Eligible);
    AllBasePairsComplete(obs, refs, rate, fixedRate, k, p);
    AllBasePairsComplete(obs, refs, rate, fixedRate, k, q);
    EligiblePairHasRow(Examined(db, blockTime, rate, fixedRate), p);
    EligiblePairHasRow(Examined(db, blockTime, rate, fixedRate), q);
  }

  // ----- scans

  lemma {:induction false} ScannerPairsComplete(f: Feature, e: Obs, n: nat, refs: seq<Pair>, l: nat, p: Pair)
    requires l < n <= |e.labels|
    requires p in ScannerPair(e, l, refs, Scanhood, f.scanhood, f.scanhoodFetchedAt)
          || p in ScannerPair(e, l, refs, Goplus, f.goplus, f.goplusFetchedAt)
    ensures p in ScannerPairs(f, e, n, refs)
  {
    if l < n - 1 {
      ScannerPairsComplete(f, e, n - 1, refs, l, p);
    }
  }

  lemma {:induction false} AllScannerPairsComplete(features: seq<Feature>, db: Database, obs: seq<Obs>, refs: seq<Pair>,
                                                   f: Feature, p: Pair)
    requires f in features && p in FeaturePairs(f, db, obs, refs)
    ensures p in AllScannerPairs(features, db, obs, refs)
  {
    var n := |features| - 1;
    if f != features[n] {
      assert f in features[..n];
      AllScannerPairsComplete(features[..n], db, obs, refs, f, p);
    }
  }

  /** The pair a timely scan makes. */
  function ScanPair(o: ObsKey, name: Forecaster, key: OutcomeKey, prob: real, y: bool): Pair {
    Pair(o, name, key, prob, y, Eligible)
  }

  lemma ScanPairExamined(db: Database, blockTime: nat -> Option<int>, rate: (OutcomeKey, int) -> real,
                         fixedRate: OutcomeKey -> real, i: nat, key: OutcomeKey, y: bool, f: Feature, p: Pair)
    requires i < |db.reports| && IsFirstReference(db.reports, i, db.reports[i].obs, key)
    requires CommittedInTime(db.reports[i], key, blockTime) && ResolvedTo(db.outcomes, db.reports[i].obs, key, y)
    requires f in db.features && AnchoredAt(db.outcomes, db.reports, f.launchId, db.reports[i].obs)
    requires p.obs == db.reports[i].obs && p.key == key && p.truth == y && p.cls == Eligible && TimelyScan(p, f)
    ensures RowOf(p) in RowsOf(Examined(db, blockTime, rate, fixedRate))
  {
    var o, obs := p.obs, GroupOutcomes(db.outcomes);
    var refs := AllReportPairs(db.reports, obs, blockTime);
    TimelyReferenceInherits(db, blockTime, i, key, y);
    var k, l := ResolvedIndex(db.outcomes, o, key, y);
    AnchorIff(db.outcomes, db.reports, f.launchId, o);
    ScannerPairsComplete(f, obs[k], |obs[k].labels|, refs, l, p);
    AllScannerPairsComplete(db.features, db, obs, refs, f, p);
    EligiblePairHasRow(Examined(db, blockTime, rate, fixedRate), p);
  }

  /** Where the reference was committed in time, a timely scan of the launch anchored there becomes a row. */
  lemma TimelyScanHasRow(db: Database, blockTime: nat -> Option<int>, rate: (OutcomeKey, int) -> real,
                         fixedRate: OutcomeKey -> real, i: nat, key: OutcomeKey, y: bool, f: Feature)
    requires i < |db.reports| && IsFirstReference(db.reports, i, db.reports[i].obs, key)
    requires CommittedInTime(db.reports[i], key, blockTime) && ResolvedTo(db.outcomes, db.reports[i].obs, key, y)
    requires f in db.features && AnchoredAt(db.outcomes, db.reports, f.launchId, db.reports[i].obs)
    ensures var o, rows := db.reports[i].obs, RowsOf(Examined(db, blockTime, rate, fixedRate));
            && (key in f.scanhood && FetchedInTime(o.anchor, f.scanhoodFetchedAt) ==>
                  Row(o, Scanhood, key, f.scanhood[key], y) in rows)
            && (key in f.goplus && FetchedInTime(o.anchor, f.goplusFetchedAt) ==>
                  Row(o, Goplus, key, f.goplus[key], y) in rows)
  {
    var o := db.reports[i].obs;
    if key in f.scanhood && FetchedInTime(o.anchor, f.scanhoodFetchedAt) {
      ScanPairExamined(db, blockTime, rate, fixedRate, i, key, y, f, ScanPair(o, Scanhood, key, f.scanhood[key], y));
    }
    if key in f.goplus && FetchedInTime(o.anchor, f.goplusFetchedAt) {
      ScanPairExamined(db, blockTime, rate, fixedRate, i, key, y, f, ScanPair(o, Goplus, key, f.goplus[key], y));
    }
  }
}
