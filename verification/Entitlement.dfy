/** What entitles a score row to count, stated over the database. */
module Entitlement {
  import opened Common
  import opened Eligibility
  import opened Grouping
  import opened References
  import opened Collect

  // ----- report-backed rows

  /** The pair comes from a report committed before its horizon ended and within half an hour of its anchor. */
  ghost predicate TimelyReport(p: Pair, reports: seq<Report>, blockTime: nat -> Option<int>) {
    exists i :: 0 <= i < |reports| && TimelyFrom(p, reports[i], blockTime)
  }

  ghost predicate TimelyFrom(p: Pair, r: Report, blockTime: nat -> Option<int>) {
    SameForecast(p, r) && CommittedInTime(r, p.key, blockTime)
  }

  lemma {:induction false} ReportPairTruth(r: Report, e: Obs, keys: seq<OutcomeKey>,
        blockTime: nat -> Option<int>, p: Pair)
    requires p in ReportPairs(r, e, keys, blockTime)
    ensures p.obs == r.obs && LabelOf(e.labels, p.key) == Some(p.truth)
  {
    if keys != [] {
      var n := |keys| - 1;
      if p in ReportPairs(r, e, keys[..n], blockTime) {
        ReportPairTruth(r, e, keys[..n], blockTime, p);
      }
    }
  }

  lemma {:induction false} ReportRowTruth(reports: seq<Report>, outcomes: seq<Outcome>,
        blockTime: nat -> Option<int>, p: Pair)
    requires p in AllReportPairs(reports, GroupOutcomes(outcomes), blockTime)
    ensures ResolvedTo(outcomes, p.obs, p.key, p.truth)
  {
    if reports != [] {
      var n := |reports| - 1;
      var obs := GroupOutcomes(outcomes);
      if p in AllReportPairs(reports[..n], obs, blockTime) {
        ReportRowTruth(reports[..n], outcomes, blockTime, p);
      } else {
        var e := FindObs(obs, reports[n].obs);
        ReportPairTruth(reports[n], e.value, ALL_OUTCOME_KEYS, blockTime, p);
        LabelIff(outcomes, p.obs, p.key, p.truth);
      }
    }
  }

  // ----- the reference a computed row inherits from

  /** The first reference report for the same observation and outcome, itself committed in time. */
  ghost predicate TimelyReference(db: Database, blockTime: nat -> Option<int>, o: ObsKey,
                                  key: OutcomeKey) {
    FirstClass(db.reports, blockTime, o, key, Some(Eligible))
  }

  // ----- base-rate rows

  /** The pair is one of the two base rates, with that rate's own value. */
  ghost predicate IsBaseRate(p: Pair, rate: (OutcomeKey, int) -> real,
                             fixedRate: OutcomeKey -> real) {
    || (p.forecaster == BaseRate && p.prob == rate(p.key, p.obs.anchor))
    || (p.forecaster == BaseRateFixed && p.prob == fixedRate(p.key))
  }

  lemma {:induction false} BasePair(e: Obs, n: nat, refs: seq<Pair>,
                                    rate: (OutcomeKey, int) -> real,
                                    fixedRate: OutcomeKey -> real, p: Pair)
    returns (l: nat)
    requires n <= |e.labels| && p in BasePairs(e, n, refs, rate, fixedRate)
    ensures l < |e.labels| && p.obs == e.key && (p.key, p.truth) == e.labels[l]
    ensures IsBaseRate(p, rate, fixedRate)
    ensures p.cls == Eligible ==> Inherited(refs, p.obs, p.key) == Eligible
  {
    if p in BasePairs(e, n - 1, refs, rate, fixedRate) {
      l := BasePair(e, n - 1, refs, rate, fixedRate, p);
    } else {
      l := n - 1;
    }
  }

  lemma {:induction false} BaseRow(obs: seq<Obs>, refs: seq<Pair>,
                                   rate: (OutcomeKey, int) -> real,
                                   fixedRate: OutcomeKey -> real, p: Pair)
    returns (k: nat, l: nat)
    requires p in AllBasePairs(obs, refs, rate, fixedRate)
    ensures k < |obs| && l < |obs[k].labels| && p.obs == obs[k].key && (p.key, p.truth) == obs[k].labels[l]
    ensures IsBaseRate(p, rate, fixedRate)
    ensures p.cls == Eligible ==> Inherited(refs, p.obs, p.key) == Eligible
  {
    var n := |obs| - 1;
    if p in AllBasePairs(obs[..n], refs, rate, fixedRate) {
      k, l := BaseRow(obs[..n], refs, rate, fixedRate, p);
    } else {
      k := n;
      l := BasePair(obs[n], |obs[n].labels|, refs, rate, fixedRate, p);
    }
  }

  // ----- scanner rows

  /** The report may anchor the launch's scanner rows: launch or qualified, with some outcome resolved. */
  ghost predicate Anchors(outcomes: seq<Outcome>, r: Report, launch: nat) {
    r.launchId == Some(launch) && !r.trigger.OtherTrigger? && HasOutcome(outcomes, r.obs)
  }

  ghost predicate IsFirstAnchor(outcomes: seq<Outcome>, reports: seq<Report>, i: int,
                                launch: nat) {
    && 0 <= i < |reports| && Anchors(outcomes, reports[i], launch)
    && (forall j :: 0 <= j < i ==> !Anchors(outcomes, reports[j], launch))
  }

  /** The launch's scanner rows belong to observation `o`: that of its earliest anchoring report. */
  ghost predicate AnchoredAt(outcomes: seq<Outcome>, reports: seq<Report>, launch: nat,
                             o: ObsKey) {
    exists i :: IsFirstAnchor(outcomes, reports, i, launch) && reports[i].obs == o
  }

  lemma {:induction false} AnchorIff(outcomes: seq<Outcome>, reports: seq<Report>, launch: nat,
                                     o: ObsKey)
    ensures LaunchAnchor(reports, GroupOutcomes(outcomes), launch) == Some(o) <==> AnchoredAt(outcomes, reports, launch, o)
  {
    if reports != [] {
      var n := |reports| - 1;
      AnchorStep(outcomes, reports, launch);
      FoundIff(outcomes, reports[n].obs);
      var before := LaunchAnchor(reports[..n], GroupOutcomes(outcomes), launch);
      if before.Some? {
        AnchorIff(outcomes, reports[..n], launch, before.value);
        AnchorIff(outcomes, reports[..n], launch, o);
        var i :| IsFirstAnchor(outcomes, reports[..n], i, launch) && reports[..n][i].obs == before.value;
        assert IsFirstAnchor(outcomes, reports, i, launch);
        assert AnchoredAt(outcomes, reports, launch, before.value);
        FirstAnchorOnce(outcomes, reports, launch, i, o);
      } else {
        NoneAnchors(outcomes, reports[..n], launch);
        assert forall j :: 0 <= j < n ==> reports[j] == reports[..n][j];
        assert Anchors(outcomes, reports[n], launch) ==> IsFirstAnchor(outcomes, reports, n, launch);
      }
    }
  }

  lemma AnchorStep(outcomes: seq<Outcome>, reports: seq<Report>, launch: nat)
    requires reports != []
    ensures var n := |reports| - 1;
            var before := LaunchAnchor(reports[..n], GroupOutcomes(outcomes), launch);
            LaunchAnchor(reports, GroupOutcomes(outcomes), launch) ==
            if before.Some? then before else if Anchors(outcomes, reports[n], launch) then Some(reports[n].obs) else None
  {
    FoundIff(outcomes, reports[|reports| - 1].obs);
  }

  lemma FirstAnchorOnce(outcomes: seq<Outcome>, reports: seq<Report>, launch: nat, i: int,
                        o: ObsKey)
    requires IsFirstAnchor(outcomes, reports, i, launch)
    ensures AnchoredAt(outcomes, reports, launch, o) <==> reports[i].obs == o
  {
    if j :| IsFirstAnchor(outcomes, reports, j, launch) && reports[j].obs == o {
      assert i == j;
    }
  }

  lemma {:induction false} NoneAnchors(outcomes: seq<Outcome>, reports: seq<Report>,
                                       launch: nat)
    requires LaunchAnchor(reports, GroupOutcomes(outcomes), launch).None?
    ensures forall j :: 0 <= j < |reports| ==> !Anchors(outcomes, reports[j], launch)
  {
    if reports != [] {
      AnchorStep(outcomes, reports, launch);
      NoneAnchors(outcomes, reports[..|reports| - 1], launch);
    }
  }

  /** Fetched, and no more than half an hour after the anchor. */
  ghost predicate FetchedInTime(anchor: int, at: Option<int>) {
    at.Some? && at.value <= anchor + 1_800_000
  }

  /** The pair carries this feature's own probability, from a fetch within half an hour of the anchor. */
  ghost predicate TimelyScan(p: Pair, f: Feature) {
    || (p.forecaster == Scanhood && p.key in f.scanhood && f.scanhood[p.key] == p.prob
        && FetchedInTime(p.obs.anchor, f.scanhoodFetchedAt))
    || (p.forecaster == Goplus && p.key in f.goplus && f.goplus[p.key] == p.prob
        && FetchedInTime(p.obs.anchor, f.goplusFetchedAt))
  }

  lemma {:induction false} ScannerPairIs(f: Feature, e: Obs, n: nat, refs: seq<Pair>,
        p: Pair) returns (l: nat)
    requires n <= |e.labels| && p in ScannerPairs(f, e, n, refs)
    ensures l < |e.labels| && p.obs == e.key && (p.key, p.truth) == e.labels[l]
    ensures p.cls == Eligible ==> Inherited(refs, p.obs, p.key) == Eligible && TimelyScan(p, f)
  {
    if p in ScannerPairs(f, e, n - 1, refs) {
      l := ScannerPairIs(f, e, n - 1, refs, p);
    } else {
      l := n - 1;
      assert p in ScannerPair(e, n - 1, refs, Scanhood, f.scanhood, f.scanhoodFetchedAt)
          || p in ScannerPair(e, n - 1, refs, Goplus, f.goplus, f.goplusFetchedAt);
    }
  }

  lemma {:induction false} FindIndex(obs: seq<Obs>, o: ObsKey) returns (k: nat)
    requires FindObs(obs, o).Some?
    ensures k < |obs| && obs[k] == FindObs(obs, o).value && obs[k].key == o
  {
    if obs[0].key == o {
      k := 0;
    } else {
      k := FindIndex(obs[1..], o);
      k := k + 1;
    }
  }

  lemma {:induction false} ScannerRow(features: seq<Feature>, db: Database, obs: seq<Obs>,
                                      refs: seq<Pair>, p: Pair)
    returns (f: Feature, k: nat, l: nat)
    requires p in AllScannerPairs(features, db, obs, refs)
    ensures f in features && LaunchAnchor(db.reports, obs, f.launchId) == Some(p.obs)
    ensures k < |obs| && l < |obs[k].labels| && p.obs == obs[k].key && (p.key, p.truth) == obs[k].labels[l]
    ensures p.cls == Eligible ==> Inherited(refs, p.obs, p.key) == Eligible && TimelyScan(p, f)
  {
    var n := |features| - 1;
    if p in AllScannerPairs(features[..n], db, obs, refs) {
      f, k, l := ScannerRow(features[..n], db, obs, refs, p);
    } else {
      f := features[n];
      var o := LaunchAnchor(db.reports, obs, f.launchId).value;
      k := FindIndex(obs, o);
      l := ScannerPairIs(f, obs[k], |obs[k].labels|, refs, p);
    }
  }

  // ----- every row

  /** A scanner's own timely fetch for the launch anchored at the row's observation. */
  ghost predicate FromScan(p: Pair, db: Database) {
    exists f :: f in db.features && AnchoredAt(db.outcomes, db.reports, f.launchId, p.obs) && TimelyScan(p, f)
  }

  /**
   * What entitles an eligible pair to count: its outcome is scored, its label is what that resolved to, and it
   * comes from a timely report, or inherits from a timely reference report and is a base rate
   * or a timely scan.
   */
  ghost predicate Entitled(p: Pair, db: Database, blockTime: nat -> Option<int>,
                           rate: (OutcomeKey, int) -> real, fixedRate: OutcomeKey -> real) {
    && Scored(p.key) && ResolvedTo(db.outcomes, p.obs, p.key, p.truth)
    && (TimelyReport(p, db.reports, blockTime)
        || (TimelyReference(db, blockTime, p.obs, p.key) && (IsBaseRate(p, rate, fixedRate) || FromScan(p, db))))
  }

  lemma {:induction false} RowFromPair(pairs: seq<Pair>, row: Row) returns (p: Pair)
    requires row in RowsOf(pairs)
    ensures p in pairs && p.cls == Eligible && row == RowOf(p)
  {
    var n := |pairs| - 1;
    if row in RowsOf(pairs[..n]) {
      p := RowFromPair(pairs[..n], row);
    } else {
      p := pairs[n];
    }
  }

  lemma PairEntitled(db: Database, blockTime: nat -> Option<int>,
                     rate: (OutcomeKey, int) -> real, fixedRate: OutcomeKey -> real, p: Pair)
    requires p in Examined(db, blockTime, rate, fixedRate) && p.cls == Eligible
    ensures Entitled(p, db, blockTime, rate, fixedRate)
  {
    var obs := GroupOutcomes(db.outcomes);
    var refs := AllReportPairs(db.reports, obs, blockTime);
    if p in refs {
      var i := ReportRowsClassed(db.reports, obs, blockTime, p);
      assert TimelyFrom(p, db.reports[i], blockTime);
      ReportRowTruth(db.reports, db.outcomes, blockTime, p);
    } else if p in AllBasePairs(obs, refs, rate, fixedRate) {
      var k, l := BaseRow(obs, refs, rate, fixedRate, p);
      EntryLabelResolved(db.outcomes, k, l);
      InheritedIs(db.reports, db.outcomes, blockTime, p.obs, p.key, p.truth);
    } else {
      var f, k, l := ScannerRow(db.features, db, obs, refs, p);
      EntryLabelResolved(db.outcomes, k, l);
      InheritedIs(db.reports, db.outcomes, blockTime, p.obs, p.key, p.truth);
      AnchorIff(db.outcomes, db.reports, f.launchId, p.obs);
    }
  }

  /** For every database content, every row is entitled. */
  lemma EveryRowEntitled(db: Database, blockTime: nat -> Option<int>,
                         rate: (OutcomeKey, int) -> real, fixedRate: OutcomeKey -> real,
                         row: Row)
    returns (p: Pair)
    requires row in RowsOf(Examined(db, blockTime, rate, fixedRate))
    ensures row == RowOf(p) && Entitled(p, db, blockTime, rate, fixedRate)
  {
    p := RowFromPair(Examined(db, blockTime, rate, fixedRate), row);
    PairEntitled(db, blockTime, rate, fixedRate, p);
  }

  /** Rows of one observation and outcome carry the same label, whatever their forecasters. */
  lemma RowsAgreeOnTruth(db: Database, blockTime: nat -> Option<int>,
                         rate: (OutcomeKey, int) -> real, fixedRate: OutcomeKey -> real, a: Row,
                         b: Row)
    requires a in RowsOf(Examined(db, blockTime, rate, fixedRate)) && b in RowsOf(Examined(db, blockTime, rate, fixedRate))
    requires a.obs == b.obs && a.key == b.key
    ensures a.truth == b.truth
  {
    var p := EveryRowEntitled(db, blockTime, rate, fixedRate, a);
    var q := EveryRowEntitled(db, blockTime, rate, fixedRate, b);
    ResolvedOnce(db.outcomes, a.obs, a.key, p.truth, q.truth);
  }
}
