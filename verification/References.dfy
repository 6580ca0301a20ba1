/** How a report's forecast is classed, in hours and minutes, and which report the computed forecasts inherit from. */
module References {
  import opened Common
  import opened Eligibility
  import opened Grouping

  // ----- the class of one forecast

  function Hours(h: Horizon): int {
    match h
    case H1 => 1
    case H6 => 6
    case H24 => 24
    case H72 => 72
    case D7 => 168
  }

  /** When a report's commit was mined, where that is known. */
  function CommitTime(r: Report, blockTime: nat -> Option<int>): Option<int> {
    if r.commitBlock.Some? then blockTime(r.commitBlock.value) else None
  }

  /** Committed before the horizon ended, and within half an hour of the anchor. */
  ghost predicate CommittedInTime(r: Report, key: OutcomeKey, blockTime: nat -> Option<int>) {
    var t := CommitTime(r, blockTime);
    && t.Some?
    && t.value < r.obs.anchor + Hours(key.horizon) * 3_600_000
    && t.value <= r.obs.anchor + 1_800_000
  }

  /** What each class says about the report; no two of them can hold together. */
  ghost predicate Classed(r: Report, key: OutcomeKey, blockTime: nat -> Option<int>, c: Class) {
    var t := CommitTime(r, blockTime);
    match c
    case Uncommitted => r.commitBlock.None?
    case MissingTime => r.commitBlock.Some? && t.None?
    case Late => t.Some? && t.value >= r.obs.anchor + Hours(key.horizon) * 3_600_000
    case Replay =>
      t.Some? && r.obs.anchor + 1_800_000 < t.value < r.obs.anchor + Hours(key.horizon) * 3_600_000
    case Eligible => CommittedInTime(r, key, blockTime)
  }

  /** The pair carries the report's own forecast. */
  ghost predicate SameForecast(p: Pair, r: Report) {
    r.obs == p.obs && r.forecaster == p.forecaster && p.key in r.probs && r.probs[p.key] == p.prob
  }

  /** Every pair of a report carries its forecast, classed by its commit. */
  lemma {:induction false} ReportPairsClassed(r: Report, e: Obs, keys: seq<OutcomeKey>,
                                              blockTime: nat -> Option<int>, p: Pair)
    requires p in ReportPairs(r, e, keys, blockTime)
    ensures SameForecast(p, r) && p.key in keys && Classed(r, p.key, blockTime, p.cls)
  {
    var n := |keys| - 1;
    if p in ReportPairs(r, e, keys[..n], blockTime) {
      ReportPairsClassed(r, e, keys[..n], blockTime, p);
    }
  }

  /** The outcomes that are scored, each with its horizons. */
  predicate Scored(key: OutcomeKey) {
    match key.outcome
    case InsiderExit => key.horizon.H6? || key.horizon.H24? || key.horizon.H72?
    case SellImpaired => key.horizon.H1? || key.horizon.H24?
    case LiqImpaired => key.horizon.H24? || key.horizon.D7?
    case Drawdown80 => key.horizon.H24? || key.horizon.D7?
    case TradingAlive => key.horizon.H24? || key.horizon.D7?
  }

  function Place(key: OutcomeKey): nat {
    match key.outcome
    case InsiderExit => if key.horizon.H6? then 0 else if key.horizon.H24? then 1 else 2
    case SellImpaired => if key.horizon.H1? then 3 else 4
    case LiqImpaired => if key.horizon.H24? then 5 else 6
    case Drawdown80 => if key.horizon.H24? then 7 else 8
    case TradingAlive => if key.horizon.H24? then 9 else 10
  }

  lemma ListedIsScored(i: nat)
    requires i < |ALL_OUTCOME_KEYS|
    ensures Scored(ALL_OUTCOME_KEYS[i])
  {
  }

  lemma ScoredIsListed(key: OutcomeKey)
    requires Scored(key)
    ensures Place(key) < |ALL_OUTCOME_KEYS| && ALL_OUTCOME_KEYS[Place(key)] == key
  {
  }

  lemma ScoredIff(key: OutcomeKey)
    ensures key in ALL_OUTCOME_KEYS <==> Scored(key)
  {
    if i :| 0 <= i < |ALL_OUTCOME_KEYS| && ALL_OUTCOME_KEYS[i] == key {
      ListedIsScored(i);
    }
    if Scored(key) {
      ScoredIsListed(key);
    }
  }

  /** Every report pair comes from one of the reports. */
  lemma {:induction false} ReportRowsClassed(reports: seq<Report>, obs: seq<Obs>,
                                             blockTime: nat -> Option<int>, p: Pair)
    returns (i: nat)
    requires p in AllReportPairs(reports, obs, blockTime)
    ensures i < |reports| && SameForecast(p, reports[i]) && Scored(p.key) && Classed(reports[i], p.key, blockTime, p.cls)
  {
    var n := |reports| - 1;
    if p in AllReportPairs(reports[..n], obs, blockTime) {
      i := ReportRowsClassed(reports[..n], obs, blockTime, p);
    } else {
      i := n;
      ReportPairsClassed(reports[n], FindObs(obs, reports[n].obs).value, ALL_OUTCOME_KEYS, blockTime, p);
      ScoredIff(p.key);
    }
  }

  // ----- the reference

  /** The report is a reference forecast of a scored outcome. */
  ghost predicate IsReference(r: Report, o: ObsKey, key: OutcomeKey) {
    r.forecaster == DetV0 && r.obs == o && key in r.probs && Scored(key)
  }

  ghost predicate IsFirstReference(reports: seq<Report>, i: int, o: ObsKey, key: OutcomeKey) {
    && 0 <= i < |reports| && IsReference(reports[i], o, key)
    && (forall j :: 0 <= j < i ==> !IsReference(reports[j], o, key))
  }

  /** The class of the first reference report, if there is one. */
  ghost predicate FirstClass(reports: seq<Report>, blockTime: nat -> Option<int>, o: ObsKey, key: OutcomeKey,
                             c: Option<Class>) {
    if c.None? then forall i :: 0 <= i < |reports| ==> !IsReference(reports[i], o, key)
    else exists i :: IsFirstReference(reports, i, o, key) && Classed(reports[i], key, blockTime, c.value)
  }

  /** The class of the first reference report, or uncommitted if there is none. */
  ghost predicate ClassOfReference(reports: seq<Report>, blockTime: nat -> Option<int>, o: ObsKey, key: OutcomeKey,
                                   c: Class) {
    FirstClass(reports, blockTime, o, key, Some(c)) || (c == Uncommitted && FirstClass(reports, blockTime, o, key, None))
  }

  lemma {:induction false} RefClassConcat(a: seq<Pair>, b: seq<Pair>, o: ObsKey, key: OutcomeKey)
    ensures RefClass(a + b, o, key) == if RefClass(a, o, key).Some? then RefClass(a, o, key) else RefClass(b, o, key)
  {
    if b == [] {
      assert a + b == a;
    } else {
      var n := |b| - 1;
      RefClassConcat(a, b[..n], o, key);
      assert (a + b)[..|a + b| - 1] == a + b[..n];
    }
  }

  lemma RefClassOfOne(p: Pair, o: ObsKey, key: OutcomeKey)
    ensures RefClass([p], o, key) == if p.forecaster == DetV0 && p.obs == o && p.key == key then Some(p.cls) else None
  {
    assert [p][..0] == [];
  }

  lemma {:induction false} RefClassOfReport(r: Report, e: Obs, keys: seq<OutcomeKey>, blockTime: nat -> Option<int>,
                                            o: ObsKey, key: OutcomeKey)
    ensures RefClass(ReportPairs(r, e, keys, blockTime), o, key) ==
            if r.forecaster == DetV0 && r.obs == o && key in keys && key in r.probs && LabelOf(e.labels, key).Some?
            then Some(ReportClass(r, key, blockTime)) else None
  {
    if keys != [] {
      var n := |keys| - 1;
      var before := ReportPairs(r, e, keys[..n], blockTime);
      RefClassOfReport(r, e, keys[..n], blockTime, o, key);
      assert key in keys <==> key in keys[..n] || key == keys[n];
      var y := LabelOf(e.labels, keys[n]);
      if y.Some? && keys[n] in r.probs {
        var p := Pair(r.obs, r.forecaster, keys[n], r.probs[keys[n]], y.value, ReportClass(r, keys[n], blockTime));
        RefClassConcat(before, [p], o, key);
        RefClassOfOne(p, o, key);
      } else {
        assert ReportPairs(r, e, keys, blockTime) == before;
      }
    }
  }

  /** What the last report adds to the class of the reference. */
  lemma RefClassStep(reports: seq<Report>, outcomes: seq<Outcome>, blockTime: nat -> Option<int>, o: ObsKey,
                     key: OutcomeKey, y: bool)
    requires reports != [] && ResolvedTo(outcomes, o, key, y)
    ensures var obs, r := GroupOutcomes(outcomes), reports[|reports| - 1];
            var before := RefClass(AllReportPairs(reports[..|reports| - 1], obs, blockTime), o, key);
            RefClass(AllReportPairs(reports, obs, blockTime), o, key) ==
            if before.Some? then before else if IsReference(r, o, key) then Some(ReportClass(r, key, blockTime)) else None
  {
    var obs, r := GroupOutcomes(outcomes), reports[|reports| - 1];
    var rest := AllReportPairs(reports[..|reports| - 1], obs, blockTime);
    var e := FindObs(obs, r.obs);
    LabelIff(outcomes, o, key, y);
    ScoredIff(key);
    if e.Some? {
      RefClassOfReport(r, e.value, ALL_OUTCOME_KEYS, blockTime, o, key);
      RefClassConcat(rest, ReportPairs(r, e.value, ALL_OUTCOME_KEYS, blockTime), o, key);
    } else {
      assert rest + [] == rest;
    }
  }

  lemma FirstClassStep(reports: seq<Report>, blockTime: nat -> Option<int>, o: ObsKey, key: OutcomeKey,
                       before: Option<Class>, after: Option<Class>)
    requires reports != [] && FirstClass(reports[..|reports| - 1], blockTime, o, key, before)
    requires var r := reports[|reports| - 1];
             after == if before.Some? then before else if IsReference(r, o, key) then Some(ReportClass(r, key, blockTime)) else None
    ensures FirstClass(reports, blockTime, o, key, after)
  {
    var n := |reports| - 1;
    if before.Some? {
      var i :| IsFirstReference(reports[..n], i, o, key) && Classed(reports[..n][i], key, blockTime, before.value);
      assert IsFirstReference(reports, i, o, key);
    } else {
      assert forall j :: 0 <= j < n ==> reports[j] == reports[..n][j];
      assert IsReference(reports[n], o, key) ==> IsFirstReference(reports, n, o, key);
    }
  }

  /** The inherited class is that of the first reference report. */
  lemma {:induction false} RefClassIs(reports: seq<Report>, outcomes: seq<Outcome>, blockTime: nat -> Option<int>,
                                      o: ObsKey, key: OutcomeKey, y: bool)
    requires ResolvedTo(outcomes, o, key, y)
    ensures FirstClass(reports, blockTime, o, key,
                       RefClass(AllReportPairs(reports, GroupOutcomes(outcomes), blockTime), o, key))
  {
    if reports != [] {
      var obs, t := GroupOutcomes(outcomes), reports[..|reports| - 1];
      RefClassIs(t, outcomes, blockTime, o, key, y);
      RefClassStep(reports, outcomes, blockTime, o, key, y);
      FirstClassStep(reports, blockTime, o, key, RefClass(AllReportPairs(t, obs, blockTime), o, key),
                     RefClass(AllReportPairs(reports, obs, blockTime), o, key));
    }
  }

  lemma InheritedIs(reports: seq<Report>, outcomes: seq<Outcome>, blockTime: nat -> Option<int>, o: ObsKey,
                    key: OutcomeKey, y: bool)
    requires ResolvedTo(outcomes, o, key, y)
    ensures ClassOfReference(reports, blockTime, o, key,
                             Inherited(AllReportPairs(reports, GroupOutcomes(outcomes), blockTime), o, key))
  {
    RefClassIs(reports, outcomes, blockTime, o, key, y);
  }

  /** There is one class of the reference, whoever asks. */
  lemma OneReferenceClass(reports: seq<Report>, blockTime: nat -> Option<int>, o: ObsKey, key: OutcomeKey,
                          c: Class, d: Class)
    requires ClassOfReference(reports, blockTime, o, key, c) && ClassOfReference(reports, blockTime, o, key, d)
    ensures c == d
  {
    if i :| IsFirstReference(reports, i, o, key) && Classed(reports[i], key, blockTime, c) {
      if j :| IsFirstReference(reports, j, o, key) && Classed(reports[j], key, blockTime, d) {
        assert i == j;
      }
    }
  }
}
