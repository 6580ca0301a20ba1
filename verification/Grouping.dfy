/** What grouping the outcome rows by observation computes, stated over the rows themselves. */
module Grouping {
  import opened Common
  import opened Eligibility

  // ----- stated over the outcome rows

  predicate About(x: Outcome, o: ObsKey, key: OutcomeKey) {
    x.obs == o && x.key == key
  }

  /** Row `i` is the last outcome row of this observation and outcome key. */
  ghost predicate IsLastRow(outcomes: seq<Outcome>, i: int, o: ObsKey, key: OutcomeKey) {
    && 0 <= i < |outcomes| && About(outcomes[i], o, key)
    && (forall j :: i < j < |outcomes| ==> !About(outcomes[j], o, key))
  }

  /** The outcome resolved to `y`: that is the value of its last row. */
  ghost predicate ResolvedTo(outcomes: seq<Outcome>, o: ObsKey, key: OutcomeKey, y: bool) {
    exists i :: IsLastRow(outcomes, i, o, key) && outcomes[i].value == y
  }

  ghost predicate HasOutcome(outcomes: seq<Outcome>, o: ObsKey) {
    exists i :: 0 <= i < |outcomes| && outcomes[i].obs == o
  }

  lemma ResolvedOnce(outcomes: seq<Outcome>, o: ObsKey, key: OutcomeKey, y: bool, z: bool)
    requires ResolvedTo(outcomes, o, key, y) && ResolvedTo(outcomes, o, key, z)
    ensures y == z
  {
    var i :| IsLastRow(outcomes, i, o, key) && outcomes[i].value == y;
    var j :| IsLastRow(outcomes, j, o, key) && outcomes[j].value == z;
    assert i == j;
  }

  // ----- one row at a time

  lemma {:induction false} LabelAfterSet(labels: seq<(OutcomeKey, bool)>, key: OutcomeKey,
        y: bool, k: OutcomeKey)
    ensures LabelOf(SetLabel(labels, key, y), k) == if k == key then Some(y) else LabelOf(labels, k)
  {
    if labels != [] && labels[0].0 != key {
      LabelAfterSet(labels[1..], key, y, k);
      assert SetLabel(labels, key, y)[1..] == SetLabel(labels[1..], key, y);
    } else if labels != [] {
      assert SetLabel(labels, key, y)[1..] == labels[1..];
    }
  }

  /** The labels an observation has so far. */
  function LabelsAt(obs: seq<Obs>, o: ObsKey): seq<(OutcomeKey, bool)> {
    var e := FindObs(obs, o);
    if e.Some? then e.value.labels else []
  }

  lemma {:induction false} FindAfterAdd(obs: seq<Obs>, x: Outcome, o: ObsKey)
    ensures FindObs(AddOutcome(obs, x), o) ==
            if o == x.obs then Some(Obs(o, SetLabel(LabelsAt(obs, o), x.key, x.value))) else FindObs(obs, o)
  {
    if obs != [] && obs[0].key != x.obs {
      FindAfterAdd(obs[1..], x, o);
      assert AddOutcome(obs, x)[1..] == AddOutcome(obs[1..], x);
    } else if obs != [] {
      assert AddOutcome(obs, x)[1..] == obs[1..];
    }
  }

  /** The label an observation carries after grouping. */
  function Label(outcomes: seq<Outcome>, o: ObsKey, key: OutcomeKey): Option<bool> {
    LabelOf(LabelsAt(GroupOutcomes(outcomes), o), key)
  }

  lemma LabelStep(outcomes: seq<Outcome>, o: ObsKey, key: OutcomeKey)
    requires outcomes != []
    ensures var n := |outcomes| - 1;
            Label(outcomes, o, key) ==
            if About(outcomes[n], o, key) then Some(outcomes[n].value) else Label(outcomes[..n], o, key)
  {
    var n := |outcomes| - 1;
    var obs, x := GroupOutcomes(outcomes[..n]), outcomes[n];
    FindAfterAdd(obs, x, o);
    LabelAfterSet(LabelsAt(obs, o), x.key, x.value, key);
  }

  // ----- the whole list

  /** An observation is found if and only if some outcome row is about it. */
  lemma {:induction false} FoundIff(outcomes: seq<Outcome>, o: ObsKey)
    ensures FindObs(GroupOutcomes(outcomes), o).Some? <==> HasOutcome(outcomes, o)
  {
    if outcomes != [] {
      var n := |outcomes| - 1;
      FoundIff(outcomes[..n], o);
      FindAfterAdd(GroupOutcomes(outcomes[..n]), outcomes[n], o);
      if HasOutcome(outcomes[..n], o) {
        var i :| 0 <= i < n && outcomes[..n][i].obs == o;
        assert outcomes[i].obs == o;
      }
      if i :| 0 <= i < |outcomes| && outcomes[i].obs == o && outcomes[n].obs != o {
        assert outcomes[..n][i].obs == o;
      }
    }
  }

  lemma {:induction false} FoundKey(obs: seq<Obs>, o: ObsKey)
    ensures FindObs(obs, o).Some? ==> FindObs(obs, o).value.key == o
  {
    if obs != [] && obs[0].key != o {
      FoundKey(obs[1..], o);
    }
  }

  /** The label is the value of the last row, and there is one exactly if there is such a row. */
  lemma {:induction false} LabelIff(outcomes: seq<Outcome>, o: ObsKey, key: OutcomeKey, y: bool)
    ensures Label(outcomes, o, key) == Some(y) <==> ResolvedTo(outcomes, o, key, y)
  {
    if outcomes != [] {
      var n := |outcomes| - 1;
      LabelStep(outcomes, o, key);
      if About(outcomes[n], o, key) {
        assert IsLastRow(outcomes, n, o, key);
        if ResolvedTo(outcomes, o, key, y) {
          ResolvedOnce(outcomes, o, key, y, outcomes[n].value);
        }
      } else {
        LabelIff(outcomes[..n], o, key, y);
        SameLastRow(outcomes, o, key, y);
      }
    }
  }

  lemma SameLastRow(outcomes: seq<Outcome>, o: ObsKey, key: OutcomeKey, y: bool)
    requires outcomes != [] && !About(outcomes[|outcomes| - 1], o, key)
    ensures ResolvedTo(outcomes, o, key, y) <==> ResolvedTo(outcomes[..|outcomes| - 1], o, key, y)
  {
    var t := outcomes[..|outcomes| - 1];
    forall i ensures IsLastRow(outcomes, i, o, key) <==> IsLastRow(t, i, o, key) {
      LastRowWithout(outcomes, t, i, o, key);
    }
    if i :| IsLastRow(outcomes, i, o, key) && outcomes[i].value == y {
      assert IsLastRow(t, i, o, key) && t[i].value == y;
    }
    if i :| IsLastRow(t, i, o, key) && t[i].value == y {
      assert IsLastRow(outcomes, i, o, key) && outcomes[i].value == y;
    }
  }

  lemma LastRowWithout(outcomes: seq<Outcome>, t: seq<Outcome>, i: int, o: ObsKey,
                       key: OutcomeKey)
    requires outcomes != [] && t == outcomes[..|outcomes| - 1] && !About(outcomes[|outcomes| - 1], o, key)
    ensures IsLastRow(outcomes, i, o, key) <==> IsLastRow(t, i, o, key)
  {
    assert forall j :: 0 <= j < |t| ==> t[j] == outcomes[j];
  }

  // ----- each observation, and each of its labels, appears once

  ghost predicate DistinctLabels(labels: seq<(OutcomeKey, bool)>) {
    forall i, j :: 0 <= i < j < |labels| ==> labels[i].0 != labels[j].0
  }

  ghost predicate DistinctEntries(obs: seq<Obs>) {
    && (forall i, j :: 0 <= i < j < |obs| ==> obs[i].key != obs[j].key)
    && (forall i :: 0 <= i < |obs| ==> DistinctLabels(obs[i].labels))
  }

  /** Setting a label keeps the keys in place, and appends the key only if it is new. */
  lemma {:induction false} SetKeys(labels: seq<(OutcomeKey, bool)>, key: OutcomeKey, y: bool)
    ensures var r := SetLabel(labels, key, y);
            && |labels| <= |r| <= |labels| + 1
            && (forall k :: 0 <= k < |labels| ==> r[k].0 == labels[k].0)
            && (|r| > |labels| ==> r[|labels|].0 == key && forall k :: 0 <= k < |labels| ==> labels[k].0 != key)
  {
    if labels != [] && labels[0].0 != key {
      SetKeys(labels[1..], key, y);
      var r, t := SetLabel(labels, key, y), SetLabel(labels[1..], key, y);
      assert forall k :: 1 <= k < |r| ==> r[k] == t[k - 1];
      assert forall k :: 1 <= k < |labels| ==> labels[k] == labels[1..][k - 1];
    }
  }

  lemma {:induction false} AddKeys(obs: seq<Obs>, x: Outcome)
    ensures var r := AddOutcome(obs, x);
            && |obs| <= |r| <= |obs| + 1
            && (forall k :: 0 <= k < |obs| ==> r[k].key == obs[k].key)
            && (forall k :: 0 <= k < |obs| ==> r[k] == obs[k] || r[k].labels == SetLabel(obs[k].labels, x.key, x.value))
            && (|r| > |obs| ==> r[|obs|] == Obs(x.obs, [(x.key, x.value)]) && forall k :: 0 <= k < |obs| ==> obs[k].key != x.obs)
  {
    if obs != [] && obs[0].key != x.obs {
      AddKeys(obs[1..], x);
      var r, t := AddOutcome(obs, x), AddOutcome(obs[1..], x);
      assert forall k :: 1 <= k < |r| ==> r[k] == t[k - 1];
      assert forall k :: 1 <= k < |obs| ==> obs[k] == obs[1..][k - 1];
    }
  }

  lemma SetKeepsDistinct(labels: seq<(OutcomeKey, bool)>, key: OutcomeKey, y: bool)
    requires DistinctLabels(labels)
    ensures DistinctLabels(SetLabel(labels, key, y))
  {
    SetKeys(labels, key, y);
  }

  lemma AddKeepsDistinct(obs: seq<Obs>, x: Outcome)
    requires DistinctEntries(obs)
    ensures DistinctEntries(AddOutcome(obs, x))
  {
    var r := AddOutcome(obs, x);
    AddKeys(obs, x);
    forall i | 0 <= i < |r| ensures DistinctLabels(r[i].labels) {
      if i < |obs| {
        SetKeepsDistinct(obs[i].labels, x.key, x.value);
      }
    }
  }

  lemma {:induction false} GroupedDistinct(outcomes: seq<Outcome>)
    ensures DistinctEntries(GroupOutcomes(outcomes))
  {
    if outcomes != [] {
      GroupedDistinct(outcomes[..|outcomes| - 1]);
      AddKeepsDistinct(GroupOutcomes(outcomes[..|outcomes| - 1]), outcomes[|outcomes| - 1]);
    }
  }

  lemma {:induction false} FindEntry(obs: seq<Obs>, k: nat)
    requires DistinctEntries(obs) && k < |obs|
    ensures FindObs(obs, obs[k].key) == Some(obs[k])
  {
    if k > 0 {
      var t := obs[1..];
      assert forall i :: 0 <= i < |t| ==> t[i] == obs[i + 1];
      FindEntry(t, k - 1);
      assert obs[0].key != obs[k].key;
    }
  }

  lemma {:induction false} FindLabel(labels: seq<(OutcomeKey, bool)>, k: nat)
    requires DistinctLabels(labels) && k < |labels|
    ensures LabelOf(labels, labels[k].0) == Some(labels[k].1)
  {
    if k > 0 {
      var t := labels[1..];
      assert forall i :: 0 <= i < |t| ==> t[i] == labels[i + 1];
      FindLabel(t, k - 1);
      assert labels[0].0 != labels[k].0;
    }
  }

  /** Every label an entry carries is what its outcome resolved to. */
  lemma EntryLabelResolved(outcomes: seq<Outcome>, k: nat, l: nat)
    requires k < |GroupOutcomes(outcomes)| && l < |GroupOutcomes(outcomes)[k].labels|
    ensures var e := GroupOutcomes(outcomes)[k]; ResolvedTo(outcomes, e.key, e.labels[l].0, e.labels[l].1)
  {
    var obs := GroupOutcomes(outcomes);
    var e := obs[k];
    GroupedDistinct(outcomes);
    FindEntry(obs, k);
    FindLabel(e.labels, l);
    LabelIff(outcomes, e.key, e.labels[l].0, e.labels[l].1);
  }
}
