/**
 * The benchmark's cells over the collected rows: which rows a forecaster brings to one outcome,
 * and when two forecasters could both claim to beat the other.
 */
module BenchmarkCells {
  import opened Common
  import opened ClaimGate
  import opened Eligibility
  import opened Collect
  import opened Entitlement

  /** One forecaster's rows of one outcome, in order; `idOf` writes an observation as a string. */
  function CellRows(rows: seq<Row>, key: OutcomeKey, f: Forecaster,
                    idOf: ObsKey -> string): seq<ScoreRow> {
    if rows == [] then []
    else
      var r := rows[|rows| - 1];
      CellRows(rows[..|rows| - 1], key, f, idOf) + (if r.key == key && r.forecaster == f then [ScoreRow(idOf(r.obs), r.prob, r.truth)] else [])
  }

  ghost predicate Distinguishes(idOf: ObsKey -> string) {
    forall a, b :: idOf(a) == idOf(b) ==> a == b
  }

  lemma {:induction false} CellRowFrom(rows: seq<Row>, key: OutcomeKey, f: Forecaster,
                                       idOf: ObsKey -> string, i: nat) returns (r: Row)
    requires i < |CellRows(rows, key, f, idOf)|
    ensures r in rows && r.key == key && CellRows(rows, key, f, idOf)[i] == ScoreRow(idOf(r.obs), r.prob, r.truth)
  {
    var n := |rows| - 1;
    if i < |CellRows(rows[..n], key, f, idOf)| {
      r := CellRowFrom(rows[..n], key, f, idOf, i);
    } else {
      r := rows[n];
    }
  }

  /** The collector gives all forecasters the same label for the same observation. */
  lemma CellsShareTruth(db: Database, blockTime: nat -> Option<int>, rate: (OutcomeKey, int) -> real, fixedRate: OutcomeKey -> real,
                        idOf: ObsKey -> string, key: OutcomeKey, f: Forecaster, g: Forecaster)
    requires Distinguishes(idOf)
    ensures var rows := RowsOf(Examined(db, blockTime, rate, fixedRate)); SameTruth(CellRows(rows, key, f, idOf), CellRows(rows, key, g, idOf))
  {
    var rows := RowsOf(Examined(db, blockTime, rate, fixedRate));
    var a, b := CellRows(rows, key, f, idOf), CellRows(rows, key, g, idOf);
    forall i, j | 0 <= i < |a| && 0 <= j < |b| && a[i].obsId == b[j].obsId ensures a[i].outcome == b[j].outcome {
      var x := CellRowFrom(rows, key, f, idOf, i);
      var y := CellRowFrom(rows, key, g, idOf, j);
      RowsAgreeOnTruth(db, blockTime, rate, fixedRate, x, y);
    }
  }

  /** Over collected rows two forecasters never both claim a gain, if each has one row per shared observation. */
  lemma CollectedClaimsNotMutual(db: Database, blockTime: nat -> Option<int>, rate: (OutcomeKey, int) -> real, fixedRate: OutcomeKey -> real,
                                 idOf: ObsKey -> string, key: OutcomeKey, f: Forecaster, g: Forecaster, sqrt: real -> real, cdf: real -> real)
    requires Distinguishes(idOf)
    requires var rows := RowsOf(Examined(db, blockTime, rate, fixedRate));
             OnceShared(CellRows(rows, key, f, idOf), CellRows(rows, key, g, idOf)) && OnceShared(CellRows(rows, key, g, idOf), CellRows(rows, key, f, idOf))
    ensures var rows := RowsOf(Examined(db, blockTime, rate, fixedRate));
            var a, b := CellRows(rows, key, f, idOf), CellRows(rows, key, g, idOf);
            !(ClaimJustified(a, b, sqrt, cdf) && ClaimJustified(b, a, sqrt, cdf))
  {
    var rows := RowsOf(Examined(db, blockTime, rate, fixedRate));
    CellsShareTruth(db, blockTime, rate, fixedRate, idOf, key, f, g);
    NoMutualClaims(CellRows(rows, key, f, idOf), CellRows(rows, key, g, idOf), sqrt, cdf);
  }
}
