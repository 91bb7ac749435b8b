/** The read side of the API: `/performance`, which turns the stored
    predictions into a cumulative series and a Sharpe ratio, and
    `/historical`, the last hundred stored bars. The predictions come back
    from `read_sql` as a result frame whose columns are assigned in place. */
module Query {
  import opened Common
  import opened Frames
  import opened Signals

  // ---------------------------------------------------------------------------
  // The predictions table as read back
  // ---------------------------------------------------------------------------

  /** A result frame: the column names in order, the `timestamp` column, and
      the REAL columns by name (the other TEXT and INTEGER columns are
      present by name only). */
  datatype SignalTable = SignalTable(columns: seq<string>, timestamps: seq<string>, numeric: map<string, seq<real>>)

  predicate ValidTable(t: SignalTable) {
    && "timestamp" in t.columns
    && forall name :: name in t.numeric ==> name in t.columns && |t.numeric[name]| == |t.timestamps|
  }

  /** The deployed job's `predictions` schema. */
  const APP_COLUMNS: seq<string> :=
    ["id", "timestamp", "current_price", "predicted_price", "expected_return", "direction", "probability", "trade_action"]

  /** The stand-alone job's `predictions` schema. */
  const SCRIPT_COLUMNS: seq<string> :=
    ["timestamp", "current_price", "predicted_price", "expected_return", "direction", "probability_up",
     "volatility", "confidence", "trade_action"]

  /** The `expected_return` column of the deployed job's rows. */
  function ExpectedReturns(rows: seq<AppRow>): (r: seq<real>)
    ensures |r| == |rows| && forall i :: 0 <= i < |rows| ==> r[i] == rows[i].expectedReturn
  {
    seq(|rows|, i requires 0 <= i < |rows| => rows[i].expectedReturn)
  }

  /** The deployed job's rows as `SELECT *` returns them. */
  function AppTable(rows: seq<AppRow>): (t: SignalTable)
    ensures ValidTable(t) && |t.timestamps| == |rows|
    ensures "expected_return" in t.numeric && t.numeric["expected_return"] == ExpectedReturns(rows)
    ensures forall i :: 0 <= i < |rows| ==> t.timestamps[i] == rows[i].timestamp
  {
    assert "timestamp" == APP_COLUMNS[1] && "current_price" == APP_COLUMNS[2] && "predicted_price" == APP_COLUMNS[3];
    assert "expected_return" == APP_COLUMNS[4] && "probability" == APP_COLUMNS[6];
    SignalTable(APP_COLUMNS,
      seq(|rows|, i requires 0 <= i < |rows| => rows[i].timestamp),
      map["current_price" := seq(|rows|, i requires 0 <= i < |rows| => rows[i].currentPrice),
          "predicted_price" := seq(|rows|, i requires 0 <= i < |rows| => rows[i].predictedPrice),
          "expected_return" := ExpectedReturns(rows),
          "probability" := seq(|rows|, i requires 0 <= i < |rows| => rows[i].probability)])
  }

  /** The stand-alone job's rows as `SELECT *` returns them. */
  function ScriptsTable(rows: seq<ScriptRow>): (t: SignalTable)
    ensures ValidTable(t) && |t.timestamps| == |rows|
    ensures "expected_return" in t.numeric
    ensures forall i :: 0 <= i < |rows| ==> t.numeric["expected_return"][i] == rows[i].expectedReturn
  {
    assert "timestamp" == SCRIPT_COLUMNS[0] && "current_price" == SCRIPT_COLUMNS[1] && "predicted_price" == SCRIPT_COLUMNS[2];
    assert "expected_return" == SCRIPT_COLUMNS[3] && "probability_up" == SCRIPT_COLUMNS[5] && "confidence" == SCRIPT_COLUMNS[7];
    SignalTable(SCRIPT_COLUMNS,
      seq(|rows|, i requires 0 <= i < |rows| => rows[i].timestamp),
      map["current_price" := seq(|rows|, i requires 0 <= i < |rows| => rows[i].currentPrice),
          "predicted_price" := seq(|rows|, i requires 0 <= i < |rows| => rows[i].predictedPrice),
          "expected_return" := seq(|rows|, i requires 0 <= i < |rows| => rows[i].expectedReturn),
          "probability_up" := seq(|rows|, i requires 0 <= i < |rows| => rows[i].probabilityUp),
          "confidence" := seq(|rows|, i requires 0 <= i < |rows| => rows[i].confidence)])
  }

  // ---------------------------------------------------------------------------
  // Sums, cumulative sums and the spread of a column
  // ---------------------------------------------------------------------------

  function Sum(s: seq<real>): real {
    if |s| == 0 then 0.0 else Sum(s[..|s| - 1]) + s[|s| - 1]
  }

  /** `cumsum`: element i is the sum of the first i + 1 values. */
  method CumSum(s: seq<real>) returns (r: seq<real>)
    ensures |r| == |s|
    ensures forall i :: 0 <= i < |s| ==> r[i] == Sum(s[..i + 1])
  {
    r := [];
    var total := 0.0;
    var i := 0;
    while i < |s|
      invariant 0 <= i <= |s| && |r| == i
      invariant total == Sum(s[..i])
      invariant forall k :: 0 <= k < i ==> r[k] == Sum(s[..k + 1])
    {
      assert s[..i + 1][..i] == s[..i];
      total := total + s[i];
      r := r + [total];
      i := i + 1;
    }
  }

  /** The cumulative sums, as a function for the lemmas. */
  function Cumulative(s: seq<real>): (r: seq<real>)
    ensures |r| == |s|
  {
    seq(|s|, i requires 0 <= i < |s| => Sum(s[..i + 1]))
  }

  function Mean(s: seq<real>): real
    requires |s| > 0
  {
    Sum(s) / (|s| as real)
  }

  function Abs(x: real): real {
    if x < 0.0 then -x else x
  }

  /** The total distance of the values from m. The sample standard
      deviation is zero exactly when every value equals the mean, which is
      exactly when this is zero at the mean. */
  function Deviations(s: seq<real>, m: real): real {
    if |s| == 0 then 0.0 else Deviations(s[..|s| - 1], m) + Abs(s[|s| - 1] - m)
  }

  predicate AllEqual(s: seq<real>) {
    forall i, j :: 0 <= i < |s| && 0 <= j < |s| ==> s[i] == s[j]
  }

  lemma {:induction false} DeviationsNonNegative(s: seq<real>, m: real)
    ensures Deviations(s, m) >= 0.0
  {
    if |s| > 0 {
      DeviationsNonNegative(s[..|s| - 1], m);
    }
  }

  /** The deviations vanish exactly when every value is m. */
  lemma {:induction false} DeviationsZero(s: seq<real>, m: real)
    ensures Deviations(s, m) == 0.0 <==> forall i :: 0 <= i < |s| ==> s[i] == m
  {
    if |s| > 0 {
      DeviationsZero(s[..|s| - 1], m);
      DeviationsNonNegative(s[..|s| - 1], m);
      if Deviations(s, m) == 0.0 {
        forall i | 0 <= i < |s| ensures s[i] == m {
          if i < |s| - 1 { assert s[i] == s[..|s| - 1][i]; }
        }
      }
    }
  }

  /** n equal values sum to n times the value. */
  lemma {:induction false} SumOfConstant(s: seq<real>, c: real)
    requires forall i :: 0 <= i < |s| ==> s[i] == c
    ensures Sum(s) == (|s| as real) * c
  {
    if |s| > 0 {
      SumOfConstant(s[..|s| - 1], c);
    }
  }

  /** The standard deviation of a column is zero exactly when all its values
      are equal. */
  lemma SpreadZeroIffConstant(s: seq<real>)
    requires |s| > 0
    ensures Deviations(s, Mean(s)) == 0.0 <==> AllEqual(s)
  {
    DeviationsZero(s, Mean(s));
    if AllEqual(s) {
      SumOfConstant(s, s[0]);
      assert Sum(s) == (|s| as real) * s[0];
      assert Sum(s) / (|s| as real) == s[0];
    }
  }

  // ---------------------------------------------------------------------------
  // /performance
  // ---------------------------------------------------------------------------

  /** The Sharpe branch: `std()` of a single value is NaN, which is not
      zero, so the ratio is NaN; otherwise zero spread gives 0 and anything
      else the ratio, whose value is not modelled. */
  datatype Sharpe = Undefined | Zero | Ratio

  function SharpeOf(pnl: seq<real>): (r: Sharpe)
    requires |pnl| > 0
  {
    if |pnl| == 1 then Undefined
    else if Deviations(pnl, Mean(pnl)) == 0.0 then Zero
    else Ratio
  }

  /** The sharpe ratio is 0 exactly when there are two or more signals and
      they all have the same pnl. */
  lemma SharpeZeroIffFlat(pnl: seq<real>)
    requires |pnl| > 0
    ensures SharpeOf(pnl) == Zero <==> |pnl| >= 2 && AllEqual(pnl)
    ensures SharpeOf(pnl) == Undefined <==> |pnl| == 1
  {
    SpreadZeroIffConstant(pnl);
  }

  /** What `/performance` returns. */
  datatype Report =
    | NoSignals                                        // {"error": "No signals yet"}
    | KeyError(column: string)                         // df[column] on a missing column
    | Series(timestamps: seq<string>, cumulative: seq<real>, sharpe: Sharpe)

  /** The column `/performance` reads its pnl from, as written. */
  const PNL_COLUMN_AS_WRITTEN: string := "expected_return_percent"

  /** The column both writers store the expected return in. */
  const PNL_COLUMN: string := "expected_return"

  /** `/performance` reading its pnl from `column`. */
  function PerformanceOf(t: SignalTable, column: string): (r: Report)
    requires ValidTable(t)
    ensures r == NoSignals <==> |t.timestamps| == 0
  {
    if |t.timestamps| == 0 then NoSignals
    else if column !in t.numeric then KeyError(column)
    else Series(t.timestamps, Cumulative(t.numeric[column]), SharpeOf(t.numeric[column]))
  }

  /** The result frame of `read_sql`, whose columns `performance` assigns in
      place. */
  class ResultFrame {
    var columns: seq<string>
    var timestamps: seq<string>
    var numeric: map<string, seq<real>>

    constructor (t: SignalTable)
      ensures columns == t.columns && timestamps == t.timestamps && numeric == t.numeric
    {
      columns := t.columns;
      timestamps := t.timestamps;
      numeric := t.numeric;
    }

    /** `df[name] = col`. */
    method Assign(name: string, col: seq<real>)
      modifies this
      ensures numeric == old(numeric)[name := col] && timestamps == old(timestamps)
      ensures columns == if name in old(columns) then old(columns) else old(columns) + [name]
    {
      numeric := numeric[name := col];
      if name !in columns {
        columns := columns + [name];
      }
    }
  }

  /** `performance`, reading its pnl from `column`: stop on an empty table,
      copy the column into `pnl` (a KeyError when it is missing), add its
      cumulative sum as `cumulative_pnl`, then take the Sharpe branch. Only
      REAL columns or absent ones may be named. */
  method Performance(t: SignalTable, column: string) returns (r: Report)
    requires ValidTable(t) && (column in t.columns ==> column in t.numeric)
    ensures r == PerformanceOf(t, column)
  {
    var df := new ResultFrame(t);
    if |df.timestamps| == 0 {
      return NoSignals;
    }
    if column !in df.numeric {
      return KeyError(column);
    }
    df.Assign("pnl", df.numeric[column]);
    var cumulative := CumSum(df.numeric["pnl"]);
    df.Assign("cumulative_pnl", cumulative);
    assert df.numeric["cumulative_pnl"] == Cumulative(t.numeric[column]);
    r := Series(df.timestamps, df.numeric["cumulative_pnl"], SharpeOf(df.numeric["pnl"]));
  }

  /** The route as written reads `expected_return_percent`, which neither
      writer's schema has: every non-empty predictions table, from either
      job, answers with a KeyError. */
  lemma PerformanceAsWrittenFails(appRows: seq<AppRow>, scriptRows: seq<ScriptRow>)
    requires |appRows| > 0 && |scriptRows| > 0
    ensures PerformanceOf(AppTable(appRows), PNL_COLUMN_AS_WRITTEN) == KeyError(PNL_COLUMN_AS_WRITTEN)
    ensures PerformanceOf(ScriptsTable(scriptRows), PNL_COLUMN_AS_WRITTEN) == KeyError(PNL_COLUMN_AS_WRITTEN)
  {
    assert PNL_COLUMN_AS_WRITTEN !in APP_COLUMNS by {
      assert |PNL_COLUMN_AS_WRITTEN| == 23;
      forall k | 0 <= k < |APP_COLUMNS| ensures APP_COLUMNS[k] != PNL_COLUMN_AS_WRITTEN {
        assert |APP_COLUMNS[k]| != 23;
      }
    }
    assert PNL_COLUMN_AS_WRITTEN !in SCRIPT_COLUMNS by {
      forall k | 0 <= k < |SCRIPT_COLUMNS| ensures SCRIPT_COLUMNS[k] != PNL_COLUMN_AS_WRITTEN {
        assert |SCRIPT_COLUMNS[k]| != 23;
      }
    }
  }

  /** Read from the column the writers use, the route answers every
      non-empty table of the deployed job with one point per signal, in
      order, carrying the running total of the expected returns so far;
      and a zero Sharpe exactly when two or more signals all expect the
      same return. */
  lemma PerformanceCorrected(rows: seq<AppRow>)
    requires |rows| > 0
    ensures var r := PerformanceOf(AppTable(rows), PNL_COLUMN);
      && r.Series? && |r.timestamps| == |rows|
      && (forall i :: 0 <= i < |rows| ==> r.timestamps[i] == rows[i].timestamp)
      && r.cumulative == Cumulative(ExpectedReturns(rows))
      && (r.sharpe == Zero <==> |rows| >= 2 && forall i :: 0 <= i < |rows| ==> rows[i].expectedReturn == rows[0].expectedReturn)
  {
    SharpeZeroIffFlat(ExpectedReturns(rows));
  }

  /** The same for the stand-alone job's table: one point per signal, in
      order, each the running total of the stored expected returns. */
  lemma PerformanceCorrectedScripts(rows: seq<ScriptRow>)
    requires |rows| > 0
    ensures var r := PerformanceOf(ScriptsTable(rows), PNL_COLUMN);
      && r.Series? && |r.timestamps| == |rows| && |r.cumulative| == |rows|
      && (forall i :: 0 <= i < |rows| ==> r.timestamps[i] == rows[i].timestamp)
      && (forall i :: 0 <= i < |rows| ==> r.cumulative[i] == Sum(ScriptsTable(rows).numeric[PNL_COLUMN][..i + 1]))
      && (forall i :: 0 <= i < |rows| ==> ScriptsTable(rows).numeric[PNL_COLUMN][i] == rows[i].expectedReturn)
  {
  }

  /** Each step of the series adds that signal's expected return. */
  lemma {:induction false} CumulativeSteps(s: seq<real>)
    ensures |s| > 0 ==> Cumulative(s)[0] == s[0]
    ensures forall i :: 0 < i < |s| ==> Cumulative(s)[i] == Cumulative(s)[i - 1] + s[i]
    ensures |s| > 0 ==> Cumulative(s)[|s| - 1] == Sum(s)
  {
    if |s| > 0 {
      assert s[..1][..0] == [];
      assert Sum(s[..1]) == Sum(s[..1][..0]) + s[0];
      forall i | 0 < i < |s| ensures Cumulative(s)[i] == Cumulative(s)[i - 1] + s[i] {
        assert s[..i + 1][..i] == s[..i];
      }
      assert s[..|s|] == s;
    }
  }

  // ---------------------------------------------------------------------------
  // /historical
  // ---------------------------------------------------------------------------

  /** `tail(k)`: the last k rows, or all of them when there are fewer. */
  function Tail(t: Table, k: nat): (r: Table)
    requires WellFormed(t)
    ensures WellFormed(r) && r.cols.Keys == t.cols.Keys
    ensures Rows(r) == if Rows(t) < k then Rows(t) else k
    ensures forall j :: 0 <= j < Rows(r) ==> r.close[j] == t.close[Rows(t) - Rows(r) + j]
    ensures forall c, j :: c in r.cols && 0 <= j < Rows(r) ==> r.cols[c][j] == t.cols[c][Rows(t) - Rows(r) + j]
  {
    var start := if Rows(t) < k then 0 else Rows(t) - k;
    var cols := map c | c in t.cols :: t.cols[c][start..];
    assert forall c :: c in cols ==> |cols[c]| == |t.close| - start;
    Table(t.close[start..], cols)
  }

  /** The number of bars `/historical` returns. */
  const HISTORY: nat := 100

  /** `/historical`: the last hundred stored bars. */
  function Historical(bars: Table): (r: Table)
    requires WellFormed(bars)
  {
    Tail(bars, HISTORY)
  }

  /** The history ends at the latest bar, and asking again changes nothing. */
  lemma HistoricalEndsAtLatest(bars: Table)
    requires WellFormed(bars) && Rows(bars) > 0
    ensures Rows(Historical(bars)) > 0
    ensures Historical(bars).close[Rows(Historical(bars)) - 1] == bars.close[Rows(bars) - 1]
    ensures Historical(Historical(bars)) == Historical(bars)
  {
    var h := Historical(bars);
    var hh := Historical(h);
    assert hh.close == h.close;
    assert hh.cols == h.cols by {
      forall c | c in h.cols ensures hh.cols[c] == h.cols[c] {
        assert hh.cols[c] == h.cols[c][0..];
      }
    }
  }

  /** After a job has written the cleaned download, `/historical` shows
      its last hundred complete bars. */
  lemma HistoricalAfterReplace(download: Table)
    requires WellFormed(download)
    ensures var h := Historical(DropNA(download));
      && AllComplete(h)
      && Rows(h) == if |Kept(download)| < HISTORY then |Kept(download)| else HISTORY
  {
    var d := DropNA(download);
    var h := Historical(d);
    forall j | 0 <= j < Rows(h) ensures RowComplete(h, j) {
      assert RowComplete(d, Rows(d) - Rows(h) + j);
    }
  }
}
