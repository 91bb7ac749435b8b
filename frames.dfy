/** The feature builder, on values: a bar frame is the Close column plus named
    columns whose cells may be missing. The derived columns, `dropna`, the
    selection of the twelve model inputs, and the training matrix with its
    next-bar targets are defined here once; the inference paths and the two
    training scripts all use these definitions. */
module Frames {
  import opened Common


  /** The model inputs, in the order the predictors were fitted with. */
  const FEATURES: seq<Column> :=
    [Close, Ema9, Ema21, Rsi, Macd, MacdSignal, Atr, Volatility,
     Return1, Return3, Return5, Momentum5]

  /** The indicator columns the `ta` library adds; their values are inputs here. */
  const INDICATORS: seq<Column> := [Ema9, Ema21, Rsi, Macd, MacdSignal, Atr, Volatility]

  /** The frame has every indicator column. */
  predicate HasIndicators(t: Table) {
    Ema9 in t.cols && Ema21 in t.cols && Rsi in t.cols && Macd in t.cols &&
    MacdSignal in t.cols && Atr in t.cols && Volatility in t.cols
  }

  /** A data frame: the Close column and the other columns by name. */
  datatype Table = Table(close: seq<real>, cols: map<Column, seq<Option<real>>>)

  function Rows(t: Table): nat { |t.close| }

  /** Every column has one cell per row, and Close is kept apart. */
  predicate WellFormed(t: Table) {
    && Close !in t.cols
    && forall c :: c in t.cols ==> |t.cols[c]| == |t.close|
  }

  predicate Positive(s: seq<real>) {
    forall i :: 0 <= i < |s| ==> s[i] > 0.0
  }

  // ---------------------------------------------------------------------------
  // Derived columns
  // ---------------------------------------------------------------------------

  /** `close.pct_change(k)`: the change relative to the close k bars earlier. */
  function PctChange(close: seq<real>, k: nat): (col: seq<Option<real>>)
    requires Positive(close)
    ensures |col| == |close|
    ensures forall i :: 0 <= i < |close| ==> (col[i].Some? <==> k <= i)
  {
    seq(|close|, i requires 0 <= i < |close| =>
      if i < k then None else Some(close[i] / close[i - k] - 1.0))
  }

  /** `close - close.shift(k)`. */
  function Momentum(close: seq<real>, k: nat): (col: seq<Option<real>>)
    ensures |col| == |close|
    ensures forall i :: 0 <= i < |close| ==> (col[i].Some? <==> k <= i)
    ensures forall i :: k <= i < |close| ==> close[i] == close[i - k] + col[i].value
  {
    seq(|close|, i requires 0 <= i < |close| =>
      if i < k then None else Some(close[i] - close[i - k]))
  }

  /** `close.shift(-1)`: the next bar's close, missing on the last row. */
  function ShiftNext(close: seq<real>): (col: seq<Option<real>>)
    ensures |col| == |close|
    ensures forall i :: 0 <= i < |close| ==> (col[i].Some? <==> i + 1 < |close|)
    ensures forall i :: 0 <= i < |close| - 1 ==> col[i].value == close[i + 1]
  {
    seq(|close|, i requires 0 <= i < |close| =>
      if i + 1 < |close| then Some(close[i + 1]) else None)
  }

  /** `np.where(target > close, 1, 0)`: a missing target compares false, so
      the label is never missing. */
  function UpLabel(close: seq<real>, target: seq<Option<real>>): (col: seq<Option<real>>)
    requires |target| == |close|
    ensures |col| == |close|
    ensures forall i :: 0 <= i < |close| ==> col[i].Some? && (col[i].value == 0.0 || col[i].value == 1.0)
    ensures forall i :: 0 <= i < |close| ==>
      (col[i].value == 1.0 <==> target[i].Some? && target[i].value > close[i])
  {
    seq(|close|, i requires 0 <= i < |close| =>
      if target[i].Some? && target[i].value > close[i] then Some(1.0) else Some(0.0))
  }

  /** `add_extra_features`: the three lagged returns and the 5-bar momentum. */
  function WithExtraFeatures(t: Table): (r: Table)
    requires WellFormed(t) && Positive(t.close)
    ensures WellFormed(r) && r.close == t.close
    ensures r.cols.Keys == t.cols.Keys + {Return1, Return3, Return5, Momentum5}
    ensures forall c :: c in t.cols && c !in {Return1, Return3, Return5, Momentum5} ==> r.cols[c] == t.cols[c]
    ensures r.cols[Return1] == PctChange(t.close, 1) && r.cols[Return3] == PctChange(t.close, 3)
    ensures r.cols[Return5] == PctChange(t.close, 5) && r.cols[Momentum5] == Momentum(t.close, 5)
  {
    Table(t.close,
      t.cols[Return1 := PctChange(t.close, 1)]
            [Return3 := PctChange(t.close, 3)]
            [Return5 := PctChange(t.close, 5)]
            [Momentum5 := Momentum(t.close, 5)])
  }

  /** The training targets: the next close and the 0/1 "next close is higher" label. */
  function WithTargets(t: Table): (r: Table)
    requires WellFormed(t)
    ensures WellFormed(r) && r.close == t.close
    ensures r.cols.Keys == t.cols.Keys + {TargetPrice, TargetDirection}
    ensures forall c :: c in t.cols && c !in {TargetPrice, TargetDirection} ==> r.cols[c] == t.cols[c]
    ensures r.cols[TargetPrice] == ShiftNext(t.close)
    ensures r.cols[TargetDirection] == UpLabel(t.close, ShiftNext(t.close))
  {
    var next := ShiftNext(t.close);
    Table(t.close, t.cols[TargetPrice := next][TargetDirection := UpLabel(t.close, next)])
  }

  /** The frame `prepare_data` hands to `dropna`. */
  function TrainingFrame(t: Table): (r: Table)
    requires WellFormed(t) && Positive(t.close)
    ensures WellFormed(r) && r.close == t.close
  {
    WithTargets(WithExtraFeatures(t))
  }

  // ---------------------------------------------------------------------------
  // dropna
  // ---------------------------------------------------------------------------

  /** No column of row i is missing. */
  predicate RowComplete(t: Table, i: nat)
    requires WellFormed(t) && i < Rows(t)
  {
    forall c :: c in t.cols ==> t.cols[c][i].Some?
  }

  predicate AllComplete(t: Table)
    requires WellFormed(t)
  {
    forall i :: 0 <= i < Rows(t) ==> RowComplete(t, i)
  }

  /** Which rows are complete, as the boolean mask pandas builds for `dropna`. */
  function Mask(t: Table): (m: seq<bool>)
    requires WellFormed(t)
    ensures |m| == Rows(t)
    ensures forall i :: 0 <= i < |m| ==> (m[i] <==> RowComplete(t, i))
  {
    seq(Rows(t), i requires 0 <= i < Rows(t) => RowComplete(t, i))
  }

  /** The indices below n where the mask holds, in increasing order. */
  function KeptBelow(mask: seq<bool>, n: nat): (r: seq<nat>)
    requires n <= |mask|
    ensures |r| <= n
    ensures forall j :: 0 <= j < |r| ==> r[j] < n && mask[r[j]]
  {
    if n == 0 then []
    else KeptBelow(mask, n - 1) + (if mask[n - 1] then [n - 1] else [])
  }

  /** The complete rows of a frame, in order. */
  function Kept(t: Table): (r: seq<nat>)
    requires WellFormed(t)
    ensures forall j :: 0 <= j < |r| ==> r[j] < Rows(t) && RowComplete(t, r[j])
  {
    KeptBelow(Mask(t), Rows(t))
  }

  /** `df.dropna()`: the complete rows, in their original order. */
  function DropNA(t: Table): (r: Table)
    requires WellFormed(t)
    ensures WellFormed(r) && r.cols.Keys == t.cols.Keys
    ensures Rows(r) == |Kept(t)| && AllComplete(r)
    ensures forall j :: 0 <= j < Rows(r) ==> r.close[j] == t.close[Kept(t)[j]]
    ensures forall c, j :: c in r.cols && 0 <= j < Rows(r) ==> r.cols[c][j] == t.cols[c][Kept(t)[j]]
  {
    var k := Kept(t);
    Table(seq(|k|, j requires 0 <= j < |k| => t.close[k[j]]),
          map c | c in t.cols :: seq(|k|, j requires 0 <= j < |k| => t.cols[c][k[j]]))
  }

  /** `dropna` only removes rows, so positive closes stay positive. */
  lemma DropNAKeepsPositive(t: Table)
    requires WellFormed(t) && Positive(t.close)
    ensures Positive(DropNA(t).close)
  {
    var d := DropNA(t);
    forall j | 0 <= j < Rows(d) ensures d.close[j] > 0.0 {
      assert d.close[j] == t.close[Kept(t)[j]];
    }
  }

  // ---------------------------------------------------------------------------
  // Selecting the model inputs
  // ---------------------------------------------------------------------------

  predicate Present(t: Table, name: Column) {
    name == Close || name in t.cols
  }

  /** The frame has all twelve model inputs. */
  predicate HasInputs(t: Table) {
    forall k :: 0 <= k < |FEATURES| ==> Present(t, FEATURES[k])
  }

  /** The requested names the frame lacks, in request order. */
  function Missing(t: Table, names: seq<Column>): (r: seq<Column>)
    ensures forall n :: n in r <==> n in names && !Present(t, n)
    ensures r == [] <==> forall k :: 0 <= k < |names| ==> Present(t, names[k])
  {
    if names == [] then []
    else (if Present(t, names[0]) then [] else [names[0]]) + Missing(t, names[1..])
  }

  function Cell(t: Table, name: Column, i: nat): real
    requires WellFormed(t) && i < Rows(t) && RowComplete(t, i) && Present(t, name)
  {
    if name == Close then t.close[i] else t.cols[name][i].value
  }

  /** `row[names]` on a complete row: a KeyError names a missing column. */
  function Select(t: Table, i: nat, names: seq<Column>): (r: Result<seq<real>>)
    requires WellFormed(t) && i < Rows(t) && RowComplete(t, i)
    ensures r.Ok? <==> forall k :: 0 <= k < |names| ==> Present(t, names[k])
    ensures r.Err? ==> r.error.MissingColumn? && r.error.name in names && !Present(t, r.error.name)
    ensures r.Ok? ==> |r.value| == |names|
    ensures r.Ok? ==> forall k :: 0 <= k < |names| ==> r.value[k] == Cell(t, names[k], i)
  {
    var absent := Missing(t, names);
    if absent != [] then Err(MissingColumn(absent[0]))
    else Ok(seq(|names|, k requires 0 <= k < |names| => Cell(t, names[k], i)))
  }

  /** The last complete row of a frame, as the inference paths use it. */
  datatype Latest = Latest(close: real, volatility: real, features: seq<real>)

  /** The inference feature step: derive returns and momentum, `dropna`, take
      `iloc[-1]` (an IndexError when nothing is left) and select the inputs. */
  function LatestFeatures(t: Table): (r: Result<Latest>)
    requires WellFormed(t) && Positive(t.close)
    ensures r.Ok? ==> |r.value.features| == |FEATURES| && r.value.close > 0.0
    ensures r.Ok? ==> r.value.features[0] == r.value.close && r.value.features[7] == r.value.volatility
  {
    var e := WithExtraFeatures(t);
    DropNAKeepsPositive(e);
    LastRow(DropNA(e))
  }

  /** `iloc[-1]` of a frame after `dropna`, then `row[FEATURES]`. */
  function LastRow(d: Table): (r: Result<Latest>)
    requires WellFormed(d) && AllComplete(d) && Positive(d.close)
    ensures r.Ok? ==> |r.value.features| == |FEATURES| && r.value.close > 0.0
    ensures r.Ok? ==> r.value.features[0] == r.value.close && r.value.features[7] == r.value.volatility
  {
    if Rows(d) == 0 then Err(InsufficientData)
    else
      var last := Rows(d) - 1;
      assert RowComplete(d, last);
      match Select(d, last, FEATURES)
      case Err(e) => Err(e)
      case Ok(v) =>
        assert Present(d, FEATURES[7]);
        Ok(Latest(d.close[last], d.cols[Volatility][last].value, v))
  }

  // ---------------------------------------------------------------------------
  // Training matrix
  // ---------------------------------------------------------------------------

  /** X, y_price and y_direction; the label is the 0/1 value of the column. */
  datatype Dataset = Dataset(x: seq<seq<real>>, yPrice: seq<real>, yDirection: seq<real>)

  /** `X = df[features]`, `y_price`, `y_direction` of a frame after `dropna`. */
  function BuildDataset(d: Table): (r: Result<Dataset>)
    requires WellFormed(d) && AllComplete(d)
    requires TargetPrice in d.cols && TargetDirection in d.cols
    ensures r.Ok? <==> HasInputs(d)
    ensures r.Err? ==> r.error.MissingColumn? && r.error.name in FEATURES && !Present(d, r.error.name)
    ensures r.Ok? ==> |r.value.x| == |r.value.yPrice| == |r.value.yDirection| == Rows(d)
  {
    var absent := Missing(d, FEATURES);
    if absent != [] then Err(MissingColumn(absent[0]))
    else Ok(Dataset(
      seq(Rows(d), j requires 0 <= j < Rows(d) => Select(d, j, FEATURES).value),
      seq(Rows(d), j requires 0 <= j < Rows(d) => assert RowComplete(d, j); d.cols[TargetPrice][j].value),
      seq(Rows(d), j requires 0 <= j < Rows(d) => assert RowComplete(d, j); d.cols[TargetDirection][j].value)))
  }

  /** The frame the training matrix is read from. */
  function TrainingRows(t: Table): (d: Table)
    requires WellFormed(t) && Positive(t.close)
    ensures WellFormed(d) && AllComplete(d)
    ensures TargetPrice in d.cols && TargetDirection in d.cols
  {
    DropNA(TrainingFrame(t))
  }

  /** `prepare_data` of the deployed trainer: raises when no row is usable. */
  function AppPrepareData(t: Table): (r: Result<Dataset>)
    requires WellFormed(t) && Positive(t.close)
  {
    var d := TrainingRows(t);
    if Rows(d) == 0 then Err(InsufficientData) else BuildDataset(d)
  }

  /** `prepare_data` of the stand-alone trainer: an empty matrix is returned. */
  function ScriptsPrepareData(t: Table): (r: Result<Dataset>)
    requires WellFormed(t) && Positive(t.close)
  {
    BuildDataset(TrainingRows(t))
  }

  /** The row of the input frame that training row j came from. */
  function SourceRow(t: Table, j: nat): nat
    requires WellFormed(t) && Positive(t.close)
    requires j < |Kept(TrainingFrame(t))|
  {
    Kept(TrainingFrame(t))[j]
  }

  /** The first m bars of a frame. */
  function Prefix(t: Table, m: nat): (p: Table)
    requires WellFormed(t) && m <= Rows(t)
    ensures WellFormed(p) && Rows(p) == m && p.cols.Keys == t.cols.Keys
    ensures p.close == t.close[..m] && forall c :: c in t.cols ==> p.cols[c] == t.cols[c][..m]
    ensures Positive(t.close) ==> Positive(p.close)
  {
    Table(t.close[..m], map c | c in t.cols :: t.cols[c][..m])
  }
}
