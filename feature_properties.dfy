/** What the feature builder promises: which rows survive `dropna`, how many
    training rows a frame yields, that the training matrix is row-aligned with
    its targets, and that every training row carries exactly the features
    inference would compute at that bar. */
module FeatureProperties {
  import opened Common
  import opened Frames

  function Min(a: int, b: int): int { if a <= b then a else b }

  /** The indices lo, lo+1, ..., hi-1 (empty when hi <= lo). */
  function Range(lo: nat, hi: int): (r: seq<nat>)
    ensures |r| == if hi > lo then hi - lo else 0
    ensures forall j :: 0 <= j < |r| ==> r[j] == lo + j
  {
    seq(if hi > lo then hi - lo else 0, j requires 0 <= j => lo + j)
  }

  /** `pct_change(k)` at bar i >= k is the change since bar i-k relative to
      the close at bar i-k, positive exactly when the price rose. */
  lemma PctChangeIsRelativeChange(close: seq<real>, k: nat, i: nat)
    requires Positive(close) && k <= i < |close|
    ensures PctChange(close, k)[i].value == (close[i] - close[i - k]) / close[i - k]
    ensures PctChange(close, k)[i].value > 0.0 <==> close[i] > close[i - k]
  {
    assert close[i - k] > 0.0;
    RelativeChange(close[i], close[i - k]);
    QuotientSign(close[i] - close[i - k], close[i - k]);
  }

  /** The kept indices come out in strictly increasing order. */
  lemma {:induction false} KeptBelowIncreasing(mask: seq<bool>, n: nat)
    requires n <= |mask|
    ensures forall j1, j2 :: 0 <= j1 < j2 < |KeptBelow(mask, n)| ==>
      KeptBelow(mask, n)[j1] < KeptBelow(mask, n)[j2]
  {
    if n > 0 {
      KeptBelowIncreasing(mask, n - 1);
    }
  }

  /** No index where the mask holds is dropped. */
  lemma {:induction false} KeptBelowComplete(mask: seq<bool>, n: nat)
    requires n <= |mask|
    ensures forall i :: 0 <= i < n && mask[i] ==> i in KeptBelow(mask, n)
  {
    if n > 0 {
      KeptBelowComplete(mask, n - 1);
    }
  }

  /** `dropna` keeps every complete row, once each, in the frame's order. */
  lemma KeptExactly(t: Table)
    requires WellFormed(t)
    ensures forall j1, j2 :: 0 <= j1 < j2 < |Kept(t)| ==> Kept(t)[j1] < Kept(t)[j2]
    ensures forall i :: 0 <= i < Rows(t) && RowComplete(t, i) ==> i in Kept(t)
  {
    KeptBelowIncreasing(Mask(t), Rows(t));
    KeptBelowComplete(Mask(t), Rows(t));
  }

  /** When the mask holds exactly on the window [lo, hi), the kept indices
      below n are exactly that window cut at n, in order. */
  lemma {:induction false} KeptWindow(mask: seq<bool>, lo: nat, hi: int, n: nat)
    requires n <= |mask|
    requires forall i :: 0 <= i < |mask| ==> (mask[i] <==> lo <= i < hi)
    ensures KeptBelow(mask, n) == Range(lo, Min(n, hi))
  {
    if n == 0 {
      assert |Range(lo, Min(n, hi))| == 0;
      assert KeptBelow(mask, n) == Range(lo, Min(n, hi));
    } else {
      KeptWindow(mask, lo, hi, n - 1);
      var prev := Range(lo, Min(n - 1, hi));
      if lo <= n - 1 < hi {
        assert Min(n - 1, hi) == n - 1 && Min(n, hi) == n;
        assert KeptBelow(mask, n) == prev + [n - 1];
        RangeSnoc(lo, n - 1);
        assert KeptBelow(mask, n) == Range(lo, Min(n, hi));
      } else {
        assert KeptBelow(mask, n) == prev + [];
        assert prev + [] == prev;
        if n - 1 < lo {
          assert |Range(lo, Min(n, hi))| == 0 == |prev|;
          assert KeptBelow(mask, n) == Range(lo, Min(n, hi));
        } else {
          assert Min(n, hi) == Min(n - 1, hi);
          assert KeptBelow(mask, n) == Range(lo, Min(n, hi));
        }
      }
    }
  }

  /** Extending a range by one index appends that index. */
  lemma RangeSnoc(lo: nat, last: nat)
    requires lo <= last
    ensures Range(lo, last + 1) == Range(lo, last) + [last]
  {
    var a, b := Range(lo, last + 1), Range(lo, last) + [last];
    assert |a| == |b|;
    forall j | 0 <= j < |a| ensures a[j] == b[j] {
    }
  }

  /** When the complete rows are exactly the window [lo, hi), `dropna` keeps
      exactly that window, in order. */
  lemma KeptRowsWindow(t: Table, lo: nat, hi: int)
    requires WellFormed(t)
    requires forall i :: 0 <= i < Rows(t) ==> (RowComplete(t, i) <==> lo <= i < hi)
    ensures Kept(t) == Range(lo, Min(Rows(t), hi))
  {
    KeptWindow(Mask(t), lo, hi, Rows(t));
  }

  /** `dropna` on a frame with no missing cell changes nothing. */
  lemma DropNAOfComplete(t: Table)
    requires WellFormed(t) && AllComplete(t)
    ensures DropNA(t) == t
  {
    KeptRowsWindow(t, 0, Rows(t));
    var r := DropNA(t);
    assert r.close == t.close;
    forall c | c in t.cols ensures r.cols[c] == t.cols[c] {
      assert |r.cols[c]| == |t.cols[c]|;
    }
    assert r.cols == t.cols;
  }

  /** `dropna` is idempotent: a frame it returned has no row left to drop. */
  lemma DropNAIdempotent(t: Table)
    requires WellFormed(t)
    ensures DropNA(DropNA(t)) == DropNA(t)
  {
    DropNAOfComplete(DropNA(t));
  }

  /** With every indicator defined, row i has all four derived columns
      exactly when i >= 5. */
  lemma InferenceRowsComplete(t: Table)
    requires WellFormed(t) && Positive(t.close) && AllComplete(t)
    ensures forall i :: 0 <= i < Rows(t) ==>
      (RowComplete(WithExtraFeatures(t), i) <==> 5 <= i)
  {
    var e := WithExtraFeatures(t);
    forall i | 0 <= i < Rows(t) ensures RowComplete(e, i) <==> 5 <= i {
      if RowComplete(e, i) {
        assert e.cols[Return5][i].Some?;
      } else {
        assert RowComplete(t, i);
      }
    }
  }

  /** With every indicator defined, the inference `dropna` keeps bars
      5..n-1, so its last row is the last bar. */
  lemma InferenceKeepsTail(t: Table)
    requires WellFormed(t) && Positive(t.close) && AllComplete(t)
    ensures Kept(WithExtraFeatures(t)) == Range(5, Rows(t))
    ensures Rows(DropNA(WithExtraFeatures(t))) == if Rows(t) >= 6 then Rows(t) - 5 else 0
  {
    InferenceRowsComplete(t);
    KeptRowsWindow(WithExtraFeatures(t), 5, Rows(t));
  }

  /** With every indicator defined, inference succeeds exactly when there
      are at least six bars. */
  lemma LatestAvailable(t: Table)
    requires WellFormed(t) && Positive(t.close) && AllComplete(t) && HasIndicators(t)
    ensures LatestFeatures(t).Ok? <==> Rows(t) >= 6
  {
    var e := WithExtraFeatures(t);
    var d := DropNA(e);
    InferenceKeepsTail(t);
    FeaturesPresent(t);
    if Rows(t) >= 6 {
      LastRowValues(t, Rows(t) - 1);
    } else {
      assert Rows(d) == 0;
    }
  }

  /** With every indicator defined and at least six bars, inference reads the
      last bar: its Close, its indicators and returns over 1, 3 and 5 bars. */
  lemma LatestIsLastBar(t: Table)
    requires WellFormed(t) && Positive(t.close) && AllComplete(t) && HasIndicators(t)
    requires Rows(t) >= 6
    ensures LatestFeatures(t).Ok?
    ensures
      var n := Rows(t);
      var v := LatestFeatures(t).value.features;
      && v[0] == t.close[n - 1]
      && t.cols[Volatility][n - 1] == Some(v[7])
      && PctChange(t.close, 1)[n - 1] == Some(v[8])
      && PctChange(t.close, 3)[n - 1] == Some(v[9])
      && PctChange(t.close, 5)[n - 1] == Some(v[10])
      && v[11] == t.close[n - 1] - t.close[n - 6]
  {
    var n := Rows(t);
    var e := WithExtraFeatures(t);
    var d := DropNA(e);
    InferenceKeepsTail(t);
    FeaturesPresent(t);
    LastRowValues(t, n - 1);
    var v := LatestFeatures(t).value.features;
    FeatureCells(v, e, n - 1);
    ExtraCells(t, n - 1);
  }

  /** Reading a feature vector by position: which column each used slot holds. */
  lemma FeatureCells(v: seq<real>, e: Table, i: nat)
    requires WellFormed(e) && i < Rows(e) && RowComplete(e, i) && |v| == |FEATURES|
    requires forall k :: 0 <= k < |FEATURES| ==>
      Present(e, FEATURES[k]) && v[k] == Cell(e, FEATURES[k], i)
    ensures v[0] == Cell(e, Close, i)
    ensures Present(e, Volatility) && v[7] == Cell(e, Volatility, i)
    ensures Present(e, Return1) && v[8] == Cell(e, Return1, i)
    ensures Present(e, Return3) && v[9] == Cell(e, Return3, i)
    ensures Present(e, Return5) && v[10] == Cell(e, Return5, i)
    ensures Present(e, Momentum5) && v[11] == Cell(e, Momentum5, i)
  {
    assert FEATURES[0] == Close && FEATURES[7] == Volatility;
    assert FEATURES[8] == Return1 && FEATURES[9] == Return3;
    assert FEATURES[10] == Return5 && FEATURES[11] == Momentum5;
  }

  /** A bar frame with the seven indicator columns has, after the derived
      columns and `dropna`, all twelve model inputs. */
  lemma FeaturesPresent(t: Table)
    requires WellFormed(t) && Positive(t.close)
    requires HasIndicators(t)
    ensures HasInputs(DropNA(WithExtraFeatures(t)))
  {
    var d := DropNA(WithExtraFeatures(t));
    assert d.cols.Keys == t.cols.Keys + {Return1, Return3, Return5, Momentum5};
    forall k | 0 <= k < |FEATURES| ensures Present(d, FEATURES[k]) {
    }
  }

  /** v holds the twelve inputs of the complete row i of frame e, in order. */
  predicate RowInputs(v: seq<real>, e: Table, i: nat)
    requires WellFormed(e)
  {
    && i < Rows(e) && RowComplete(e, i) && |v| == |FEATURES|
    && forall k :: 0 <= k < |FEATURES| ==>
      Present(e, FEATURES[k]) && v[k] == Cell(e, FEATURES[k], i)
  }

  /** An inference result that holds the twelve inputs of row i of frame e. */
  predicate ReadsRow(r: Result<Latest>, e: Table, i: nat)
    requires WellFormed(e)
  {
    r.Ok? && RowInputs(r.value.features, e, i)
  }

  /** Row s has the same cells in frames e and f, for every column of e. */
  predicate SameRow(e: Table, f: Table, s: nat)
    requires WellFormed(e) && WellFormed(f)
  {
    && s < Rows(e) && s < Rows(f) && e.close[s] == f.close[s]
    && forall c :: c in e.cols ==> c in f.cols && e.cols[c][s] == f.cols[c][s]
  }

  /** Row s is the last row `dropna` keeps. */
  predicate KeptLast(e: Table, s: nat)
    requires WellFormed(e)
  {
    |Kept(e)| > 0 && Kept(e)[|Kept(e)| - 1] == s
  }

  /** Inference reads its twelve inputs from the last row `dropna` keeps of
      the frame with the derived columns. */
  lemma LastRowValues(t: Table, s: nat)
    requires WellFormed(t) && Positive(t.close)
    requires KeptLast(WithExtraFeatures(t), s)
    requires HasInputs(DropNA(WithExtraFeatures(t)))
    ensures ReadsRow(LatestFeatures(t), WithExtraFeatures(t), s)
  {
    var e := WithExtraFeatures(t);
    var d := DropNA(e);
    var last := Rows(d) - 1;
    DropNAPositive(t, e, d);
    LastRowCells(d);
    forall k | 0 <= k < |FEATURES|
      ensures Present(e, FEATURES[k])
      ensures Cell(d, FEATURES[k], last) == Cell(e, FEATURES[k], s)
    {
      DropNACell(e, FEATURES[k], last);
    }
  }

  /** `dropna` keeps only positive closes when every close is positive. */
  lemma DropNAPositive(t: Table, e: Table, d: Table)
    requires WellFormed(t) && Positive(t.close)
    requires e == WithExtraFeatures(t) && d == DropNA(e)
    ensures Positive(d.close) && LatestFeatures(t) == LastRow(d)
  {
    DropNAKeepsPositive(e);
  }

  /** On a non-empty frame with every input, `iloc[-1][FEATURES]` reads the
      inputs of the last row. */
  lemma LastRowCells(d: Table)
    requires WellFormed(d) && AllComplete(d) && Positive(d.close) && Rows(d) > 0
    requires HasInputs(d)
    ensures RowComplete(d, Rows(d) - 1) && LastRow(d).Ok?
    ensures forall k :: 0 <= k < |FEATURES| ==>
      LastRow(d).value.features[k] == Cell(d, FEATURES[k], Rows(d) - 1)
  {
    assert RowComplete(d, Rows(d) - 1);
  }

  /** A cell of the frame `dropna` returns is the cell of the row it kept. */
  lemma DropNACell(x: Table, name: Column, j: nat)
    requires WellFormed(x) && j < Rows(DropNA(x)) && Present(x, name)
    ensures Kept(x)[j] < Rows(x) && RowComplete(x, Kept(x)[j])
    ensures Present(DropNA(x), name) && RowComplete(DropNA(x), j)
    ensures Cell(DropNA(x), name, j) == Cell(x, name, Kept(x)[j])
  {
  }

  /** The derived cells of a complete row are the derived columns at that bar. */
  lemma ExtraCells(t: Table, i: nat)
    requires WellFormed(t) && Positive(t.close) && 5 <= i < Rows(t)
    requires RowComplete(WithExtraFeatures(t), i)
    ensures var e := WithExtraFeatures(t);
      && Cell(e, Close, i) == t.close[i]
      && PctChange(t.close, 1)[i] == Some(Cell(e, Return1, i))
      && PctChange(t.close, 3)[i] == Some(Cell(e, Return3, i))
      && PctChange(t.close, 5)[i] == Some(Cell(e, Return5, i))
      && Cell(e, Momentum5, i) == t.close[i] - t.close[i - 5]
      && (Volatility in t.cols ==> t.cols[Volatility][i] == Some(Cell(e, Volatility, i)))
  {
    var e := WithExtraFeatures(t);
    if Volatility in t.cols {
      assert e.cols[Volatility] == t.cols[Volatility];
    }
  }

  /** With every indicator defined, a training row is complete exactly when
      it has five earlier bars and a next bar: `dropna` keeps rows 5..n-2,
      so max(0, n - 6) rows. */
  lemma TrainingRowCount(t: Table)
    requires WellFormed(t) && Positive(t.close) && AllComplete(t)
    ensures forall i :: 0 <= i < Rows(t) ==>
      (RowComplete(TrainingFrame(t), i) <==> 5 <= i < Rows(t) - 1)
    ensures Kept(TrainingFrame(t)) == Range(5, Rows(t) - 1)
    ensures Rows(TrainingRows(t)) == if Rows(t) >= 6 then Rows(t) - 6 else 0
  {
    var n := Rows(t);
    var e := WithExtraFeatures(t);
    var f := TrainingFrame(t);
    forall i | 0 <= i < n ensures RowComplete(f, i) <==> 5 <= i < n - 1 {
      if RowComplete(f, i) {
        assert f.cols[Return5][i].Some?;
        assert f.cols[TargetPrice][i].Some?;
      } else {
        assert RowComplete(t, i);
      }
    }
    KeptRowsWindow(f, 5, (n as int) - 1);
  }

  /** The training matrix is row-aligned: X, y_price and y_direction have one
      entry per row, each X row has the twelve inputs in order, and the label
      is 1 exactly when the target is above that row's Close. */
  lemma DatasetAligned(t: Table)
    requires WellFormed(t) && Positive(t.close)
    requires ScriptsPrepareData(t).Ok?
    ensures var ds := ScriptsPrepareData(t).value;
      && |ds.x| == |ds.yPrice| == |ds.yDirection| == |Kept(TrainingFrame(t))|
      && forall j :: 0 <= j < |ds.x| ==>
           && |ds.x[j]| == |FEATURES|
           && ds.x[j][0] == t.close[SourceRow(t, j)]
           && SourceRow(t, j) + 1 < Rows(t)
           && ds.yPrice[j] == t.close[SourceRow(t, j) + 1]
           && (ds.yDirection[j] == 1.0 <==> ds.yPrice[j] > ds.x[j][0])
           && (ds.yDirection[j] == 0.0 || ds.yDirection[j] == 1.0)
  {
    var f := TrainingFrame(t);
    var d := TrainingRows(t);
    var ds := ScriptsPrepareData(t).value;
    var e := WithExtraFeatures(t);
    var next := ShiftNext(t.close);
    assert f.cols[TargetPrice] == next;
    assert f.cols[TargetDirection] == UpLabel(t.close, next);
    forall j | 0 <= j < |ds.x|
      ensures |ds.x[j]| == |FEATURES|
      ensures ds.x[j][0] == t.close[SourceRow(t, j)]
      ensures SourceRow(t, j) + 1 < Rows(t)
      ensures ds.yPrice[j] == t.close[SourceRow(t, j) + 1]
      ensures ds.yDirection[j] == 1.0 <==> ds.yPrice[j] > ds.x[j][0]
      ensures ds.yDirection[j] == 0.0 || ds.yDirection[j] == 1.0
    {
      var s := SourceRow(t, j);
      assert RowComplete(d, j);
      assert RowComplete(f, s);
      assert f.cols[TargetPrice][s].Some?;
      assert ds.x[j] == Select(d, j, FEATURES).value;
      assert ds.x[j][0] == Cell(d, Close, j) == d.close[j] == t.close[s];
      assert ds.yPrice[j] == d.cols[TargetPrice][j].value == next[s].value;
      assert ds.yDirection[j] == d.cols[TargetDirection][j].value;
    }
  }

  /** The two trainers agree whenever the deployed one succeeds; it only adds
      the error for an empty matrix. */
  lemma TrainersAgree(t: Table)
    requires WellFormed(t) && Positive(t.close)
    ensures AppPrepareData(t).Ok? ==> AppPrepareData(t) == ScriptsPrepareData(t)
    ensures ScriptsPrepareData(t).Ok? && |ScriptsPrepareData(t).value.x| > 0 ==>
      AppPrepareData(t) == ScriptsPrepareData(t)
    ensures AppPrepareData(t) == Err(InsufficientData) <==> Rows(TrainingRows(t)) == 0
  {
  }

  /** A lagged return only looks back, so it is the same on a prefix. */
  lemma PctChangeOnPrefix(close: seq<real>, k: nat, m: nat, s: nat)
    requires Positive(close) && s < m <= |close|
    ensures Positive(close[..m]) && PctChange(close[..m], k)[s] == PctChange(close, k)[s]
  {
    assert Positive(close[..m]);
    if k <= s {
      assert close[..m][s] == close[s] && close[..m][s - k] == close[s - k];
    }
  }

  /** The momentum only looks back, so it is the same on a prefix. */
  lemma MomentumOnPrefix(close: seq<real>, k: nat, m: nat, s: nat)
    requires s < m <= |close|
    ensures Momentum(close[..m], k)[s] == Momentum(close, k)[s]
  {
    if k <= s {
      assert close[..m][s] == close[s] && close[..m][s - k] == close[s - k];
    }
  }

  /** The derived columns only look back: on the first m bars they agree, up
      to row m-1, with the same columns of the full training frame. */
  lemma PrefixColumnsAgree(t: Table, m: nat, s: nat)
    requires WellFormed(t) && Positive(t.close) && s < m <= Rows(t)
    requires TargetPrice !in t.cols && TargetDirection !in t.cols
    ensures Positive(Prefix(t, m).close)
    ensures SameRow(WithExtraFeatures(Prefix(t, m)), TrainingFrame(t), s)
  {
    var e := WithExtraFeatures(Prefix(t, m));
    var f := TrainingFrame(t);
    forall c | c in e.cols ensures c in f.cols && e.cols[c][s] == f.cols[c][s] {
      PrefixColumnAgrees(t, m, s, c);
    }
  }

  /** One column of [PrefixColumnsAgree]. */
  lemma PrefixColumnAgrees(t: Table, m: nat, s: nat, c: Column)
    requires WellFormed(t) && Positive(t.close) && s < m <= Rows(t)
    requires TargetPrice !in t.cols && TargetDirection !in t.cols
    requires Positive(Prefix(t, m).close) && c in WithExtraFeatures(Prefix(t, m)).cols
    ensures var e := WithExtraFeatures(Prefix(t, m));
      var f := TrainingFrame(t);
      c in f.cols && e.cols[c][s] == f.cols[c][s]
  {
    var x := WithExtraFeatures(t);
    assert c in x.cols && TrainingFrame(t).cols[c] == x.cols[c];
    if c in {Return1, Return3, Return5, Momentum5} {
      PrefixDerivedColumn(t, m, s, c);
    } else {
      PrefixCarriedColumn(t, m, s, c);
    }
  }

  /** A derived column only looks back, so on the first m bars it agrees
      with the full frame's up to row m-1. */
  lemma PrefixDerivedColumn(t: Table, m: nat, s: nat, c: Column)
    requires WellFormed(t) && Positive(t.close) && s < m <= Rows(t)
    requires Positive(Prefix(t, m).close) && c in {Return1, Return3, Return5, Momentum5}
    ensures WithExtraFeatures(Prefix(t, m)).cols[c][s] == WithExtraFeatures(t).cols[c][s]
  {
    if c == Return1 {
      PctChangeOnPrefix(t.close, 1, m, s);
    } else if c == Return3 {
      PctChangeOnPrefix(t.close, 3, m, s);
    } else if c == Return5 {
      PctChangeOnPrefix(t.close, 5, m, s);
    } else {
      MomentumOnPrefix(t.close, 5, m, s);
    }
  }

  /** A column the derived step does not write is the input column, cut to
      the first m bars. */
  lemma PrefixCarriedColumn(t: Table, m: nat, s: nat, c: Column)
    requires WellFormed(t) && Positive(t.close) && s < m <= Rows(t)
    requires Positive(Prefix(t, m).close) && c in t.cols
    requires c !in {Return1, Return3, Return5, Momentum5}
    ensures WithExtraFeatures(Prefix(t, m)).cols[c][s] == t.cols[c][s] == WithExtraFeatures(t).cols[c][s]
  {
    var p := Prefix(t, m);
    assert WithExtraFeatures(p).cols[c] == p.cols[c] == t.cols[c][..m];
  }

  /** Entry k of training row j is the cell of the training frame at the row
      it came from. */
  lemma TrainingCell(t: Table, j: nat, k: nat)
    requires WellFormed(t) && Positive(t.close)
    requires ScriptsPrepareData(t).Ok? && j < |ScriptsPrepareData(t).value.x| && k < |FEATURES|
    ensures j < |Kept(TrainingFrame(t))|
    ensures SourceRow(t, j) < Rows(t) && RowComplete(TrainingFrame(t), SourceRow(t, j))
    ensures Present(TrainingFrame(t), FEATURES[k])
    ensures |ScriptsPrepareData(t).value.x[j]| == |FEATURES|
    ensures ScriptsPrepareData(t).value.x[j][k] == Cell(TrainingFrame(t), FEATURES[k], SourceRow(t, j))
  {
    var f := TrainingFrame(t);
    var dt := TrainingRows(t);
    assert HasInputs(dt);
    assert Present(dt, FEATURES[k]);
    assert RowComplete(dt, j);
    assert ScriptsPrepareData(t).value.x[j] == Select(dt, j, FEATURES).value;
    DropNACell(f, FEATURES[k], j);
  }

  /** On the bars up to a complete training row, the inference `dropna`
      keeps that row last. */
  lemma PrefixEndsAtRow(t: Table, s: nat)
    requires WellFormed(t) && Positive(t.close) && s < Rows(t)
    requires TargetPrice !in t.cols && TargetDirection !in t.cols
    requires RowComplete(TrainingFrame(t), s)
    ensures Positive(Prefix(t, s + 1).close)
    ensures var e := WithExtraFeatures(Prefix(t, s + 1));
      RowComplete(e, s) && KeptLast(e, s)
  {
    PrefixColumnsAgree(t, s + 1, s);
    var e := WithExtraFeatures(Prefix(t, s + 1));
    assert RowComplete(e, s);
    assert Kept(e) == KeptBelow(Mask(e), s) + [s];
  }

  /** A frame the trainer accepts has every indicator column. */
  lemma PreparedHasIndicators(t: Table)
    requires WellFormed(t) && Positive(t.close)
    requires ScriptsPrepareData(t).Ok?
    ensures HasIndicators(t)
  {
    var dt := TrainingRows(t);
    var x := WithExtraFeatures(t);
    assert HasInputs(dt);
    InputsIncludeIndicators(dt);
    IndicatorsAreInputs(t.cols.Keys, x.cols.Keys, dt.cols.Keys);
  }

  /** The indicators are neither derived nor targets, so a frame built by
      adding those columns has them only if its source had them. */
  lemma IndicatorsAreInputs(source: set<Column>, extended: set<Column>, training: set<Column>)
    requires extended == source + {Return1, Return3, Return5, Momentum5}
    requires training == extended + {TargetPrice, TargetDirection}
    requires forall c :: c in INDICATORS ==> c in training
    ensures forall c :: c in INDICATORS ==> c in source
  {
  }

  /** A frame with all twelve model inputs has the seven indicators. */
  lemma InputsIncludeIndicators(d: Table)
    requires HasInputs(d)
    ensures HasIndicators(d) && forall c :: c in INDICATORS ==> c in d.cols
  {
    assert Present(d, FEATURES[1]) && Present(d, FEATURES[2]) && Present(d, FEATURES[3]);
    assert Present(d, FEATURES[4]) && Present(d, FEATURES[5]) && Present(d, FEATURES[6]);
    assert Present(d, FEATURES[7]);
  }

  /** Two frames whose row s agrees on every column give the same inputs. */
  lemma VectorsAgree(v: seq<real>, x: seq<real>, e: Table, f: Table, s: nat)
    requires WellFormed(e) && WellFormed(f)
    requires RowInputs(v, e, s) && RowInputs(x, f, s) && SameRow(e, f, s)
    ensures v == x
  {
    forall k | 0 <= k < |FEATURES| ensures v[k] == x[k] {
    }
  }

  /** Every entry of training row j, as a cell of the training frame. */
  lemma TrainingRowCells(t: Table, j: nat)
    requires WellFormed(t) && Positive(t.close)
    requires ScriptsPrepareData(t).Ok? && j < |ScriptsPrepareData(t).value.x|
    ensures j < |Kept(TrainingFrame(t))|
    ensures RowInputs(ScriptsPrepareData(t).value.x[j], TrainingFrame(t), SourceRow(t, j))
  {
    TrainingCell(t, j, 0);
    forall k | 0 <= k < |FEATURES|
      ensures Present(TrainingFrame(t), FEATURES[k])
      ensures ScriptsPrepareData(t).value.x[j][k] == Cell(TrainingFrame(t), FEATURES[k], SourceRow(t, j))
    {
      TrainingCell(t, j, k);
    }
  }

  /** Training/inference parity: training row j of the matrix holds exactly
      the feature vector that the inference path computes when the bars end
      at the row it came from. */
  lemma TrainingInferenceParity(t: Table, j: nat)
    requires WellFormed(t) && Positive(t.close)
    requires TargetPrice !in t.cols && TargetDirection !in t.cols
    requires ScriptsPrepareData(t).Ok? && j < |ScriptsPrepareData(t).value.x|
    ensures j < |Kept(TrainingFrame(t))| && SourceRow(t, j) + 1 < Rows(t)
    ensures LatestFeatures(Prefix(t, SourceRow(t, j) + 1)).Ok?
    ensures LatestFeatures(Prefix(t, SourceRow(t, j) + 1)).value.features == ScriptsPrepareData(t).value.x[j]
  {
    DatasetAligned(t);
    TrainingRowCells(t, j);
    PreparedHasIndicators(t);
    var s := SourceRow(t, j);
    var p := Prefix(t, s + 1);
    PrefixEndsAtRow(t, s);
    PrefixColumnsAgree(t, s + 1, s);
    FeaturesPresent(p);
    LastRowValues(p, s);
    VectorsAgree(LatestFeatures(p).value.features, ScriptsPrepareData(t).value.x[j],
      WithExtraFeatures(p), TrainingFrame(t), s);
  }
}
