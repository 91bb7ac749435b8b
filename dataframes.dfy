/** The pandas DataFrame as the trainers and update jobs use it: an object
    whose columns are assigned in place (`df["return_1"] = ...`) and which
    `dropna` replaces by a new frame. Each method is specified by the
    value-level definition in Frames. */
module DataFrames {
  import opened Common
  import opened Frames
  import FeatureProperties

  class DataFrame {
    var close: seq<real>
    var cols: map<Column, seq<Option<real>>>

    /** The frame's current contents. */
    function Value(): Table
      reads this
    {
      Table(close, cols)
    }

    /** Every column has one cell per row and every close is positive. */
    predicate Valid()
      reads this
    {
      WellFormed(Value()) && Positive(close)
    }

    constructor (t: Table)
      requires WellFormed(t) && Positive(t.close)
      ensures Valid() && Value() == t
    {
      close := t.close;
      cols := t.cols;
    }

    /** `df[name] = col`: adds the column or overwrites it. */
    method SetColumn(name: Column, col: seq<Option<real>>)
      requires Valid() && name != Close && |col| == |close|
      modifies this
      ensures Valid() && close == old(close) && cols == old(cols)[name := col]
    {
      cols := cols[name := col];
    }

    /** `add_extra_features`: writes `return_1`, `return_3`, `return_5` and
        `momentum_5` into this frame. */
    method AddExtraFeatures()
      requires Valid()
      modifies this
      ensures Valid() && Value() == WithExtraFeatures(old(Value()))
    {
      SetColumn(Return1, PctChange(close, 1));
      SetColumn(Return3, PctChange(close, 3));
      SetColumn(Return5, PctChange(close, 5));
      SetColumn(Momentum5, Momentum(close, 5));
    }

    /** `df["target_price"] = Close.shift(-1)` and the 0/1 label beside it. */
    method AddTargets()
      requires Valid()
      modifies this
      ensures Valid() && Value() == WithTargets(old(Value()))
    {
      var next := ShiftNext(close);
      SetColumn(TargetPrice, next);
      SetColumn(TargetDirection, UpLabel(close, next));
    }

    /** `df.dropna()`: a new frame with the complete rows; this one is left
        as it is. */
    method DropNA() returns (d: DataFrame)
      requires Valid()
      ensures fresh(d) && d.Valid() && d.Value() == Frames.DropNA(Value())
    {
      DropNAKeepsPositive(Value());
      d := new DataFrame(Frames.DropNA(Value()));
    }
  }

  /** `prepare_data` of the deployed trainer. The caller's frame gains the
      four derived columns and the two targets; the matrix comes from the
      frame `dropna` returns, and no usable row raises. */
  method AppPrepareData(df: DataFrame) returns (r: Result<Dataset>)
    requires df.Valid()
    modifies df
    ensures df.Valid() && df.Value() == TrainingFrame(old(df.Value()))
    ensures r == Frames.AppPrepareData(old(df.Value()))
    ensures r.Ok? ==> |r.value.x| > 0
  {
    df.AddExtraFeatures();
    df.AddTargets();
    var kept := df.DropNA();
    if |kept.close| == 0 {
      return Err(InsufficientData);
    }
    r := BuildDataset(kept.Value());
  }

  /** `prepare_data` of the stand-alone trainer: the same steps, without the
      raise, so an empty matrix comes back. */
  method ScriptsPrepareData(df: DataFrame) returns (r: Result<Dataset>)
    requires df.Valid()
    modifies df
    ensures df.Valid() && df.Value() == TrainingFrame(old(df.Value()))
    ensures r == Frames.ScriptsPrepareData(old(df.Value()))
  {
    df.AddExtraFeatures();
    df.AddTargets();
    var kept := df.DropNA();
    r := BuildDataset(kept.Value());
  }

  /** The inference feature step of `load_latest_row` and of both update
      jobs: derive the features on a frame of the bars in place, `dropna`,
      take the last row and select the model inputs. */
  method LoadLatestRow(bars: Table) returns (r: Result<Latest>)
    requires WellFormed(bars) && Positive(bars.close)
    ensures r == LatestFeatures(bars)
  {
    var df := new DataFrame(bars);
    df.AddExtraFeatures();
    var d := df.DropNA();
    FeatureProperties.DropNAPositive(bars, df.Value(), d.Value());
    r := LastRow(d.Value());
  }

  /** What the stand-alone trainer's `main` does with the frame it loaded. */
  datatype TrainOutcome =
    | Failed(error: Error)       // prepare_data raised
    | NoTrainingData             // "ERROR: No data available for training."
    | Train(data: Dataset)       // the matrix handed to train_models

  /** `main` of the stand-alone trainer: prepare the data, stop before
      training when X is empty, otherwise train on it. */
  method ScriptsTrainMain(df: DataFrame) returns (o: TrainOutcome)
    requires df.Valid()
    modifies df
    ensures var p := Frames.ScriptsPrepareData(old(df.Value()));
      && (o.Failed? <==> p.Err?)
      && (o.Failed? ==> p == Err(o.error))
      && (o.NoTrainingData? <==> p.Ok? && |p.value.x| == 0)
      && (o.Train? ==> p == Ok(o.data) && |o.data.x| > 0)
  {
    var r := ScriptsPrepareData(df);
    if r.Err? {
      return Failed(r.error);
    }
    if |r.value.x| == 0 {
      return NoTrainingData;
    }
    o := Train(r.value);
  }
}
