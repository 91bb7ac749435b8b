/** One run of each update job against the database file: the deployed job
    (`app/scripts/update_and_predict.py`), gated by the market clock, and the
    stand-alone job (`scripts/update_and_predict.py`), which always runs. The
    database is an object whose bar table, predictions table and step log the
    run updates in place; each run is specified by a function that lists its
    steps, the bar table it writes, the row it inserts and how it ends. */
module Pipeline {
  import opened Common
  import opened Frames
  import opened DataFrames
  import opened Signals
  import MarketHours

  /** The observable steps of a run, in the order they happen. */
  datatype Step =
    | EnsureTable          // CREATE TABLE IF NOT EXISTS predictions
    | CheckGate(open: bool)
    | Download
    | ReplaceBars          // intraday_data replaced by the cleaned bars
    | PrepareFeatures
    | LoadModels
    | InsertPrediction     // one row appended to predictions

  /** What the outside world supplies to one run: the downloaded bars with
      the indicator columns already added, whether both model files exist,
      the two models, and the timestamp `datetime.now()` prints. */
  datatype Env = Env(download: Table, modelsPresent: bool, price: Predictor, probUp: Predictor, timestamp: string)

  predicate ValidEnv(env: Env) {
    WellFormed(env.download) && Positive(env.download.close)
  }

  /** How a run ends when nothing is raised. */
  datatype Outcome = Skipped | Stored

  /** The specification of a run. `bars` is the bar table written, if any;
      `row` the prediction inserted, if any. */
  datatype Run<Row> = Run(steps: seq<Step>, bars: Option<Table>, row: Option<Row>, outcome: Result<Outcome>)

  /** The rows a run appends: its row, if it has one. */
  function Inserted<Row>(o: Option<Row>): seq<Row> {
    if o.Some? then [o.value] else []
  }

  /** `df.dropna()` after the indicators: the bars both jobs write. */
  function Cleaned(download: Table): (bars: Table)
    requires WellFormed(download) && Positive(download.close)
    ensures WellFormed(bars) && Positive(bars.close) && AllComplete(bars)
    ensures bars == DropNA(download)
  {
    DropNAKeepsPositive(download);
    DropNA(download)
  }

  /** The deployed job's run: create the predictions table, check the
      clock, download (raising on an empty download), write the cleaned bars,
      derive the features of the last bar, load the models, insert the row. */
  function AppRun(clock: MarketHours.Clock, env: Env): (r: Run<AppRow>)
    requires ValidEnv(env)
  {
    var open := MarketHours.InlineGateOpen(clock);
    var gate := [EnsureTable] + [CheckGate(open)];
    if !open then
      Run(gate, None, None, Ok(Skipped))
    else if Rows(env.download) == 0 then
      Run(gate + [Download], None, None, Err(NoData))
    else
      var bars := Cleaned(env.download);
      var steps := gate + [Download] + [ReplaceBars] + [PrepareFeatures];
      match LatestFeatures(bars)
      case Err(e) => Run(steps, Some(bars), None, Err(e))
      case Ok(latest) =>
        if !env.modelsPresent then Run(steps + [LoadModels], Some(bars), None, Err(ModelUnavailable))
        else Run(steps + [LoadModels] + [InsertPrediction], Some(bars),
                 Some(AppSignal(latest, env.price, env.probUp, env.timestamp)), Ok(Stored))
  }

  /** The stand-alone job's run: no clock, no empty-download check, and the
      predictions table is created only when the row is inserted. */
  function ScriptsRun(env: Env): (r: Run<ScriptRow>)
    requires ValidEnv(env)
  {
    var bars := Cleaned(env.download);
    var steps := [Download] + [ReplaceBars] + [PrepareFeatures];
    match LatestFeatures(bars)
    case Err(e) => Run(steps, Some(bars), None, Err(e))
    case Ok(latest) =>
      if !env.modelsPresent then Run(steps + [LoadModels], Some(bars), None, Err(ModelUnavailable))
      else Run(steps + [LoadModels] + [InsertPrediction], Some(bars),
               Some(ScriptSignal(latest, env.price, env.probUp, env.timestamp)), Ok(Stored))
  }

  /** The database file, with the log of the steps taken against it. */
  class Database<Row> {
    var bars: Table
    var predictions: seq<Row>
    var hasPredictionsTable: bool
    var log: seq<Step>

    constructor (bars: Table)
      ensures this.bars == bars && predictions == [] && !hasPredictionsTable && log == []
    {
      this.bars := bars;
      predictions := [];
      hasPredictionsTable := false;
      log := [];
    }

    method Record(step: Step)
      modifies this
      ensures log == old(log) + [step]
      ensures bars == old(bars) && predictions == old(predictions) && hasPredictionsTable == old(hasPredictionsTable)
    {
      log := log + [step];
    }

    /** `update_database`: `to_sql("intraday_data", if_exists="replace")`. */
    method ReplaceBars(t: Table)
      modifies this
      ensures bars == t && log == old(log) + [Step.ReplaceBars]
      ensures predictions == old(predictions) && hasPredictionsTable == old(hasPredictionsTable)
    {
      bars := t;
      log := log + [Step.ReplaceBars];
    }

    /** `store_prediction`: create the table if needed, append the row. */
    method Insert(row: Row)
      modifies this
      ensures predictions == old(predictions) + [row] && hasPredictionsTable
      ensures bars == old(bars) && log == old(log) + [InsertPrediction]
    {
      hasPredictionsTable := true;
      predictions := predictions + [row];
      log := log + [InsertPrediction];
    }
  }

  /** Appending one step to a log that already holds a run's first steps. */
  lemma LogSnoc(log: seq<Step>, steps: seq<Step>, step: Step)
    ensures log + steps + [step] == log + (steps + [step])
  {
  }

  /** `main` of the deployed job. */
  method AppMain(db: Database<AppRow>, clock: MarketHours.Clock, env: Env) returns (outcome: Result<Outcome>)
    requires ValidEnv(env)
    modifies db
    ensures var run := AppRun(clock, env);
      && outcome == run.outcome
      && db.log == old(db.log) + run.steps
      && db.bars == (if run.bars.Some? then run.bars.value else old(db.bars))
      && db.predictions == old(db.predictions) + Inserted(run.row)
      && db.hasPredictionsTable
  {
    ghost var run := AppRun(clock, env);
    db.hasPredictionsTable := true;
    db.Record(EnsureTable);
    var open := MarketHours.InlineGateOpen(clock);
    db.Record(CheckGate(open));
    LogSnoc(old(db.log), [EnsureTable], CheckGate(open));
    ghost var steps := [EnsureTable] + [CheckGate(open)];
    if !open {
      assert run == Run(steps, None, None, Ok(Skipped));
      return Ok(Skipped);
    }
    db.Record(Download);
    LogSnoc(old(db.log), steps, Download);
    steps := steps + [Download];
    if Rows(env.download) == 0 {
      assert run == Run(steps, None, None, Err(NoData));
      return Err(NoData);
    }
    var bars := Cleaned(env.download);
    db.ReplaceBars(bars);
    LogSnoc(old(db.log), steps, ReplaceBars);
    steps := steps + [ReplaceBars];
    db.Record(PrepareFeatures);
    LogSnoc(old(db.log), steps, PrepareFeatures);
    steps := steps + [PrepareFeatures];
    var latest := LoadLatestRow(bars);
    if latest.Err? {
      assert run == Run(steps, Some(bars), None, Err(latest.error));
      return Err(latest.error);
    }
    db.Record(LoadModels);
    LogSnoc(old(db.log), steps, LoadModels);
    steps := steps + [LoadModels];
    if !env.modelsPresent {
      assert run == Run(steps, Some(bars), None, Err(ModelUnavailable));
      return Err(ModelUnavailable);
    }
    var row := AppSignal(latest.value, env.price, env.probUp, env.timestamp);
    db.Insert(row);
    LogSnoc(old(db.log), steps, InsertPrediction);
    steps := steps + [InsertPrediction];
    assert run == Run(steps, Some(bars), Some(row), Ok(Stored));
    outcome := Ok(Stored);
  }

  /** `main` of the stand-alone job. */
  method ScriptsMain(db: Database<ScriptRow>, env: Env) returns (outcome: Result<Outcome>)
    requires ValidEnv(env)
    modifies db
    ensures var run := ScriptsRun(env);
      && outcome == run.outcome
      && db.log == old(db.log) + run.steps
      && db.bars == (if run.bars.Some? then run.bars.value else old(db.bars))
      && db.predictions == old(db.predictions) + Inserted(run.row)
      && db.hasPredictionsTable == (old(db.hasPredictionsTable) || run.row.Some?)
  {
    ghost var run := ScriptsRun(env);
    db.Record(Download);
    ghost var steps := [Download];
    var bars := Cleaned(env.download);
    db.ReplaceBars(bars);
    LogSnoc(old(db.log), steps, ReplaceBars);
    steps := steps + [ReplaceBars];
    db.Record(PrepareFeatures);
    LogSnoc(old(db.log), steps, PrepareFeatures);
    steps := steps + [PrepareFeatures];
    var latest := LoadLatestRow(bars);
    if latest.Err? {
      assert run == Run(steps, Some(bars), None, Err(latest.error));
      return Err(latest.error);
    }
    db.Record(LoadModels);
    LogSnoc(old(db.log), steps, LoadModels);
    steps := steps + [LoadModels];
    if !env.modelsPresent {
      assert run == Run(steps, Some(bars), None, Err(ModelUnavailable));
      return Err(ModelUnavailable);
    }
    var row := ScriptSignal(latest.value, env.price, env.probUp, env.timestamp);
    db.Insert(row);
    LogSnoc(old(db.log), steps, InsertPrediction);
    steps := steps + [InsertPrediction];
    assert run == Run(steps, Some(bars), Some(row), Ok(Stored));
    outcome := Ok(Stored);
  }
}
