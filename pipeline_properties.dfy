/** What the two update jobs promise about a run: the order of their steps,
    when the bar table is replaced, when a prediction is stored, and where
    they differ. */
module PipelineProperties {
  import opened Common
  import opened Frames
  import opened Signals
  import opened Pipeline
  import MarketHours
  import Decision
  import FeatureProperties

  /** The deployed job's steps when the market is open, in order. */
  const APP_STEPS: seq<Step> :=
    [EnsureTable, CheckGate(true), Download, ReplaceBars, PrepareFeatures, LoadModels, InsertPrediction]

  /** The stand-alone job's steps, in order. */
  const SCRIPT_STEPS: seq<Step> :=
    [Download, ReplaceBars, PrepareFeatures, LoadModels, InsertPrediction]

  /** The step lists the deployed job's run builds, stage by stage, are the
      prefixes of its fixed order. */
  lemma AppStepsArePrefixes()
    ensures var g := [EnsureTable] + [CheckGate(true)];
      && g + [Download] == APP_STEPS[..3]
      && g + [Download] + [ReplaceBars] + [PrepareFeatures] == APP_STEPS[..5]
      && g + [Download] + [ReplaceBars] + [PrepareFeatures] + [LoadModels] == APP_STEPS[..6]
      && g + [Download] + [ReplaceBars] + [PrepareFeatures] + [LoadModels] + [InsertPrediction] == APP_STEPS
  {
  }

  /** A deployed run is a prefix of the fixed order, cut at the first
      failure; a closed market stops it after the table is created; a row is
      stored exactly when the run completes, and the bars are replaced exactly
      when the market is open and the download is not empty. */
  lemma AppRunIsPrefix(clock: MarketHours.Clock, env: Env)
    requires ValidEnv(env)
    ensures var run := AppRun(clock, env);
      && (MarketHours.InlineGateOpen(clock) ==> run.steps <= APP_STEPS && |run.steps| >= 3)
      && (!MarketHours.InlineGateOpen(clock) ==>
            run.steps == [EnsureTable, CheckGate(false)] && run.bars.None? && run.row.None? && run.outcome == Ok(Skipped))
      && (run.row.Some? <==> run.outcome == Ok(Stored))
      && (run.row.Some? <==> run.steps == APP_STEPS)
      && (run.bars.Some? <==> MarketHours.InlineGateOpen(clock) && Rows(env.download) > 0)
      && (run.bars.Some? ==> run.bars.value == DropNA(env.download))
  {
    AppStepsArePrefixes();
  }
  /** The deployed job stops at an empty download before writing anything. */
  lemma AppEmptyDownloadWritesNothing(clock: MarketHours.Clock, env: Env)
    requires ValidEnv(env) && MarketHours.InlineGateOpen(clock) && Rows(env.download) == 0
    ensures var run := AppRun(clock, env);
      run.outcome == Err(NoData) && run.bars.None? && run.row.None? && ReplaceBars !in run.steps
  {
  }

  /** When no downloaded bar has every indicator yet (the warm-up of the
      slowest indicator covers the whole download), the deployed job still
      replaces the bar table, with an empty one, and then fails without a
      prediction. */
  lemma AppWarmupEmptiesBars(clock: MarketHours.Clock, env: Env)
    requires ValidEnv(env) && MarketHours.InlineGateOpen(clock) && Rows(env.download) > 0
    requires Kept(env.download) == []
    ensures var run := AppRun(clock, env);
      && run.bars.Some? && Rows(run.bars.value) == 0
      && run.outcome == Err(InsufficientData) && run.row.None?
  {
    EmptyHasNoLatest(Cleaned(env.download));
  }

  /** An empty frame has no last row. */
  lemma EmptyHasNoLatest(t: Table)
    requires WellFormed(t) && Positive(t.close) && Rows(t) == 0
    ensures LatestFeatures(t) == Err(InsufficientData)
  {
    var e := WithExtraFeatures(t);
    assert Kept(e) == [];
    FeatureProperties.DropNAPositive(t, e, DropNA(e));
  }

  /** With six or more complete bars carrying every indicator, the market
      open and both models present, the deployed job stores one row, taken
      at the last downloaded bar. */
  lemma AppStoresLastBar(clock: MarketHours.Clock, env: Env)
    requires ValidEnv(env) && MarketHours.InlineGateOpen(clock) && env.modelsPresent
    requires AllComplete(env.download) && HasIndicators(env.download) && Rows(env.download) >= 6
    ensures var run := AppRun(clock, env);
      && run.outcome == Ok(Stored) && run.steps == APP_STEPS
      && run.bars == Some(env.download)
      && run.row.Some? && run.row.value.currentPrice == env.download.close[Rows(env.download) - 1]
      && run.row.value.tradeAction == Decision.LooseAction(run.row.value.probability)
  {
    var run := AppRun(clock, env);
    FeatureProperties.DropNAOfComplete(env.download);
    assert Cleaned(env.download) == env.download;
    FeatureProperties.LatestIsLastBar(env.download);
    var latest := LatestFeatures(env.download).value;
    assert run.row == Some(AppSignal(latest, env.price, env.probUp, env.timestamp));
    AppRowConsistent(latest, env.price, env.probUp, env.timestamp);
    AppRunIsPrefix(clock, env);
  }

  /** The step lists the stand-alone job's run builds are the prefixes of
      its fixed order. */
  lemma ScriptStepsArePrefixes()
    ensures var s := [Download] + [ReplaceBars] + [PrepareFeatures];
      && s == SCRIPT_STEPS[..3]
      && s + [LoadModels] == SCRIPT_STEPS[..4]
      && s + [LoadModels] + [InsertPrediction] == SCRIPT_STEPS
  {
  }

  /** A stand-alone run is a prefix of its fixed order that always reaches
      the bar table: it has no clock and no empty-download check, so every
      run replaces the bars, and a row is stored exactly when the run
      completes. */
  lemma ScriptsRunIsPrefix(env: Env)
    requires ValidEnv(env)
    ensures var run := ScriptsRun(env);
      && run.steps <= SCRIPT_STEPS && |run.steps| >= 3
      && run.bars == Some(DropNA(env.download))
      && run.outcome != Ok(Skipped)
      && (run.row.Some? <==> run.outcome == Ok(Stored))
      && (run.row.Some? <==> run.steps == SCRIPT_STEPS)
  {
    ScriptStepsArePrefixes();
  }

  /** On an empty download the two jobs part ways: the deployed job raises
      before touching the bar table; the stand-alone job, which has no check
      of its own, empties the bar table and then fails at `iloc[-1]`, provided
      the empty frame gets through its download and indicator steps to
      `dropna`. */
  lemma JobsDifferOnEmptyDownload(clock: MarketHours.Clock, env: Env)
    requires ValidEnv(env) && MarketHours.InlineGateOpen(clock) && Rows(env.download) == 0
    ensures AppRun(clock, env).bars.None? && AppRun(clock, env).outcome == Err(NoData)
    ensures ScriptsRun(env).bars.Some? && Rows(ScriptsRun(env).bars.value) == 0
    ensures ScriptsRun(env).outcome == Err(InsufficientData)
  {
    EmptyHasNoLatest(Cleaned(env.download));
  }

  /** On the same download and models, a stand-alone BUY is stored by the
      deployed job as a BUY too, when both store a row. */
  lemma StoredSignalsNested(clock: MarketHours.Clock, env: Env)
    requires ValidEnv(env)
    requires AppRun(clock, env).row.Some? && ScriptsRun(env).row.Some?
    ensures ScriptsRun(env).row.value.tradeAction == Decision.Buy ==> AppRun(clock, env).row.value.tradeAction == Decision.Buy
    ensures ScriptsRun(env).row.value.tradeAction == Decision.Sell ==> AppRun(clock, env).row.value.tradeAction == Decision.Sell
  {
    var latest := LatestFeatures(Cleaned(env.download)).value;
    SignalsNested(latest, env.price, env.probUp, env.timestamp);
  }
}
