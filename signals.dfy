/** From the latest feature row and the two models to a signal: the API
    response of `/predict` and the rows the two update jobs store. The
    models are parameters: what `predict` and `predict_proba(...)[0][1]`
    return for a feature vector. */
module Signals {
  import opened Common
  import opened Frames
  import Decision
  import FeatureProperties
  import DataFrames

  /** A fitted model, seen as the value it returns for one feature vector. */
  type Predictor = seq<real> -> real

  /** The `/predict` payload: prices and probability rounded for display,
      the decision taken on the unrounded values. */
  datatype ApiResponse = ApiResponse(
    currentPrice: real,
    predictedPrice: real,
    expectedReturnPercent: real,
    direction: Decision.Direction,
    probabilityUp: real,
    volatility: Decision.VolClass,
    confidenceScore: real,
    tradeAction: Decision.Action)

  /** The decision of `predict` on the latest row: strict rule, API
      volatility bands. */
  function ApiDecision(latest: Latest, price: Predictor, probUp: Predictor): (r: ApiResponse)
    requires latest.close > 0.0
  {
    var current := latest.close;
    var predicted := price(latest.features);
    var p := probUp(latest.features);
    var er := Decision.ExpectedReturn(predicted, current);
    var vol := Decision.ClassifyVolatility(latest.volatility);
    ApiResponse(
      Decision.Round(current, 100.0),
      Decision.Round(predicted, 100.0),
      Decision.Round(er, 1000.0),
      Decision.DirectionOf(p),
      Decision.Round(p, 1000.0),
      vol,
      Decision.Confidence(p),
      Decision.StrictAction(p, er, vol))
  }

  /** `predict`: read the latest feature row of the stored bars, then decide. */
  function ApiPredict(bars: Table, price: Predictor, probUp: Predictor): (r: Result<ApiResponse>)
    requires WellFormed(bars) && Positive(bars.close)
    ensures r.Ok? <==> LatestFeatures(bars).Ok?
    ensures r.Err? ==> r == Err(LatestFeatures(bars).error)
  {
    match LatestFeatures(bars)
    case Err(e) => Err(e)
    case Ok(latest) => Ok(ApiDecision(latest, price, probUp))
  }

  /** The `/predict` route on the stored bars. */
  method Predict(bars: Table, price: Predictor, probUp: Predictor) returns (r: Result<ApiResponse>)
    requires WellFormed(bars) && Positive(bars.close)
    ensures r == ApiPredict(bars, price, probUp)
  {
    var latest := DataFrames.LoadLatestRow(bars);
    if latest.Err? {
      return Err(latest.error);
    }
    r := Ok(ApiDecision(latest.value, price, probUp));
  }

  /** What the API promises about a response: a HIGH class never trades, a
      BUY points UP and a SELL DOWN, and the displayed prices are within
      half a cent of the true ones. */
  lemma ApiResponseConsistent(latest: Latest, price: Predictor, probUp: Predictor)
    requires latest.close > 0.0
    ensures var r := ApiDecision(latest, price, probUp);
      && (latest.volatility >= 30.0 ==> r.volatility == Decision.High && r.tradeAction == Decision.Hold)
      && (r.tradeAction == Decision.Buy ==> r.direction == Decision.Up && price(latest.features) > latest.close)
      && (r.tradeAction == Decision.Sell ==> r.direction == Decision.Down && price(latest.features) < latest.close)
      && -0.005 < r.currentPrice - latest.close <= 0.005
      && -0.005 < r.predictedPrice - price(latest.features) <= 0.005
  {
    var p := probUp(latest.features);
    Decision.DirectionAgreesWithAction(p, Decision.ExpectedReturn(price(latest.features), latest.close),
      Decision.ClassifyVolatility(latest.volatility));
    Decision.RoundIsNearest(latest.close, 100.0);
    Decision.RoundIsNearest(price(latest.features), 100.0);
  }

  /** With every indicator defined and at least six bars, `predict` answers,
      and its current price is the last bar's close, rounded. */
  lemma ApiPredictAnswers(bars: Table, price: Predictor, probUp: Predictor)
    requires WellFormed(bars) && Positive(bars.close) && AllComplete(bars) && HasIndicators(bars)
    requires Rows(bars) >= 6
    ensures ApiPredict(bars, price, probUp).Ok?
    ensures ApiPredict(bars, price, probUp).value.currentPrice == Decision.Round(bars.close[Rows(bars) - 1], 100.0)
  {
    FeatureProperties.LatestIsLastBar(bars);
  }

  // ---------------------------------------------------------------------------
  // Stored prediction rows
  // ---------------------------------------------------------------------------

  /** A row of the deployed job's `predictions` table, in insert order:
      timestamp, current_price, predicted_price, expected_return, direction,
      probability, trade_action (`id` is assigned by the database). */
  datatype AppRow = AppRow(
    timestamp: string,
    currentPrice: real,
    predictedPrice: real,
    expectedReturn: real,
    direction: Decision.Direction,
    probability: real,
    tradeAction: Decision.Action)

  /** A row of the stand-alone job's `predictions` table, in column order:
      the result's `expected_return_percent` goes into `expected_return`,
      its `confidence_score` into `confidence`. */
  datatype ScriptRow = ScriptRow(
    timestamp: string,
    currentPrice: real,
    predictedPrice: real,
    expectedReturn: real,
    direction: Decision.Direction,
    probabilityUp: real,
    volatility: Decision.VolClass,
    confidence: real,
    tradeAction: Decision.Action)

  /** The deployed job's signal: unrounded values, loose rule. */
  function AppSignal(latest: Latest, price: Predictor, probUp: Predictor, timestamp: string): (row: AppRow)
    requires latest.close > 0.0
  {
    var p := probUp(latest.features);
    var predicted := price(latest.features);
    AppRow(timestamp, latest.close, predicted, Decision.ExpectedReturn(predicted, latest.close),
      Decision.DirectionOf(p), p, Decision.LooseAction(p))
  }

  /** The stand-alone job's signal: unrounded values, middle rule, the job's
      volatility bands, the rounded confidence. */
  function ScriptSignal(latest: Latest, price: Predictor, probUp: Predictor, timestamp: string): (row: ScriptRow)
    requires latest.close > 0.0
  {
    var p := probUp(latest.features);
    var predicted := price(latest.features);
    var er := Decision.ExpectedReturn(predicted, latest.close);
    ScriptRow(timestamp, latest.close, predicted, er, Decision.DirectionOf(p), p,
      Decision.ScriptsVolatility(latest.volatility), Decision.Confidence(p), Decision.MiddleAction(p, er))
  }

  /** A stored row of the deployed job agrees with itself: its action is the
      loose rule on its own probability, its direction likewise, and its
      return is positive exactly when its predicted price is above its
      current price. */
  lemma AppRowConsistent(latest: Latest, price: Predictor, probUp: Predictor, timestamp: string)
    requires latest.close > 0.0
    ensures var row := AppSignal(latest, price, probUp, timestamp);
      && row.tradeAction == Decision.LooseAction(row.probability)
      && row.direction == Decision.DirectionOf(row.probability)
      && (row.expectedReturn > 0.0 <==> row.predictedPrice > row.currentPrice)
      && (row.expectedReturn < 0.0 <==> row.predictedPrice < row.currentPrice)
      && (row.tradeAction == Decision.Buy ==> row.direction == Decision.Up)
  {
    var row := AppSignal(latest, price, probUp, timestamp);
    Decision.DirectionAgreesWithAction(row.probability, row.expectedReturn, Decision.Low);
  }

  /** A stored row of the stand-alone job agrees with itself: its action is
      the middle rule on its own probability and return, and its confidence
      lies in [0.16, 0.86] whenever it is a probability. */
  lemma ScriptRowConsistent(latest: Latest, price: Predictor, probUp: Predictor, timestamp: string)
    requires latest.close > 0.0
    ensures var row := ScriptSignal(latest, price, probUp, timestamp);
      && row.tradeAction == Decision.MiddleAction(row.probabilityUp, row.expectedReturn)
      && row.direction == Decision.DirectionOf(row.probabilityUp)
      && (row.expectedReturn > 0.0 <==> row.predictedPrice > row.currentPrice)
      && (0.0 <= row.probabilityUp <= 1.0 ==> 0.16 <= row.confidence <= 0.86)
  {
    var row := ScriptSignal(latest, price, probUp, timestamp);
    if 0.0 <= row.probabilityUp <= 1.0 {
      Decision.ConfidenceRange(row.probabilityUp);
    }
  }

  /** On the same latest row and models, the three consumers agree on strong
      signals: an API BUY is a stand-alone BUY is a deployed BUY, and the
      same for SELL. */
  lemma SignalsNested(latest: Latest, price: Predictor, probUp: Predictor, timestamp: string)
    requires latest.close > 0.0
    ensures var api := ApiDecision(latest, price, probUp);
      var job := ScriptSignal(latest, price, probUp, timestamp);
      var app := AppSignal(latest, price, probUp, timestamp);
      && (api.tradeAction == Decision.Buy ==> job.tradeAction == Decision.Buy)
      && (job.tradeAction == Decision.Buy ==> app.tradeAction == Decision.Buy)
      && (api.tradeAction == Decision.Sell ==> job.tradeAction == Decision.Sell)
      && (job.tradeAction == Decision.Sell ==> app.tradeAction == Decision.Sell)
  {
    var p := probUp(latest.features);
    var er := Decision.ExpectedReturn(price(latest.features), latest.close);
    Decision.ActionsNested(p, er, Decision.ClassifyVolatility(latest.volatility));
  }
}
