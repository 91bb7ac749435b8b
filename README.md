# market-forecast: a verified model of the feature-and-signal core

This project models the deterministic core of the market-forecast service.
That service downloads 15-minute NIFTY bars, adds technical indicators, stores
the bars in SQLite, derives four lagged features and feeds a 12-column feature
vector to two pickled models: a price regressor and an up/down classifier.
From their outputs it decides BUY, SELL or HOLD and stores the decision as a
prediction row. The model covers these parts:

- **Frames / DataFrames.** A bar frame is a `Close` column plus a map of
  nullable columns; pandas NaN is `None`. The module defines `pct_change`,
  `shift`, the momentum column, the 0/1 label, `dropna`, column selection,
  the training matrix of both trainers and the last-row feature vector of
  inference. `DataFrames.DataFrame` is a class whose columns are assigned in
  place, as `add_extra_features` and `prepare_data` do. Each of its methods is
  proved against the value-level definition.
- **FeatureProperties.** Which rows survive `dropna` (bars 5..n-2 for
  training, 5..n-1 for inference). It also proves that inference reads the
  last bar, and that each training row is exactly the vector inference
  computes when the bars end at that row.
- **Decision.** The three trade rules in the code base: the API's strict
  rule, the stand-alone job's middle rule and the deployed job's loose rule.
  It also covers the two volatility classifications, direction, expected
  return, rounding and the confidence score.
- **MarketHours.** The deployed job's inline 09:15–15:30 gate and the
  calendar helper's 09:30–15:30 gate with its holiday set. The clock is a
  parameter.
- **Signals.** The `/predict` response and the rows each update job stores.
- **Pipeline.** One run of each update job against a `Database` object (bar
  table, predictions table, step log), specified by a function listing the
  steps taken, the bars written, the row inserted and the outcome.
- **Query.** The `/performance` report (cumulative P&L series and the Sharpe
  guard) and the `/historical` tail of 100 bars.

Prices and returns are exact reals. The models are uninterpreted functions
from a feature vector to a real. Where the two update jobs or the two
trainers differ, both variants are modelled and the difference is proved.

## Model

| member | source | states |
|---|---|---|
| Frames.PctChange | app/scripts/train_model.py:51-53 | `pct_change(k)` is defined exactly from row k on, one cell per row |
| FeatureProperties.PctChangeIsRelativeChange | app/scripts/train_model.py:51-53 | return_k[i] = (close[i] - close[i-k]) / close[i-k]; it is positive exactly when the close rose |
| Frames.Momentum | app/scripts/train_model.py:56 | momentum_5 is defined exactly from row 5 on, and close[i] = close[i-5] + momentum_5[i] |
| Frames.ShiftNext | app/scripts/train_model.py:66 | target_price[i] is the next close and is missing on the last row only |
| Frames.UpLabel | app/scripts/train_model.py:69-71 | target_direction is always 0 or 1 (also on the last row), 1 exactly when the next close is higher |
| Frames.WithExtraFeatures | app/scripts/train_model.py:48-58 | adds exactly return_1/3/5 and momentum_5, overwriting them and leaving every other column and Close as they were |
| Frames.WithTargets | app/scripts/train_model.py:65-71 | adds exactly target_price, the next close (ShiftNext), and target_direction, its up label (UpLabel), and leaves every other column unchanged |
| Frames.TrainingFrame | app/scripts/train_model.py:63-71 | the frame before `dropna` in `prepare_data` keeps Close and one cell per row in every column |
| Frames.Kept | app/scripts/train_model.py:73 | every kept index is a complete row of the frame |
| Frames.DropNA | app/scripts/train_model.py:73 | the result has the same columns; its rows are the kept rows in order, and all of them are complete |
| FeatureProperties.KeptExactly | app/scripts/train_model.py:73 | `dropna` keeps every complete row, in increasing order |
| FeatureProperties.DropNAOfComplete | scripts/train_model.py:44 | `dropna` of a frame without NaN is the frame itself |
| FeatureProperties.DropNAIdempotent | app/scripts/update_and_predict.py:212 | `dropna` is idempotent: the bars the first `dropna` leaves have no row left to drop |
| Frames.Missing | app/main.py:81 | the columns a selection lacks are exactly the requested names the frame does not have |
| Frames.Select | app/main.py:66-81 | selecting a row's features succeeds exactly when every name is present; it yields one value per name in list order, and otherwise fails on a missing name (KeyError) |
| Frames.LatestFeatures | app/main.py:57-81 | the inference vector has the 12 features in order; entry 0 is its Close (positive) and entry 7 its Volatility |
| Frames.LastRow | app/main.py:64-81 | `iloc[-1]` then the selection: the same shape facts about the last row of the dropped frame |
| Frames.BuildDataset | app/scripts/train_model.py:80-97 | X, y_price and y_direction have one entry per row; it fails exactly when a feature column is missing |
| Frames.TrainingRows | app/scripts/train_model.py:63-73 | the rows `prepare_data` keeps are complete and carry both targets |
| FeatureProperties.InferenceRowsComplete | app/main.py:57-62 | with every indicator defined, row i has all four derived features exactly when i >= 5 |
| FeatureProperties.InferenceKeepsTail | app/main.py:57-62 | with every indicator defined, the inference `dropna` keeps bars 5..n-1 (max(0, n-5) rows) |
| FeatureProperties.LatestAvailable | app/main.py:62-64 | with every indicator defined, `iloc[-1]` succeeds exactly when there are at least six bars |
| FeatureProperties.LatestIsLastBar | app/main.py:57-81 | inference reads the last bar: its Close and Volatility, its 1/3/5-bar returns and close[n-1] - close[n-6] |
| FeatureProperties.FeaturesPresent | app/main.py:66-81 | after the derived columns are added, every one of the 12 inputs is present |
| FeatureProperties.LastRowValues | app/main.py:64-81 | the vector inference returns is the row of the derived frame at the last kept bar |
| FeatureProperties.TrainingRowCount | app/scripts/train_model.py:73 | with every indicator defined, training `dropna` keeps indices 5..n-2 in order, so max(0, n-6) rows |
| FeatureProperties.DatasetAligned | app/scripts/train_model.py:80-97 | X, y_price and y_direction are row-aligned: row j's Close precedes its target, which is the next close, and its label is 1 exactly when that close is higher |
| FeatureProperties.TrainersAgree | scripts/train_model.py:32-67 | the two `prepare_data` copies give the same matrix whenever the deployed one succeeds; the deployed one raises exactly when no row survives |
| FeatureProperties.PreparedHasIndicators | app/scripts/train_model.py:80-95 | a frame the trainer accepts had every indicator column |
| FeatureProperties.TrainingInferenceParity | app/scripts/update_and_predict.py:217-231 | training row j is exactly the feature vector inference derives from the bars up to its source row |
| DataFrames.DataFrame.SetColumn | app/scripts/train_model.py:51 | `df[name] = col` overwrites or adds that one column and nothing else |
| DataFrames.DataFrame.AddExtraFeatures | app/scripts/train_model.py:48-58 | the in-place frame afterwards equals WithExtraFeatures of the frame before |
| DataFrames.DataFrame.AddTargets | app/scripts/train_model.py:66-71 | the in-place frame afterwards equals WithTargets of the frame before |
| DataFrames.DataFrame.DropNA | app/scripts/train_model.py:73 | a fresh frame holding the complete rows |
| DataFrames.AppPrepareData | app/scripts/train_model.py:61-99 | the caller's frame gains the six columns; the result is the value-level `prepare_data`, never an empty matrix, and it raises on zero rows |
| DataFrames.ScriptsPrepareData | scripts/train_model.py:32-67 | the same steps without the raise |
| DataFrames.LoadLatestRow | app/main.py:51-83 | the in-place feature step, `dropna` and `iloc[-1]` compute the value-level latest feature vector |
| DataFrames.ScriptsTrainMain | scripts/train_model.py:124-137 | stops before training exactly when X is empty, fails exactly when `prepare_data` fails and with its error, otherwise trains on its matrix |
| Decision.ClassifyVolatility | app/main.py:31-37 | LOW iff vol < 15, MEDIUM iff 15 <= vol < 30, HIGH iff vol >= 30 |
| Decision.ScriptsVolatility | scripts/update_and_predict.py:173-174 | HIGH iff vol > 30, MEDIUM iff 15 < vol <= 30, LOW iff vol <= 15 |
| Decision.VolatilityRulesDiffer | scripts/update_and_predict.py:173-174 | the two classifications disagree exactly at 15 (MEDIUM vs LOW) and 30 (HIGH vs MEDIUM) |
| Decision.StrictActionCases | app/main.py:40-48 | BUY iff p > 0.65, er > 0.15 and not HIGH; SELL iff p < 0.35, er < -0.15 and not HIGH; HIGH always HOLD |
| Decision.StrictOrderIrrelevant | app/main.py:42-48 | trying SELL before BUY gives the same action |
| Decision.MiddleActionCases | scripts/update_and_predict.py:176-178 | BUY iff p > 0.65 and er > 0.15, SELL iff p < 0.35 and er < -0.15 |
| Decision.LooseActionCases | app/scripts/update_and_predict.py:242-246 | BUY iff p > 0.65, SELL iff p < 0.35 |
| Decision.StrictIsGatedMiddle | app/main.py:40-48 | the API rule is the stand-alone rule closed under HIGH volatility |
| Decision.ActionsNested | app/main.py:42-48 | strict BUY implies middle BUY implies loose BUY, the same for SELL |
| Decision.HoldBand | app/main.py:42-48 | any p in [0.35, 0.65] gives HOLD under all three rules |
| Decision.DirectionAgreesWithAction | app/main.py:158 | UP iff p > 0.5 (0.5 is DOWN); a BUY of the strict, middle or loose rule points UP and a SELL DOWN |
| Decision.ExpectedReturn | app/main.py:160-162 | for a positive current price, the return's sign is the sign of predicted - current |
| Decision.ReturnAboveBand | app/main.py:42 | er > 0.15 exactly when the predicted price exceeds 1.0015 times the current one |
| Decision.RoundIsNearest | app/main.py:171-175 | `round(x, n)` lies within half a unit of the last digit of x |
| Decision.RoundMonotone | app/main.py:168 | rounding preserves order |
| Decision.ConfidenceMonotone | app/main.py:168 | the confidence score is monotone in p |
| Decision.ConfidenceRange | app/main.py:168 | for p in [0, 1] the confidence lies in [0.16, 0.86] |
| Decision.ConfidenceNearBlend | app/main.py:168 | the confidence is within 0.005 of 0.7 p + 0.159 |
| Decision.ConfidenceAt | app/main.py:168 | the confidence is h/100 for the h with h <= 100·blend + 0.5 < h + 1, i.e. the blend rounded half up to hundredths |
| Decision.ConfidenceExample | app/main.py:168 | p = 0.8 gives confidence 0.72 |
| MarketHours.TimeLeqIsInstantOrder | app/scripts/update_and_predict.py:48 | comparing `time` values is comparing microseconds since midnight |
| MarketHours.InlineGateWindow | app/scripts/update_and_predict.py:31-48 | open exactly on a weekday from 09:15:00 to 15:30:00, both ends included |
| MarketHours.InlineGateWeekend | app/scripts/update_and_predict.py:42-43 | Saturday and Sunday are closed |
| MarketHours.InlineGateEdges | app/scripts/update_and_predict.py:45-48 | 09:15:00 and 15:30:00 open; 09:14:59.999999 and 15:30:01 closed |
| MarketHours.CalendarWindow | app/utilis/market_calendar.py:11-34 | open exactly on a non-holiday weekday with 570 <= 60 h + m <= 930 |
| MarketHours.CalendarIgnoresSeconds | app/utilis/market_calendar.py:25-34 | seconds never change the answer, so 15:30:59 is open |
| MarketHours.CalendarHolidays | app/utilis/market_calendar.py:4-9 | every listed holiday is closed |
| MarketHours.CalendarInsideInline | app/utilis/market_calendar.py:28-34 | every time the calendar accepts, the inline gate accepts too, except 15:30:00.000001-15:30:59 |
| MarketHours.GatesDisagree | app/utilis/market_calendar.py:21-32 | 09:20 and a listed holiday open only the inline gate; 15:30:30 opens only the calendar |
| Signals.ApiPredict | app/main.py:148-179 | `predict` answers exactly when the latest feature row exists and otherwise passes its error on |
| Signals.Predict | app/main.py:148-179 | the route reading the stored bars computes ApiPredict |
| Signals.ApiResponseConsistent | app/main.py:158-179 | HIGH never trades; BUY is UP with a higher predicted price, SELL is DOWN with a lower one; displayed prices are within half a cent |
| Signals.ApiPredictAnswers | app/main.py:57-66 | with every indicator defined and six bars, `predict` answers with the rounded last close |
| Signals.AppRowConsistent | app/scripts/update_and_predict.py:235-256 | the deployed row's action is the loose rule on its own probability; the return's sign matches the prices |
| Signals.ScriptRowConsistent | scripts/update_and_predict.py:165-192 | the stand-alone row's action is the middle rule on its own values; its confidence lies in [0.16, 0.86] |
| Signals.SignalsNested | scripts/update_and_predict.py:176-178 | on the same row and models, API BUY implies job BUY implies deployed BUY, the same for SELL |
| Pipeline.Cleaned | app/scripts/update_and_predict.py:211-212 | the bars written are the download's complete rows, positive and NaN-free |
| Pipeline.Database.Record | app/scripts/update_and_predict.py:201-233 | one step is logged and no table changes |
| Pipeline.Database.ReplaceBars | app/scripts/update_and_predict.py:105-111 | the bar table is replaced and the predictions are untouched |
| Pipeline.Database.Insert | app/scripts/update_and_predict.py:139-172 | the predictions table exists and holds one more row, appended last |
| Pipeline.AppMain | app/scripts/update_and_predict.py:197-265 | the deployed job's log, bars, predictions and outcome are those of AppRun; the predictions table always exists afterwards |
| Pipeline.ScriptsMain | scripts/update_and_predict.py:134-197 | the stand-alone job's effects are those of ScriptsRun; the table exists only once a row was inserted |
| PipelineProperties.AppRunIsPrefix | app/scripts/update_and_predict.py:197-258 | a deployed run is a prefix of the fixed order; closed gate: only table creation; a row is stored iff the run completes; bars are replaced iff the gate is open and the download non-empty |
| PipelineProperties.AppEmptyDownloadWritesNothing | app/scripts/update_and_predict.py:58-59 | an empty download raises before the bar table is touched |
| PipelineProperties.AppWarmupEmptiesBars | app/scripts/update_and_predict.py:211-223 | when no bar is complete the bars are replaced by an empty table and the run fails without a row |
| PipelineProperties.EmptyHasNoLatest | app/scripts/update_and_predict.py:223 | `iloc[-1]` of an empty frame fails |
| PipelineProperties.AppStoresLastBar | app/scripts/update_and_predict.py:208-258 | with six complete bars and both models, the run stores one row at the last bar's close with the loose action |
| PipelineProperties.ScriptsRunIsPrefix | scripts/update_and_predict.py:134-194 | a stand-alone run always replaces the bars and stores a row iff it completes |
| PipelineProperties.JobsDifferOnEmptyDownload | scripts/update_and_predict.py:35-44 | on an empty download the deployed job raises before writing; the stand-alone job, if the empty frame reaches `dropna`, empties the bar table and then fails at `iloc[-1]` |
| PipelineProperties.StoredSignalsNested | scripts/update_and_predict.py:176-178 | a stand-alone BUY (SELL) is stored by the deployed job as BUY (SELL) too |
| Query.AppTable | app/scripts/update_and_predict.py:143-169 | the deployed schema read back: one timestamp per row and an `expected_return` column holding the returns |
| Query.ScriptsTable | scripts/update_and_predict.py:98-124 | the stand-alone schema read back: `expected_return_percent` lands in `expected_return` |
| Query.CumSum | app/main.py:123 | `cumsum()`: entry i is the sum of the first i + 1 values |
| Query.Cumulative | app/main.py:123 | the cumulative series has one entry per row |
| Query.CumulativeSteps | app/main.py:123 | the series starts at the first P&L, adds one P&L per row and ends at the total |
| Query.DeviationsNonNegative | app/main.py:126 | the spread is never negative |
| Query.DeviationsZero | app/main.py:126 | the spread around m is zero exactly when every value equals m |
| Query.SumOfConstant | app/main.py:127 | a constant column sums to its length times the constant |
| Query.SpreadZeroIffConstant | app/main.py:126 | the spread around the mean is zero exactly when all values are equal |
| Query.SharpeZeroIffFlat | app/main.py:125-127 | the Sharpe ratio is 0 exactly when there are two or more rows and all are equal, and undefined (NaN) for one row |
| Query.PerformanceOf | app/main.py:119-120 | the route answers "No signals yet" exactly when the predictions table has no rows |
| Query.Performance | app/main.py:113-132 | the imperative route (empty check, P&L column, cumsum, Sharpe guard) computes PerformanceOf |
| Query.PerformanceAsWrittenFails | app/main.py:122 | any non-empty predictions table of either schema gives a KeyError |
| Query.PerformanceCorrected | app/main.py:119-132 | reading `expected_return`, the report's series is the running sum of the rows' returns, with their timestamps, and Sharpe is 0 exactly when returns are flat |
| Query.PerformanceCorrectedScripts | app/main.py:119-132 | reading `expected_return` from the stand-alone job's table, the series has one point per row with its timestamp, each the running total of the stored expected returns |
| Query.ResultFrame.Assign | app/main.py:122-123 | assigning a column overwrites or appends it and leaves the timestamps |
| Query.Tail | app/main.py:101 | `tail(k)` keeps the last min(n, k) rows, in order, in every column |
| Query.HistoricalEndsAtLatest | app/main.py:101 | `/historical` keeps the last bar, and taking the tail twice changes nothing |
| Query.HistoricalAfterReplace | app/main.py:94-104 | after an update, `/historical` returns min(complete rows, 100) NaN-free bars |

## Left out

- Indicator computation (EMA, RSI, MACD, ATR, rolling std) calls the `ta` library and pandas rolling windows. The indicator columns are nullable inputs.
- `scripts/data_engine.py` is not part of this model: it only downloads, adds library indicators and writes SQLite, and its `dropna` is the one modelled for the update jobs.
- The yfinance download, timezone localisation, SQLite I/O, `pickle`, XGBoost fitting, `train_test_split` and the error metrics are foreign calls. The models are parameters (`Predictor`), and a run's download, model presence and timestamp are its `Env`.
- The `Datetime` column and the other raw bar fields are not carried; only `Close` and the nullable columns are.
- Frames.Table: Close is never missing. A bar with a NaN Close, which the first `dropna` of either update job (app/scripts/update_and_predict.py:212, scripts/update_and_predict.py:139) would remove, is not modelled, so Pipeline.Cleaned and what is proved about the stored bars hold for downloads with a Close on every bar.
- Floating point is not modelled: values are exact reals, and `round` is round-half-up on reals, not Python's banker's rounding on binary floats.
- Frames.PctChange: requires positive closes. A zero close would give inf, which `dropna` does not remove.
- The wall clock is a `Clock` parameter. Whether weekday and date agree is not checked, and neither is the difference between IST (the inline gate) and naive local time (the calendar).
- FastAPI transport is not modelled: the `/` health route, `/dashboard`, the websocket heartbeat loop (concurrency) and module-level model loading at import time.
- The `/signals` route is a plain read of the predictions table and has no logic to model.
- `ORDER BY timestamp` is taken to return insertion order, since the timestamps are taken from the clock in run order.
- Query.SharpeOf: only which branch applies is modelled (no rows, a single row giving NaN, zero spread giving 0, otherwise a ratio). The value mean/std·sqrt(252) and its rounding to 3 places involve a square root. The std == 0 test is modelled as the sum of absolute deviations being 0, which holds exactly when the sample standard deviation is 0.
- A single-row report would carry a NaN Sharpe ratio, which JSON encoding rejects. The model records it as `Undefined` without modelling the encoder.
- The autoincrement `id` column of the deployed schema is assigned by SQLite; it is named in the column list but carries no values.
- `ensure_predictions_table` at app/scripts/update_and_predict.py:174 is indented by one space, which Python rejects as the file stands. The model follows the evident intent: a top-level function called first in `main`.
- Whether the stand-alone job's download of an empty frame survives `reset_index`/`tz_convert` is not modelled. The model lets the empty frame through to `dropna`, where `iloc[-1]` fails.
- PipelineProperties.JobsDifferOnEmptyDownload: its stand-alone half assumes the empty frame reaches `dropna`; whether yfinance's empty frame survives `reset_index`, `tz_convert` (scripts/update_and_predict.py:41-42) and the `ta` indicator calls is outside the source.
- Query.PerformanceOf: assumes the `predictions` table exists. Before the stand-alone job's first insert it does not (Pipeline.ScriptsMain tracks this as `hasPredictionsTable`), and `read_sql` at app/main.py:116 then raises instead of returning "No signals yet"; the SQLite read is not modelled.
- Query.Historical: assumes the `intraday_data` table exists; before any job has written bars `read_sql` at app/main.py:98 raises.
- Signals.ApiPredict: assumes the `intraday_data` table exists; before any job has written bars `read_sql` at app/main.py:53 raises.
- Printing and the `except … raise` re-raise in the deployed `main` are not modelled beyond the error outcome.
- Training itself (`train_models`, `save_models`) is not modelled: `ScriptsTrainMain` ends with the matrix handed to it.

## Findings

| source | as written | input that shows it | evidently intended | confidence | as-written member | corrected member |
|---|---|---|---|---|---|---|
| app/main.py:122 | `performance` reads the column `expected_return_percent`, but both writers create `expected_return` (app/scripts/update_and_predict.py:149, scripts/update_and_predict.py:103) | any predictions table with one or more rows, of either schema | read `expected_return`, so the P&L series is the running sum of stored returns (Query.PerformanceCorrectedScripts proves the same for the stand-alone schema) | not executed | Query.PerformanceAsWrittenFails | Query.PerformanceCorrected |
