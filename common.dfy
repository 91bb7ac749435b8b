/** Values shared by every part of the forecast model: a cell that may be
    missing (pandas NaN) and the failures the pipeline raises. */
module Common {

  /** A cell of a data frame: `None` stands for pandas' NaN. */
  datatype Option<+T> = None | Some(value: T)

  /** The columns of a bar frame, one constructor per column name of the
      source: the raw bar fields, the seven `ta` indicators, the derived
      features (`return_1`, `return_3`, `return_5`, `momentum_5`) and the
      training targets (`target_price`, `target_direction`). */
  datatype Column =
    | Close | Open | High | Low | Volume
    | Ema9 | Ema21 | Rsi | Macd | MacdSignal | Atr | Volatility
    | Return1 | Return3 | Return5 | Momentum5
    | TargetPrice | TargetDirection

  /** The exceptions the pipeline can raise, by cause. */
  datatype Error =
    | NoData                      // the download returned an empty frame
    | InsufficientData            // no row survives dropna (iloc[-1] / the explicit raise)
    | MissingColumn(name: Column) // selecting a column the frame does not have (KeyError)
    | ModelUnavailable            // a pickled model file is missing

  datatype Result<+T> = Ok(value: T) | Err(error: Error)

  /** Dividing by a positive real keeps the sign. */
  lemma QuotientSign(x: real, b: real)
    requires b > 0.0
    ensures x / b > 0.0 <==> x > 0.0
    ensures x / b < 0.0 <==> x < 0.0
  {
    var q := x / b;
    assert q * b == x;
    if q > 0.0 { assert q * b > 0.0; }
    if q < 0.0 { assert (-q) * b > 0.0; }
    if q == 0.0 { assert q * b == 0.0; }
  }

  /** `a / b - 1` is the change from b to a relative to b. */
  lemma RelativeChange(a: real, b: real)
    requires b > 0.0
    ensures a / b - 1.0 == (a - b) / b
  {
    var q, r := a / b, (a - b) / b;
    assert q * b == a && r * b == a - b;
    var x := q - 1.0 - r;
    assert x * b == 0.0;
  }
}
