/** The decision arithmetic that turns a model prediction into a signal: the
    volatility class, the trade action (in its three variants), the
    direction, the expected return and the confidence score. */
module Decision {
  import Common

  datatype VolClass = Low | Medium | High
  datatype Action = Buy | Sell | Hold
  datatype Direction = Up | Down

  // ---------------------------------------------------------------------------
  // Volatility class
  // ---------------------------------------------------------------------------

  /** `classify_volatility` of the API: the bands are [0, 15), [15, 30) and
      [30, inf), each with its lower bound included. */
  function ClassifyVolatility(vol: real): (c: VolClass)
    ensures c == Low <==> vol < 15.0
    ensures c == Medium <==> 15.0 <= vol < 30.0
    ensures c == High <==> 30.0 <= vol
  {
    if vol < 15.0 then Low
    else if vol < 30.0 then Medium
    else High
  }

  /** The stand-alone update job's class: strict `>` tests, so each band has
      its upper bound included. */
  function ScriptsVolatility(vol: real): (c: VolClass)
    ensures c == High <==> 30.0 < vol
    ensures c == Medium <==> 15.0 < vol <= 30.0
    ensures c == Low <==> vol <= 15.0
  {
    if vol > 30.0 then High
    else if vol > 15.0 then Medium
    else Low
  }

  /** The two volatility rules disagree exactly at the two band edges, where
      the job's rule puts the value one class lower. */
  lemma VolatilityRulesDiffer(vol: real)
    ensures ClassifyVolatility(vol) != ScriptsVolatility(vol) <==> vol == 15.0 || vol == 30.0
    ensures vol == 15.0 ==> ClassifyVolatility(vol) == Medium && ScriptsVolatility(vol) == Low
    ensures vol == 30.0 ==> ClassifyVolatility(vol) == High && ScriptsVolatility(vol) == Medium
  {
  }

  // ---------------------------------------------------------------------------
  // Trade action: three variants
  // ---------------------------------------------------------------------------

  const BUY_PROB: real := 0.65
  const SELL_PROB: real := 0.35
  const RETURN_BAND: real := 0.15

  /** `generate_trade_action` of the API: the BUY test comes first, then the
      SELL test, and both are closed under HIGH volatility. */
  function StrictAction(probUp: real, expectedReturn: real, vol: VolClass): (a: Action)
  {
    if probUp > BUY_PROB && expectedReturn > RETURN_BAND && vol != High then Buy
    else if probUp < SELL_PROB && expectedReturn < -RETURN_BAND && vol != High then Sell
    else Hold
  }

  /** The stand-alone job's rule: probability and return, no volatility gate. */
  function MiddleAction(probUp: real, expectedReturn: real): (a: Action)
  {
    if probUp > BUY_PROB && expectedReturn > RETURN_BAND then Buy
    else if probUp < SELL_PROB && expectedReturn < -RETURN_BAND then Sell
    else Hold
  }

  /** The deployed job's rule: probability only. */
  function LooseAction(probUp: real): (a: Action)
  {
    if probUp > BUY_PROB then Buy
    else if probUp < SELL_PROB then Sell
    else Hold
  }

  /** The API rule with the SELL test tried first. */
  function StrictActionSellFirst(probUp: real, expectedReturn: real, vol: VolClass): Action
  {
    if probUp < SELL_PROB && expectedReturn < -RETURN_BAND && vol != High then Sell
    else if probUp > BUY_PROB && expectedReturn > RETURN_BAND && vol != High then Buy
    else Hold
  }

  /** The API rule, both directions of each case: BUY exactly when the
      probability, the return and the class all allow it, SELL likewise, and
      HOLD otherwise; a HIGH class always holds. */
  lemma StrictActionCases(probUp: real, expectedReturn: real, vol: VolClass)
    ensures StrictAction(probUp, expectedReturn, vol) == Buy <==>
      probUp > 0.65 && expectedReturn > 0.15 && vol != High
    ensures StrictAction(probUp, expectedReturn, vol) == Sell <==>
      probUp < 0.35 && expectedReturn < -0.15 && vol != High
    ensures vol == High ==> StrictAction(probUp, expectedReturn, vol) == Hold
  {
  }

  /** BUY and SELL never both apply, so the order of the two tests does not
      matter. */
  lemma StrictOrderIrrelevant(probUp: real, expectedReturn: real, vol: VolClass)
    ensures StrictAction(probUp, expectedReturn, vol) == StrictActionSellFirst(probUp, expectedReturn, vol)
  {
  }

  /** The job's rule, both directions of each case. */
  lemma MiddleActionCases(probUp: real, expectedReturn: real)
    ensures MiddleAction(probUp, expectedReturn) == Buy <==> probUp > 0.65 && expectedReturn > 0.15
    ensures MiddleAction(probUp, expectedReturn) == Sell <==> probUp < 0.35 && expectedReturn < -0.15
  {
  }

  /** The deployed job's rule, both directions of each case. */
  lemma LooseActionCases(probUp: real)
    ensures LooseAction(probUp) == Buy <==> probUp > 0.65
    ensures LooseAction(probUp) == Sell <==> probUp < 0.35
  {
  }

  /** The API rule is the job's rule with HIGH volatility forced to HOLD. */
  lemma StrictIsGatedMiddle(probUp: real, expectedReturn: real, vol: VolClass)
    ensures StrictAction(probUp, expectedReturn, vol) ==
      if vol == High then Hold else MiddleAction(probUp, expectedReturn)
  {
  }

  /** The rules are nested: a strict BUY is a middle BUY is a loose BUY, and
      the same for SELL; a loose HOLD is a HOLD under every rule. */
  lemma ActionsNested(probUp: real, expectedReturn: real, vol: VolClass)
    ensures StrictAction(probUp, expectedReturn, vol) == Buy ==> MiddleAction(probUp, expectedReturn) == Buy
    ensures MiddleAction(probUp, expectedReturn) == Buy ==> LooseAction(probUp) == Buy
    ensures StrictAction(probUp, expectedReturn, vol) == Sell ==> MiddleAction(probUp, expectedReturn) == Sell
    ensures MiddleAction(probUp, expectedReturn) == Sell ==> LooseAction(probUp) == Sell
    ensures LooseAction(probUp) == Hold ==>
      MiddleAction(probUp, expectedReturn) == Hold && StrictAction(probUp, expectedReturn, vol) == Hold
  {
  }

  /** A probability in [0.35, 0.65] holds under every rule. */
  lemma HoldBand(probUp: real, expectedReturn: real, vol: VolClass)
    requires 0.35 <= probUp <= 0.65
    ensures StrictAction(probUp, expectedReturn, vol) == Hold
    ensures MiddleAction(probUp, expectedReturn) == Hold
    ensures LooseAction(probUp) == Hold
  {
  }

  // ---------------------------------------------------------------------------
  // Direction and expected return
  // ---------------------------------------------------------------------------

  /** `"UP" if prob_up > 0.5 else "DOWN"`: exactly one half is DOWN. */
  function DirectionOf(probUp: real): (d: Direction)
  {
    if probUp > 0.5 then Up else Down
  }

  /** UP exactly above one half, and every BUY points UP and every SELL DOWN,
      under each rule. */
  lemma DirectionAgreesWithAction(probUp: real, expectedReturn: real, vol: VolClass)
    ensures DirectionOf(probUp) == Up <==> probUp > 0.5
    ensures LooseAction(probUp) == Buy ==> DirectionOf(probUp) == Up
    ensures LooseAction(probUp) == Sell ==> DirectionOf(probUp) == Down
    ensures StrictAction(probUp, expectedReturn, vol) == Buy ==> DirectionOf(probUp) == Up
    ensures StrictAction(probUp, expectedReturn, vol) == Sell ==> DirectionOf(probUp) == Down
    ensures MiddleAction(probUp, expectedReturn) == Buy ==> DirectionOf(probUp) == Up
    ensures MiddleAction(probUp, expectedReturn) == Sell ==> DirectionOf(probUp) == Down
  {
  }

  /** `((predicted - current) / current) * 100`, the percent change the model
      expects; with a positive current price its sign is the sign of
      predicted - current. */
  function ExpectedReturn(predicted: real, current: real): (r: real)
    requires current > 0.0
    ensures r > 0.0 <==> predicted > current
    ensures r < 0.0 <==> predicted < current
    ensures r == 0.0 <==> predicted == current
  {
    Common.QuotientSign(predicted - current, current);
    ((predicted - current) / current) * 100.0
  }

  /** A predicted price above the current one by more than 0.15% of it is
      the return the BUY test asks for. */
  lemma ReturnAboveBand(predicted: real, current: real)
    requires current > 0.0
    ensures ExpectedReturn(predicted, current) > 0.15 <==> predicted > current * 1.0015
  {
    var q := (predicted - current) / current;
    assert q * current == predicted - current;
    assert ExpectedReturn(predicted, current) == q * 100.0;
    Common.QuotientSign(predicted - current * 1.0015, current);
    assert (predicted - current * 1.0015) / current == q - 0.0015 by {
      var w := (predicted - current * 1.0015) / current;
      assert w * current == predicted - current * 1.0015;
      assert (w - (q - 0.0015)) * current == 0.0;
      ProductZero(w - (q - 0.0015), current);
    }
  }

  /** A product with a positive factor is zero only when the other is. */
  lemma ProductZero(x: real, b: real)
    requires b > 0.0 && x * b == 0.0
    ensures x == 0.0
  {
    Common.QuotientSign(x * b, b);
    assert x * b / b == x;
  }

  // ---------------------------------------------------------------------------
  // Rounding and confidence
  // ---------------------------------------------------------------------------

  /** `round(x, n)` with `scale` = 10^n: the nearest multiple of 1/scale,
      halves upward. */
  function Round(x: real, scale: real): (r: real)
    requires scale > 0.0
  {
    (x * scale + 0.5).Floor as real / scale
  }

  /** The rounded value is within half a unit of the last kept place. */
  lemma RoundIsNearest(x: real, scale: real)
    requires scale > 0.0
    ensures x - 0.5 / scale < Round(x, scale) <= x + 0.5 / scale
  {
    var f := (x * scale + 0.5).Floor as real;
    assert x * scale - 0.5 < f <= x * scale + 0.5;
    DivideBounds(x * scale - 0.5, f, x * scale + 0.5, scale);
    assert (x * scale - 0.5) / scale == x - 0.5 / scale && (x * scale + 0.5) / scale == x + 0.5 / scale;
  }

  /** Dividing by a positive real keeps the order of the bounds. */
  lemma DivideBounds(lo: real, v: real, hi: real, p: real)
    requires p > 0.0 && lo < v <= hi
    ensures lo / p < v / p <= hi / p
  {
    Common.QuotientSign(v - lo, p);
    Common.QuotientSign(hi - v, p);
    assert (v - lo) / p == v / p - lo / p;
    assert (hi - v) / p == hi / p - v / p;
  }

  /** Rounding never reverses the order of two values. */
  lemma RoundMonotone(x: real, y: real, scale: real)
    requires x <= y && scale > 0.0
    ensures Round(x, scale) <= Round(y, scale)
  {
    var a, b := x * scale + 0.5, y * scale + 0.5;
    ScaleMonotone(x, y, scale);
    assert x * scale <= y * scale;
    assert a <= b;
    FloorMonotone(a, b);
    var fx, fy := a.Floor as real, b.Floor as real;
    if fx < fy {
      DivideBounds(fx, fy, fy, scale);
    }
  }

  lemma ScaleMonotone(x: real, y: real, p: real)
    requires x <= y && p > 0.0
    ensures x * p <= y * p
  {
    assert y * p - x * p == (y - x) * p;
  }

  lemma FloorMonotone(a: real, b: real)
    requires a <= b
    ensures a.Floor <= b.Floor
  {
  }

  /** `round(prob_up * 0.7 + 0.3 * 0.53, 2)`: the model probability blended
      with a fixed base rate of 0.53 and kept to two decimals. */
  function Confidence(probUp: real): (c: real)
  {
    Round(probUp * 0.7 + 0.3 * 0.53, 100.0)
  }

  /** A higher probability never lowers the confidence. */
  lemma ConfidenceMonotone(p: real, q: real)
    requires p <= q
    ensures Confidence(p) <= Confidence(q)
  {
    RoundMonotone(p * 0.7 + 0.159, q * 0.7 + 0.159, 100.0);
  }

  /** For a probability the confidence lies in [0.16, 0.86]. */
  lemma ConfidenceRange(probUp: real)
    requires 0.0 <= probUp <= 1.0
    ensures 0.16 <= Confidence(probUp) <= 0.86
  {
    ConfidenceMonotone(0.0, probUp);
    ConfidenceMonotone(probUp, 1.0);
    ConfidenceAt(0.0, 16);
    ConfidenceAt(1.0, 86);
  }

  /** The confidence is within half a hundredth of the unrounded blend. */
  lemma ConfidenceNearBlend(probUp: real)
    ensures -0.005 < Confidence(probUp) - (probUp * 0.7 + 0.159) <= 0.005
  {
    RoundIsNearest(probUp * 0.7 + 0.159, 100.0);
  }

  /** The confidence at a given probability, by its hundredths. */
  lemma ConfidenceAt(probUp: real, hundredths: int)
    requires hundredths as real <= (probUp * 0.7 + 0.159) * 100.0 + 0.5 < hundredths as real + 1.0
    ensures Confidence(probUp) == hundredths as real / 100.0
  {
    assert ((probUp * 0.7 + 0.159) * 100.0 + 0.5).Floor == hundredths;
  }

  /** A probability of 0.8 gives a confidence of 0.72. */
  lemma ConfidenceExample()
    ensures Confidence(0.8) == 0.72
  {
    ConfidenceAt(0.8, 72);
  }
}
