/**
 * The five forecasting strategies of the demand-forecast engine and the ARIMA
 * confidence formula. The statistical fits are the uninterpreted functions of
 * `Numerics`; everything around them (window sizes, candidate orders and
 * configurations, thresholds, clamps) is computed exactly over `real`.
 * Each strategy receives the validated series: non-empty and positive.
 */
module ForecastStrategies {
  import opened Wrappers
  import opened Stats
  import opened ForecastData

  /** What a strategy returns when it does not fail: the forecast (possibly NaN) and its confidence. */
  datatype Attempt = Attempt(forecast: Float, confidence: real)

  /** Python's `max(a, b)` on numbers. */
  function Larger(a: real, b: real): (r: real)
    ensures r >= a && r >= b && (r == a || r == b)
  {
    if b > a then b else a
  }

  /** Python's `min(a, b)` on numbers. */
  function Smaller(a: real, b: real): (r: real)
    ensures r <= a && r <= b && (r == a || r == b)
  {
    if b < a then b else a
  }

  // ---------------------------------------------------------------- moving average

  /** Window of the short moving average: a week of data when there are 21 points or more. */
  function WindowSize(n: nat): (w: nat)
    ensures w <= n
    ensures n >= 1 ==> w >= 1
    ensures n >= 21 ==> w == 7
    ensures 10 <= n < 21 ==> w == if n / 2 < 5 then n / 2 else 5
    ensures n < 10 ==> w == if n < 3 then n else 3
  {
    if n >= 21 then 7
    else if n >= 10 then (if n / 2 < 5 then n / 2 else 5)
    else if n < 3 then n else 3
  }

  /** Linear drift per step: the mean of the last three points minus the mean of the first three, over the length. */
  function RecentTrend(data: seq<real>): real
    requires |data| > 0
  {
    (Mean(Tail(data, 3)) - Mean(Head(data, 3))) / |data| as real
  }

  /** The drift added to the averages: `RecentTrend * periods` from five points on, else nothing. */
  function TrendAdjustment(data: seq<real>, periods: int): real
    requires |data| > 0
  {
    if |data| >= 5 then RecentTrend(data) * periods as real else 0.0
  }

  /** The moving-average forecast: 70% short-window and 30% long-window mean from ten points on, plus the drift. */
  function MovingAverageValue(data: seq<real>, periods: int): real
    requires |data| > 0
  {
    var n := |data|;
    var w := WindowSize(n);
    var maShort := Mean(Tail(data, w));
    var maLong := Mean(Tail(data, if 2 * w < n then 2 * w else n));
    if n >= 10 then 0.7 * maShort + 0.3 * maLong + TrendAdjustment(data, periods)
    else maShort + TrendAdjustment(data, periods)
  }

  /** `_moving_average_forecast`. */
  function MovingAverageForecast(data: seq<real>, periods: int, num: Numerics): (a: Attempt)
    requires Positive(data)
    ensures a.forecast.Finite? && a.confidence >= 0.3
  {
    MeanPositive(data);
    var volatility := num.std(data) / Mean(data);
    Attempt(Finite(MovingAverageValue(data, periods)), Larger(0.3, 1.0 - Smaller(volatility, 1.0)))
  }

  /** With a non-negative standard deviation the moving-average confidence stays within [0.3, 1]. */
  lemma MovingAverageConfidenceBounds(data: seq<real>, periods: int, num: Numerics)
    requires Positive(data) && StdNonNegative(num)
    ensures 0.3 <= MovingAverageForecast(data, periods, num).confidence <= 1.0
  {
    MeanPositive(data);
    var m := Mean(data);
    var s := num.std(data);
    assert s >= 0.0;
    assert s / m >= 0.0 by {
      assert s / m * m == s;
    }
  }

  /** The mean of a constant series is that constant. */
  lemma MeanOfConstant(s: seq<real>, c: real)
    requires |s| > 0 && forall i :: 0 <= i < |s| ==> s[i] == c
    ensures Mean(s) == c
  {
    MeanBounds(s, c, c);
  }

  /** A flat history is forecast flat: every average equals the level and the drift is zero. */
  lemma MovingAverageOfConstant(data: seq<real>, periods: int, num: Numerics, c: real)
    requires Positive(data) && forall i :: 0 <= i < |data| ==> data[i] == c
    ensures MovingAverageForecast(data, periods, num).forecast == Finite(c)
  {
    MovingAverageValueOfConstant(data, periods, c);
  }

  /** The last `k` values of a constant series have its mean. */
  lemma TailMeanOfConstant(data: seq<real>, k: nat, c: real)
    requires |data| > 0 && k > 0 && forall i :: 0 <= i < |data| ==> data[i] == c
    ensures Mean(Tail(data, k)) == c
  {
    var t := Tail(data, k);
    forall i | 0 <= i < |t|
      ensures t[i] == c
    {
      if k < |data| {
        assert t[i] == data[|data| - k + i];
      }
    }
    MeanOfConstant(t, c);
  }

  /** The first `k` values of a constant series have its mean. */
  lemma HeadMeanOfConstant(data: seq<real>, k: nat, c: real)
    requires |data| > 0 && k > 0 && forall i :: 0 <= i < |data| ==> data[i] == c
    ensures Mean(Head(data, k)) == c
  {
    var h := Head(data, k);
    forall i | 0 <= i < |h|
      ensures h[i] == c
    {
      assert h[i] == data[i];
    }
    MeanOfConstant(h, c);
  }

  lemma MovingAverageValueOfConstant(data: seq<real>, periods: int, c: real)
    requires |data| > 0 && forall i :: 0 <= i < |data| ==> data[i] == c
    ensures MovingAverageValue(data, periods) == c
  {
    var n := |data|;
    var w := WindowSize(n);
    var longWindow := if 2 * w < n then 2 * w else n;
    TailMeanOfConstant(data, w, c);
    TailMeanOfConstant(data, longWindow, c);
    TailMeanOfConstant(data, 3, c);
    HeadMeanOfConstant(data, 3, c);
    assert RecentTrend(data) == 0.0 by {
      assert Mean(Tail(data, 3)) - Mean(Head(data, 3)) == 0.0;
      assert 0.0 / n as real == 0.0;
    }
    assert TrendAdjustment(data, periods) == 0.0 by {
      assert RecentTrend(data) * periods as real == 0.0;
    }
  }

  // ---------------------------------------------------------------- linear trend

  /** Sum of squared residuals of `y` against a line over the positions `0..n-1`. */
  function SquaredResiduals(y: seq<real>, l: Line): (r: real)
    ensures r >= 0.0
    decreases |y|
  {
    if y == [] then 0.0
    else
      var e := y[|y| - 1] - Eval(l, (|y| - 1) as real);
      SquareNonNegative(e);
      SquaredResiduals(y[..|y| - 1], l) + e * e
  }

  /**
   * Coefficient of determination of a line fitted to `y`: at most 1, exactly
   * 1 for a line through every point of a spread series, and 0 when `y` has
   * no spread.
   */
  function RSquared(y: seq<real>, l: Line): (r: real)
    requires |y| > 0
    ensures r <= 1.0
    ensures r == 1.0 <==> CrossDeviation(y, y, Mean(y), Mean(y)) > 0.0 && SquaredResiduals(y, l) == 0.0
    ensures CrossDeviation(y, y, Mean(y), Mean(y)) <= 0.0 ==> r == 0.0
  {
    var m := Mean(y);
    var ssTot := CrossDeviation(y, y, m, m);
    var ssRes := SquaredResiduals(y, l);
    if ssTot > 0.0 then
      assert ssRes / ssTot >= 0.0 by { assert ssRes / ssTot * ssTot == ssRes; }
      1.0 - ssRes / ssTot
    else 0.0
  }

  /** `_trend_forecast`: the least-squares line extrapolated `periods` steps past the last point. */
  function TrendForecast(data: seq<real>, periods: int): (a: Attempt)
    requires Positive(data)
    ensures a.forecast.Finite? && 0.2 <= a.confidence <= 0.8
  {
    var n := |data|;
    if n < 3 then Attempt(Finite(Mean(data)), 0.3)
    else
      var l := FitLine(data);
      Attempt(Finite(Eval(l, (n + periods - 1) as real)), Larger(0.2, Smaller(0.8, RSquared(data, l))))
  }

  /** A flat history is forecast flat, and with nothing to explain the fit earns the lowest confidence. */
  lemma TrendOfConstant(data: seq<real>, periods: int, c: real)
    requires Positive(data) && |data| >= 3 && forall i :: 0 <= i < |data| ==> data[i] == c
    ensures TrendForecast(data, periods) == Attempt(Finite(c), 0.2)
  {
    FitLineOfConstant(data, c);
    MeanOfConstant(data, c);
    CrossWithConstant(data, data, c, c);
  }

  // ---------------------------------------------------------------- ARIMA

  /** `_calculate_arima_confidence`: an AIC score and a residual score, weighted 0.3/0.7, clamped to [0.1, 0.95]. */
  function ArimaConfidence(aic: real, residStd: real, n: nat, dataStd: real): (c: real)
    requires n > 0
    ensures 0.1 <= c <= 0.95
  {
    var aicScore := Larger(0.0, 1.0 - aic / (n as real * 10.0));
    var residualScore := if dataStd > 0.0 then Larger(0.0, 1.0 - residStd / dataStd) else 0.5;
    Larger(0.1, Smaller(0.95, aicScore * 0.3 + residualScore * 0.7))
  }

  /** A model with non-positive AIC whose residuals vanish earns the top confidence. */
  lemma ArimaConfidenceOfPerfectFit(aic: real, n: nat, dataStd: real)
    requires n > 0 && aic <= 0.0 && dataStd > 0.0
    ensures ArimaConfidence(aic, 0.0, n, dataStd) == 0.95
  {
    var d := n as real * 10.0;
    assert aic / d <= 0.0 by { assert aic / d * d == aic; }
  }

  /** The orders tried after the configured one fails, in order. */
  const AlternativeOrders: seq<ArimaOrder> :=
    [ArimaOrder(1, 1, 1), ArimaOrder(1, 0, 1), ArimaOrder(2, 0, 1), ArimaOrder(1, 1, 0)]

  /** One ARIMA fit to try: the order and the `alpha` passed to `forecast`, if any. */
  datatype ArimaCandidate = ArimaCandidate(order: ArimaOrder, alpha: Option<real>)

  /** The configured order with `alpha = 1 - confidence_level`, then the alternatives without `alpha`. */
  function ArimaCandidates(order: ArimaOrder, confidenceLevel: real): (cs: seq<ArimaCandidate>)
    ensures |cs| == 5 && cs[0] == ArimaCandidate(order, Some(1.0 - confidenceLevel))
    ensures forall k :: 1 <= k < 5 ==> cs[k] == ArimaCandidate(AlternativeOrders[k - 1], None)
  {
    [ArimaCandidate(order, Some(1.0 - confidenceLevel))]
      + seq(4, k requires 0 <= k < 4 => ArimaCandidate(AlternativeOrders[k], None))
  }

  function ArimaAttempt(data: seq<real>, fit: ArimaFit, num: Numerics): Attempt
    requires |data| > 0
  {
    Attempt(fit.forecast, ArimaConfidence(fit.aic, fit.residStd, |data|, num.std(data)))
  }

  function FitCandidate(data: seq<real>, c: ArimaCandidate, periods: int, num: Numerics): Option<ArimaFit> {
    num.fitArima(data, c.order, periods, c.alpha)
  }

  /** The first candidate that fits, in order. */
  function FirstArimaFit(data: seq<real>, cs: seq<ArimaCandidate>, periods: int, num: Numerics): Option<Attempt>
    requires |data| > 0
    decreases |cs|
  {
    if cs == [] then None
    else match FitCandidate(data, cs[0], periods, num)
      case Some(fit) => Some(ArimaAttempt(data, fit, num))
      case None => FirstArimaFit(data, cs[1..], periods, num)
  }

  /** `_arima_forecast`: `None` below ten points, otherwise the first candidate order that fits. */
  function ArimaForecast(data: seq<real>, order: ArimaOrder, periods: int, confidenceLevel: real, num: Numerics): Option<Attempt>
    requires Positive(data)
  {
    if |data| < 10 then None
    else FirstArimaFit(data, ArimaCandidates(order, confidenceLevel), periods, num)
  }

  /** The first fitting candidate wins; no candidate fitting means failure. */
  lemma {:induction false} FirstArimaFitIsFirst(data: seq<real>, cs: seq<ArimaCandidate>, periods: int, num: Numerics)
    requires |data| > 0
    ensures FirstArimaFit(data, cs, periods, num).None? <==>
      forall k :: 0 <= k < |cs| ==> FitCandidate(data, cs[k], periods, num).None?
    ensures FirstArimaFit(data, cs, periods, num).Some? ==>
      exists j :: 0 <= j < |cs| && FitCandidate(data, cs[j], periods, num).Some?
        && (forall k :: 0 <= k < j ==> FitCandidate(data, cs[k], periods, num).None?)
        && FirstArimaFit(data, cs, periods, num) == Some(ArimaAttempt(data, FitCandidate(data, cs[j], periods, num).value, num))
    decreases |cs|
  {
    if cs != [] && FitCandidate(data, cs[0], periods, num).None? {
      FirstArimaFitIsFirst(data, cs[1..], periods, num);
      assert forall k :: 1 <= k < |cs| ==> cs[1..][k - 1] == cs[k];
      if FirstArimaFit(data, cs, periods, num).Some? {
        var j :| 0 <= j < |cs[1..]| && FitCandidate(data, cs[1..][j], periods, num).Some?
          && (forall k :: 0 <= k < j ==> FitCandidate(data, cs[1..][k], periods, num).None?)
          && FirstArimaFit(data, cs[1..], periods, num) == Some(ArimaAttempt(data, FitCandidate(data, cs[1..][j], periods, num).value, num));
        assert FitCandidate(data, cs[j + 1], periods, num).Some?;
      }
    } else if cs != [] {
      assert FitCandidate(data, cs[0], periods, num).Some?;
    }
  }

  /** ARIMA fails below ten points; otherwise the configured order is tried first, with `alpha`, and wins whenever it fits. */
  lemma ArimaPrimaryFirst(data: seq<real>, order: ArimaOrder, periods: int, confidenceLevel: real, num: Numerics)
    requires Positive(data)
    ensures |data| < 10 ==> ArimaForecast(data, order, periods, confidenceLevel, num).None?
    ensures |data| >= 10 && num.fitArima(data, order, periods, Some(1.0 - confidenceLevel)).Some? ==>
      ArimaForecast(data, order, periods, confidenceLevel, num) ==
        Some(ArimaAttempt(data, num.fitArima(data, order, periods, Some(1.0 - confidenceLevel)).value, num))
  {
  }

  // ---------------------------------------------------------------- exponential smoothing

  /**
   * One configuration dictionary. `periodsKey` is `None` when the dictionary
   * has no `'seasonal_periods'` key at all, and `Some(p)` when it holds `p`.
   */
  datatype SmoothingConfig = SmoothingConfig(additiveTrend: bool, additiveSeasonal: bool, periodsKey: Option<Option<nat>>)

  /** Seasonal period `min(12, n // 3)` from 24 points on, none below. */
  function SmoothingPeriod(n: nat): Option<nat> {
    if n >= 24 then Some(if n / 3 < 12 then n / 3 else 12) else None
  }

  /** The three configurations in the order they are tried; only the first carries `'seasonal_periods'`. */
  function SmoothingConfigs(n: nat): seq<SmoothingConfig> {
    [SmoothingConfig(true, true, Some(SmoothingPeriod(n))),
     SmoothingConfig(true, false, None),
     SmoothingConfig(false, false, None)]
  }

  /** The model arguments of a configuration, or `None` when reading `config['seasonal_periods']` raises KeyError. */
  function ConfigSpec(c: SmoothingConfig): Option<SmoothingSpec> {
    match c.periodsKey
    case None => None
    case Some(None) => Some(SmoothingSpec(c.additiveTrend, false, None))
    case Some(Some(p)) => Some(SmoothingSpec(c.additiveTrend, c.additiveSeasonal, Some(p)))
  }

  /** `max(floor, 1 - residual_std / mean)`: confidence from the residual spread relative to the series level. */
  function ResidualConfidence(floor: real, residStd: real, data: seq<real>): (c: real)
    requires Positive(data)
    ensures c >= floor
  {
    MeanPositive(data);
    Larger(floor, 1.0 - residStd / Mean(data))
  }

  function SmoothingAttempt(data: seq<real>, fit: SmoothingFit): Attempt
    requires Positive(data)
  {
    Attempt(fit.forecast, ResidualConfidence(0.3, fit.residStd, data))
  }

  /** The configuration loop: skip a configuration that raises, return the first fit. */
  function TrySmoothing(data: seq<real>, configs: seq<SmoothingConfig>, periods: int, num: Numerics): Option<Attempt>
    requires Positive(data)
    decreases |configs|
  {
    if configs == [] then None
    else match ConfigSpec(configs[0])
      case None => TrySmoothing(data, configs[1..], periods, num)
      case Some(spec) =>
        match num.fitSmoothing(data, spec, periods)
        case None => TrySmoothing(data, configs[1..], periods, num)
        case Some(fit) => Some(SmoothingAttempt(data, fit))
  }

  /** `_exponential_smoothing_forecast`. */
  function ExponentialSmoothingForecast(data: seq<real>, periods: int, num: Numerics): (r: Option<Attempt>)
    requires Positive(data)
    ensures r.Some? ==> r.value.confidence >= 0.3
  {
    var r := TrySmoothing(data, SmoothingConfigs(|data|), periods, num);
    SmoothingConfidence(data, SmoothingConfigs(|data|), periods, num);
    r
  }

  lemma {:induction false} SmoothingConfidence(data: seq<real>, configs: seq<SmoothingConfig>, periods: int, num: Numerics)
    requires Positive(data)
    ensures TrySmoothing(data, configs, periods, num).Some? ==> TrySmoothing(data, configs, periods, num).value.confidence >= 0.3
    decreases |configs|
  {
    if configs != [] {
      SmoothingConfidence(data, configs[1..], periods, num);
    }
  }

  /**
   * Only the first configuration is ever fitted: the other two lack the
   * `'seasonal_periods'` key and raise before fitting. It is additive-trend,
   * and seasonal exactly from 24 points on.
   */
  lemma OnlyFirstSmoothingConfigFitted(data: seq<real>, periods: int, num: Numerics)
    requires Positive(data)
    ensures var spec := SmoothingSpec(true, |data| >= 24, SmoothingPeriod(|data|));
      ExponentialSmoothingForecast(data, periods, num) ==
        match num.fitSmoothing(data, spec, periods)
        case None => None
        case Some(fit) => Some(SmoothingAttempt(data, fit))
  {
    var cs := SmoothingConfigs(|data|);
    var spec := SmoothingSpec(true, |data| >= 24, SmoothingPeriod(|data|));
    assert ConfigSpec(cs[0]) == Some(spec);
    var rest := cs[1..];
    assert ConfigSpec(rest[0]).None? && ConfigSpec(rest[1..][0]).None? && rest[1..][1..] == [];
    assert TrySmoothing(data, rest[1..][1..], periods, num) == None;
    assert TrySmoothing(data, rest[1..], periods, num) == None;
    assert TrySmoothing(data, rest, periods, num) == None;
  }

  // ---------------------------------------------------------------- seasonal decomposition

  function SeasonalPeriod(n: nat): nat {
    if n / 2 < 7 then n / 2 else 7
  }

  /** Once the 14-point minimum is met the decomposition period is always a week. */
  lemma SeasonalPeriodIsWeekly(n: nat)
    requires n >= 14
    ensures SeasonalPeriod(n) == 7
  {
  }

  /** The trend extrapolated to the forecast step: a fitted line from three points on, else the last trend value, else the series mean. */
  function FutureTrend(trend: seq<real>, data: seq<real>, periods: int): real
    requires |data| > 0
  {
    if |trend| >= 3 then Eval(FitLine(trend), (|trend| + periods - 1) as real)
    else if |trend| > 0 then trend[|trend| - 1]
    else Mean(data)
  }

  /** `_seasonal_decompose_forecast`: `None` below 14 points, when the decomposition fails, or when the seasonal index is out of range. */
  function SeasonalDecomposeForecast(data: seq<real>, periods: int, num: Numerics): (r: Option<Attempt>)
    requires Positive(data)
    ensures |data| < 14 ==> r.None?
    ensures r.Some? ==> r.value.forecast.Finite? && r.value.confidence >= 0.4
  {
    var n := |data|;
    if n < 14 then None
    else
      var period := SeasonalPeriod(n);
      match num.decompose(data, period)
      case None => None
      case Some(d) =>
        var index := (n + periods - 1) % period;
        if index >= |d.seasonal| then None
        else
          var forecast := FutureTrend(d.trend, data, periods) + d.seasonal[index];
          Some(Attempt(Finite(forecast), ResidualConfidence(0.4, d.residStd, data)))
  }

  /** The seasonal component is read at the position of the forecast step within the weekly cycle. */
  lemma SeasonalIndexInCycle(data: seq<real>, periods: int, num: Numerics)
    requires Positive(data) && |data| >= 14
    requires num.decompose(data, 7).Some? && |num.decompose(data, 7).value.seasonal| >= 7
    ensures var d := num.decompose(data, 7).value;
      SeasonalDecomposeForecast(data, periods, num) ==
        Some(Attempt(Finite(FutureTrend(d.trend, data, periods) + d.seasonal[(|data| + periods - 1) % 7]),
                     ResidualConfidence(0.4, d.residStd, data)))
  {
  }
}
