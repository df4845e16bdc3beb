/**
 * Input side of the demand-forecast engine: the orders table as the validator
 * sees it after `pd.to_numeric(errors='coerce')`, the quality report with its
 * advisory issues, the numeric black boxes (pandas statistics, statsmodels
 * fits, `round`) passed in as a `Numerics` record of functions, and the
 * validator `_prepare_and_validate_data` itself.
 */
module ForecastData {
  import opened Wrappers
  import opened Stats

  /** One cell of the `orders` column after numeric coercion: a number, or NaN for anything unparsable or absent. */
  datatype Cell = Num(value: real) | Missing

  /**
   * The input DataFrame: its column names, its row count and the cells of its
   * `orders` column (meaningful when `"orders"` is among the columns).
   */
  datatype OrdersFrame = OrdersFrame(columns: set<string>, rowCount: nat, orders: seq<Cell>)

  /** `DataFrame.empty`: no rows or no columns. */
  predicate IsEmpty(f: OrdersFrame) {
    f.rowCount == 0 || f.columns == {}
  }

  /** A floating-point result that may be NaN (a fit that produced no number). */
  datatype Float = Finite(value: real) | NaN

  /** The advisory and blocking findings of the validator, in the order it records them. */
  datatype Issue =
    | EmptyFrame
    | MissingOrdersColumn
    | NegativesRemoved(count: nat)
    | ZerosAdjusted(count: nat)
    | InsufficientData(points: nat)
    | DataLoss(points: nat, original: nat)
    | HighVariability(cv: real)
    | ManyOutliers(count: nat)

  datatype QualityReport = QualityReport(isValid: bool, issues: seq<Issue>, dataPoints: nat, missingValues: nat)

  /** `(p, d, q)` of an ARIMA model. */
  datatype ArimaOrder = ArimaOrder(p: nat, d: nat, q: nat)

  /** Keyword arguments of one `ExponentialSmoothing` construction (`'add'` components only). */
  datatype SmoothingSpec = SmoothingSpec(additiveTrend: bool, additiveSeasonal: bool, seasonalPeriods: Option<nat>)

  /** What a fitted ARIMA model yields: the forecast at the last step, its AIC and the standard deviation of its residuals. */
  datatype ArimaFit = ArimaFit(forecast: Float, aic: real, residStd: real)

  datatype SmoothingFit = SmoothingFit(forecast: Float, residStd: real)

  /** `seasonal_decompose`: the trend after `dropna`, the seasonal component, and the residual standard deviation. */
  datatype Decomposition = Decomposition(trend: seq<real>, seasonal: seq<real>, residStd: real)

  /**
   * The numeric libraries the engine calls, as uninterpreted functions:
   * sample standard deviation, quantile, `round(x, 2)`, `round(x, 3)`, and the statsmodels
   * fits, each returning `None` where the library raises.
   * `fitArima(data, order, steps, alpha)` passes `alpha` only when it is given.
   */
  datatype Numerics = Numerics(
    std: seq<real> -> real,
    quantile: (seq<real>, real) -> real,
    round2: real -> real,
    round3: real -> real,
    fitArima: (seq<real>, ArimaOrder, int, Option<real>) -> Option<ArimaFit>,
    fitSmoothing: (seq<real>, SmoothingSpec, int) -> Option<SmoothingFit>,
    decompose: (seq<real>, nat) -> Option<Decomposition>)

  /** A standard deviation is never negative. */
  ghost predicate StdNonNegative(num: Numerics) {
    forall s :: num.std(s) >= 0.0
  }

  /** A number with at most three decimals. */
  predicate IsThousandths(d: real) {
    (d * 1000.0).Floor as real == d * 1000.0
  }

  /**
   * `round(x, 3)` is monotone and leaves a number with at most three
   * decimals unchanged; nothing more about it is relied on.
   */
  ghost predicate RoundsToThousandths(num: Numerics) {
    (forall x, y :: x <= y ==> num.round3(x) <= num.round3(y))
    && (forall d :: IsThousandths(d) ==> num.round3(d) == d)
  }

  /** Rounding to three decimals keeps a value between two numbers of thousandths. */
  lemma RoundBetween(num: Numerics, x: real, lo: int, hi: int)
    requires RoundsToThousandths(num) && lo as real / 1000.0 <= x <= hi as real / 1000.0
    ensures lo as real / 1000.0 <= num.round3(x) <= hi as real / 1000.0
  {
    assert IsThousandths(lo as real / 1000.0);
    assert IsThousandths(hi as real / 1000.0);
  }

  /** A series the validator accepts: non-empty and strictly positive. */
  predicate Positive(data: seq<real>) {
    |data| > 0 && forall i :: 0 <= i < |data| ==> data[i] > 0.0
  }

  /** The cleaning chain: drop NaN, drop negatives, then replace 0 by 1, keeping the order of the rest. */
  function Clean(cells: seq<Cell>): (data: seq<real>)
    ensures forall i :: 0 <= i < |data| ==> data[i] > 0.0
    ensures |data| <= |cells|
    decreases |cells|
  {
    if cells == [] then []
    else
      var front := Clean(cells[..|cells| - 1]);
      match cells[|cells| - 1]
      case Missing => front
      case Num(v) => if v < 0.0 then front else if v == 0.0 then front + [1.0] else front + [v]
  }

  function CountMissing(cells: seq<Cell>): nat
    decreases |cells|
  {
    if cells == [] then 0 else CountMissing(cells[..|cells| - 1]) + (if cells[|cells| - 1].Missing? then 1 else 0)
  }

  function CountNegative(cells: seq<Cell>): nat
    decreases |cells|
  {
    if cells == [] then 0
    else CountNegative(cells[..|cells| - 1]) + (if cells[|cells| - 1].Num? && cells[|cells| - 1].value < 0.0 then 1 else 0)
  }

  function CountZero(cells: seq<Cell>): nat
    decreases |cells|
  {
    if cells == [] then 0
    else CountZero(cells[..|cells| - 1]) + (if cells[|cells| - 1] == Num(0.0) then 1 else 0)
  }

  /** Every cell is accounted for: it is kept, or dropped as missing, or dropped as negative. */
  lemma {:induction false} CleanAccounts(cells: seq<Cell>)
    ensures |Clean(cells)| + CountMissing(cells) + CountNegative(cells) == |cells|
    decreases |cells|
  {
    if cells != [] {
      CleanAccounts(cells[..|cells| - 1]);
    }
  }

  /** Cleaning leaves a series of positive numbers untouched. */
  lemma {:induction false} CleanOfPositive(data: seq<real>)
    requires forall i :: 0 <= i < |data| ==> data[i] > 0.0
    ensures Clean(seq(|data|, i requires 0 <= i < |data| => Num(data[i]))) == data
    decreases |data|
  {
    if data != [] {
      var cells := seq(|data|, i requires 0 <= i < |data| => Num(data[i]));
      var front := data[..|data| - 1];
      assert cells[..|cells| - 1] == seq(|front|, i requires 0 <= i < |front| => Num(front[i]));
      CleanOfPositive(front);
    }
  }

  /** The number of values outside `[q1 - 1.5 iqr, q3 + 1.5 iqr]`. */
  function CountOutside(data: seq<real>, low: real, high: real): (k: nat)
    ensures k <= |data|
    decreases |data|
  {
    if data == [] then 0
    else CountOutside(data[..|data| - 1], low, high) + (if data[|data| - 1] < low || data[|data| - 1] > high then 1 else 0)
  }

  /** The coefficient of variation `std / mean` of a positive series (sample standard deviation, the pandas default). */
  function CoefficientOfVariation(data: seq<real>, num: Numerics): real
    requires Positive(data)
  {
    MeanPositive(data);
    num.std(data) / Mean(data)
  }

  /** The statistical advisories added once at least five points remain: high variability and many IQR outliers. */
  function StatisticalIssues(data: seq<real>, num: Numerics): (issues: seq<Issue>)
    requires Positive(data)
    ensures forall i :: 0 <= i < |issues| ==> issues[i].HighVariability? || issues[i].ManyOutliers?
    ensures (exists i :: 0 <= i < |issues| && issues[i].HighVariability?) <==> CoefficientOfVariation(data, num) > 2.0
    ensures var q1 := num.quantile(data, 0.25);
      var q3 := num.quantile(data, 0.75);
      (exists i :: 0 <= i < |issues| && issues[i].ManyOutliers?) <==>
        CountOutside(data, q1 - 1.5 * (q3 - q1), q3 + 1.5 * (q3 - q1)) as real > |data| as real * 0.1
  {
    var cv := CoefficientOfVariation(data, num);
    var q1 := num.quantile(data, 0.25);
    var q3 := num.quantile(data, 0.75);
    var iqr := q3 - q1;
    var outliers := CountOutside(data, q1 - 1.5 * iqr, q3 + 1.5 * iqr);
    var variability := if cv > 2.0 then [HighVariability(cv)] else [];
    var spread := if outliers as real > |data| as real * 0.1 then [ManyOutliers(outliers)] else [];
    assert variability == [] ==> variability + spread == spread;
    assert variability != [] ==> (variability + spread)[0] == variability[0];
    assert spread != [] ==> (variability + spread)[|variability|] == spread[0];
    variability + spread
  }

  /** `_prepare_and_validate_data`: the cleaned series and the quality report. */
  function PrepareAndValidate(frame: Option<OrdersFrame>, num: Numerics): (r: (seq<real>, QualityReport))
    ensures forall i :: 0 <= i < |r.0| ==> r.0[i] > 0.0
    ensures r.1.dataPoints == |r.0|
    ensures r.1.isValid ==> |r.0| >= 5 && Positive(r.0)
  {
    if frame.None? || IsEmpty(frame.value) then
      ([], QualityReport(false, [EmptyFrame], 0, 0))
    else if "orders" !in frame.value.columns then
      ([], QualityReport(false, [MissingOrdersColumn], 0, 0))
    else
      var cells := frame.value.orders;
      var data := Clean(cells);
      var n := |data|;
      var issues := CleaningIssues(cells) + (if n >= 5 then StatisticalIssues(data, num) else []);
      (data, QualityReport(n >= 5, issues, n, CountMissing(cells)))
  }

  /** The advisories recorded before the statistical checks: the cleaning counts, then too few points or data loss. */
  function CleaningIssues(cells: seq<Cell>): (issues: seq<Issue>)
    ensures forall i :: 0 <= i < |issues| ==> !issues[i].HighVariability? && !issues[i].ManyOutliers?
  {
    var negatives := CountNegative(cells);
    var zeros := CountZero(cells);
    var n := |Clean(cells)|;
    (if negatives > 0 then [NegativesRemoved(negatives)] else [])
    + (if zeros > 0 then [ZerosAdjusted(zeros)] else [])
    + (if n < 5 then [InsufficientData(n)]
       else if (n as real) < (|cells| as real) * 0.7 then [DataLoss(n, |cells|)]
       else [])
  }

  /** The input is rejected exactly when it is absent or empty, has no `orders` column, or keeps fewer than five points. */
  lemma ValidIff(frame: Option<OrdersFrame>, num: Numerics)
    ensures PrepareAndValidate(frame, num).1.isValid <==>
      frame.Some? && !IsEmpty(frame.value) && "orders" in frame.value.columns && |Clean(frame.value.orders)| >= 5
  {
  }

  /** A "significant data loss" issue is recorded exactly when the input is valid and fewer than 70% of its rows survive. */
  lemma DataLossIff(frame: Option<OrdersFrame>, num: Numerics)
    ensures var (data, report) := PrepareAndValidate(frame, num);
      (exists i :: 0 <= i < |report.issues| && report.issues[i].DataLoss?) <==>
        (report.isValid && (|data| as real) < (|frame.value.orders| as real) * 0.7)
  {
    var (data, report) := PrepareAndValidate(frame, num);
    if frame.Some? && !IsEmpty(frame.value) && "orders" in frame.value.columns {
      var cells := frame.value.orders;
      var n := |data|;
      var negatives := CountNegative(cells);
      var zeros := CountZero(cells);
      var a := (if negatives > 0 then [NegativesRemoved(negatives)] else [])
        + (if zeros > 0 then [ZerosAdjusted(zeros)] else []);
      var b := if n < 5 then [InsufficientData(n)]
        else if (n as real) < (|cells| as real) * 0.7 then [DataLoss(n, |cells|)]
        else [];
      var c := if n >= 5 then StatisticalIssues(data, num) else [];
      assert report.issues == a + b + c;
      assert forall i :: 0 <= i < |a| ==> !a[i].DataLoss?;
      assert forall i :: 0 <= i < |c| ==> !c[i].DataLoss?;
      if report.isValid && (n as real) < (|cells| as real) * 0.7 {
        assert report.issues[|a|] == DataLoss(n, |cells|);
      }
    }
  }

  /** Once the input is valid, "high variability" is reported exactly when the coefficient of variation exceeds 2. */
  lemma {:induction false} HighVariabilityIff(frame: Option<OrdersFrame>, num: Numerics)
    ensures var (data, report) := PrepareAndValidate(frame, num);
      (exists i :: 0 <= i < |report.issues| && report.issues[i].HighVariability?) <==>
        (report.isValid && CoefficientOfVariation(data, num) > 2.0)
  {
    var (data, report) := PrepareAndValidate(frame, num);
    if frame.Some? && !IsEmpty(frame.value) && "orders" in frame.value.columns {
      var front := CleaningIssues(frame.value.orders);
      if |data| >= 5 {
        var c := StatisticalIssues(data, num);
        assert report.issues == front + c;
        if CoefficientOfVariation(data, num) > 2.0 {
          var i :| 0 <= i < |c| && c[i].HighVariability?;
          assert report.issues[|front| + i] == c[i];
        }
      } else {
        assert report.issues == front;
      }
    }
  }

  /**
   * Once the input is valid, "many outliers" is reported exactly when more than a tenth of the points lie outside
   * the fences `q1 - 1.5 iqr` and `q3 + 1.5 iqr`.
   */
  lemma {:induction false} ManyOutliersIff(frame: Option<OrdersFrame>, num: Numerics)
    ensures var (data, report) := PrepareAndValidate(frame, num);
      var q1 := num.quantile(data, 0.25);
      var q3 := num.quantile(data, 0.75);
      (exists i :: 0 <= i < |report.issues| && report.issues[i].ManyOutliers?) <==>
        (report.isValid && CountOutside(data, q1 - 1.5 * (q3 - q1), q3 + 1.5 * (q3 - q1)) as real > |data| as real * 0.1)
  {
    var (data, report) := PrepareAndValidate(frame, num);
    if frame.Some? && !IsEmpty(frame.value) && "orders" in frame.value.columns {
      var front := CleaningIssues(frame.value.orders);
      var q1 := num.quantile(data, 0.25);
      var q3 := num.quantile(data, 0.75);
      if |data| >= 5 {
        var c := StatisticalIssues(data, num);
        assert report.issues == front + c;
        if CountOutside(data, q1 - 1.5 * (q3 - q1), q3 + 1.5 * (q3 - q1)) as real > |data| as real * 0.1 {
          var i :| 0 <= i < |c| && c[i].ManyOutliers?;
          assert report.issues[|front| + i] == c[i];
        }
      } else {
        assert report.issues == front;
      }
    }
  }
}
