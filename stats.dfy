/**
 * Exact statistics over `real` used by several components: the sum and mean of
 * a series (numpy `sum`/`mean`, pandas `Series.mean`), its minimum and maximum,
 * the head/tail windows of a series, and the degree-1 least-squares fit
 * `np.polyfit(x, y, 1)` over the index positions `x = 0 .. n-1`.
 */
module Stats {

  function Sum(s: seq<real>): real
    decreases |s|
  {
    if s == [] then 0.0 else Sum(s[..|s| - 1]) + s[|s| - 1]
  }

  function Mean(s: seq<real>): real
    requires |s| > 0
  {
    Sum(s) / |s| as real
  }

  function Min(s: seq<real>): (m: real)
    requires |s| > 0
    ensures m in s && forall i :: 0 <= i < |s| ==> m <= s[i]
    decreases |s|
  {
    if |s| == 1 then s[0]
    else
      var m := Min(s[..|s| - 1]);
      assert forall i :: 0 <= i < |s| - 1 ==> s[..|s| - 1][i] == s[i];
      if s[|s| - 1] < m then s[|s| - 1] else m
  }

  function Max(s: seq<real>): (m: real)
    requires |s| > 0
    ensures m in s && forall i :: 0 <= i < |s| ==> s[i] <= m
    decreases |s|
  {
    if |s| == 1 then s[0]
    else
      var m := Max(s[..|s| - 1]);
      assert forall i :: 0 <= i < |s| - 1 ==> s[..|s| - 1][i] == s[i];
      if s[|s| - 1] > m then s[|s| - 1] else m
  }

  /** `s.tail(k)` / `s[-k:]`: the last `min(k, |s|)` values. */
  function Tail(s: seq<real>, k: nat): (r: seq<real>)
    ensures |r| == if k < |s| then k else |s|
  {
    if k < |s| then s[|s| - k..] else s
  }

  /** `s.head(k)` / `s[:k]`: the first `min(k, |s|)` values. */
  function Head(s: seq<real>, k: nat): (r: seq<real>)
    ensures |r| == if k < |s| then k else |s|
  {
    if k < |s| then s[..k] else s
  }

  /** A sum over values bounded below by `lo` is at least `|s| * lo`, and bounded above by `hi` at most `|s| * hi`. */
  lemma {:induction false} SumBounds(s: seq<real>, lo: real, hi: real)
    requires forall i :: 0 <= i < |s| ==> lo <= s[i] <= hi
    ensures |s| as real * lo <= Sum(s) <= |s| as real * hi
    decreases |s|
  {
    if s != [] {
      var init := s[..|s| - 1];
      assert forall i :: 0 <= i < |init| ==> init[i] == s[i];
      SumBounds(init, lo, hi);
      assert |s| as real * lo == |init| as real * lo + lo;
      assert |s| as real * hi == |init| as real * hi + hi;
    }
  }

  /** Dividing both sides of `n * lo <= t <= n * hi` by a positive `n`. */
  lemma DivideBounds(t: real, n: real, lo: real, hi: real)
    requires n > 0.0 && n * lo <= t <= n * hi
    ensures lo <= t / n <= hi
  {
    assert t / n * n == t;
  }

  /** A mean of values within `[lo, hi]` is within `[lo, hi]`. */
  lemma MeanBounds(s: seq<real>, lo: real, hi: real)
    requires |s| > 0
    requires forall i :: 0 <= i < |s| ==> lo <= s[i] <= hi
    ensures lo <= Mean(s) <= hi
  {
    SumBounds(s, lo, hi);
    DivideBounds(Sum(s), |s| as real, lo, hi);
  }

  /** The mean of a non-empty series lies between its minimum and its maximum. */
  lemma MeanBetweenMinMax(s: seq<real>)
    requires |s| > 0
    ensures Min(s) <= Mean(s) <= Max(s)
  {
    MeanBounds(s, Min(s), Max(s));
  }

  /** The mean of values that are all positive is positive. */
  lemma MeanPositive(s: seq<real>)
    requires |s| > 0
    requires forall i :: 0 <= i < |s| ==> s[i] > 0.0
    ensures Mean(s) > 0.0
  {
    MeanBetweenMinMax(s);
  }

  /** The index positions `0, 1, .., n-1` as reals: `np.arange(n)`. */
  function Positions(n: nat): (x: seq<real>)
    ensures |x| == n && forall i :: 0 <= i < n ==> x[i] == i as real
  {
    seq(n, i requires 0 <= i < n => i as real)
  }

  /** Sum of `(x[i] - mx) * (y[i] - my)` over paired values. */
  function CrossDeviation(x: seq<real>, y: seq<real>, mx: real, my: real): real
    requires |x| == |y|
    decreases |x|
  {
    if x == [] then 0.0
    else CrossDeviation(x[..|x| - 1], y[..|y| - 1], mx, my) + (x[|x| - 1] - mx) * (y[|y| - 1] - my)
  }

  /** Coefficients of a straight line `slope * x + intercept`. */
  datatype Line = Line(slope: real, intercept: real)

  /** `np.polyval(line, x)`. */
  function Eval(l: Line, x: real): real {
    l.slope * x + l.intercept
  }

  /**
   * `np.polyfit(np.arange(n), y, 1)`: the least-squares line through the
   * points `(i, y[i])`, defined for at least two points.
   */
  function FitLine(y: seq<real>): (l: Line)
    requires |y| >= 2
  {
    var x := Positions(|y|);
    var mx := Mean(x);
    var my := Mean(y);
    var sxx := CrossDeviation(x, x, mx, mx);
    var sxy := CrossDeviation(x, y, mx, my);
    SquaresPositive(x, mx);
    var slope := sxy / sxx;
    Line(slope, my - slope * mx)
  }

  lemma SquareNonNegative(a: real)
    ensures a * a >= 0.0
  {
    if a < 0.0 {
      assert a * a == (-a) * (-a);
    }
  }

  /** The spread of the positions `0..n-1` about their mean is positive once there are two of them. */
  lemma SquaresPositive(x: seq<real>, mx: real)
    requires |x| >= 2 && forall i :: 0 <= i < |x| ==> x[i] == i as real
    ensures CrossDeviation(x, x, mx, mx) > 0.0
  {
    var init := x[..|x| - 1];
    var front := init[..|init| - 1];
    var a := x[|x| - 1] - mx;
    var b := init[|init| - 1] - mx;
    assert a - b == 1.0;
    SquaresNonNegative(front, mx);
    SquareNonNegative(a);
    SquareNonNegative(b);
    assert a * a + b * b > 0.0 by {
      if a == 0.0 {
        assert b == -1.0;
      } else if a > 0.0 {
        assert a * a > 0.0;
      } else {
        assert (-a) * (-a) > 0.0;
      }
    }
    assert CrossDeviation(x, x, mx, mx) == CrossDeviation(init, init, mx, mx) + a * a;
    assert CrossDeviation(init, init, mx, mx) == CrossDeviation(front, front, mx, mx) + b * b;
  }

  lemma {:induction false} SquaresNonNegative(x: seq<real>, mx: real)
    ensures CrossDeviation(x, x, mx, mx) >= 0.0
    decreases |x|
  {
    if x != [] {
      SquaresNonNegative(x[..|x| - 1], mx);
      SquareNonNegative(x[|x| - 1] - mx);
    }
  }

  /** Least squares fits a constant series exactly: slope 0 and intercept the constant. */
  lemma FitLineOfConstant(y: seq<real>, c: real)
    requires |y| >= 2 && forall i :: 0 <= i < |y| ==> y[i] == c
    ensures FitLine(y) == Line(0.0, c)
  {
    var x := Positions(|y|);
    var mx := Mean(x);
    SumBounds(y, c, c);
    DivideBounds(Sum(y), |y| as real, c, c);
    assert Mean(y) == c;
    CrossWithConstant(x, y, mx, c);
    SquaresPositive(x, mx);
    var sxx := CrossDeviation(x, x, mx, mx);
    assert 0.0 / sxx == 0.0;
  }

  lemma {:induction false} CrossWithConstant(x: seq<real>, y: seq<real>, mx: real, c: real)
    requires |x| == |y| && forall i :: 0 <= i < |y| ==> y[i] == c
    ensures CrossDeviation(x, y, mx, c) == 0.0
    decreases |x|
  {
    if x != [] {
      CrossWithConstant(x[..|x| - 1], y[..|y| - 1], mx, c);
    }
  }
}
