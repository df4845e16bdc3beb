/**
 * The stateful demand-forecast engine `DemandForecastAgent`: the cascade over
 * the five strategies with its per-method counters, the bounded forecast
 * history with `last_forecast`, the three-level fallback, the confidence and
 * performance reports, and the reset.
 *
 * The engine's state is specified by the value `EngineState` and pure
 * functions over it; the class `DemandForecastAgent` holds the same state in
 * mutable fields, and each of its methods is proved to perform the matching
 * state transition.
 */
module ForecastEngine {
  import opened Wrappers
  import opened Stats
  import opened ForecastData
  import opened ForecastStrategies

  // ---------------------------------------------------------------- method names and counters

  const ArimaName: string := "arima"
  const SmoothingName: string := "exponential_smoothing"
  const SeasonalName: string := "seasonal_decompose"
  const MovingAverageName: string := "moving_average"
  const TrendName: string := "trend_forecast"

  /** The cascade order, from the most to the least sophisticated method. */
  const Methods: seq<string> := [ArimaName, SmoothingName, SeasonalName, MovingAverageName, TrendName]

  /** One entry of `model_performance`, in dictionary insertion order. */
  datatype MethodCounter = MethodCounter(name: string, successCount: nat, totalAttempts: nat)

  /** The counters the constructor installs: note the key `exponential`, which the cascade never uses. */
  const InitialCounters: seq<MethodCounter> :=
    [MethodCounter("arima", 0, 0), MethodCounter("exponential", 0, 0), MethodCounter("moving_average", 0, 0)]

  /** The counters `reset_performance_tracking` installs: one per cascade method. */
  const ResetCounters: seq<MethodCounter> :=
    [MethodCounter(ArimaName, 0, 0), MethodCounter(SmoothingName, 0, 0), MethodCounter(SeasonalName, 0, 0),
     MethodCounter(MovingAverageName, 0, 0), MethodCounter(TrendName, 0, 0)]

  function Names(perf: seq<MethodCounter>): (names: seq<string>)
    ensures |names| == |perf| && forall i :: 0 <= i < |perf| ==> names[i] == perf[i].name
  {
    seq(|perf|, i requires 0 <= i < |perf| => perf[i].name)
  }

  predicate Distinct(names: seq<string>) {
    forall i, j :: 0 <= i < j < |names| ==> names[i] != names[j]
  }

  /** Every method has succeeded at most as often as it was attempted. */
  predicate Sound(perf: seq<MethodCounter>) {
    forall i :: 0 <= i < |perf| ==> perf[i].successCount <= perf[i].totalAttempts
  }

  /** Position of a key in the counter dictionary; `None` is Python's KeyError. */
  function Find(names: seq<string>, name: string): (r: Option<nat>)
    ensures r.Some? ==> r.value < |names| && names[r.value] == name
    ensures r.Some? ==> forall k :: 0 <= k < r.value ==> names[k] != name
    ensures r.None? <==> name !in names
    decreases |names|
  {
    if names == [] then None
    else if names[0] == name then Some(0)
    else match Find(names[1..], name)
      case None => None
      case Some(k) => Some(k + 1)
  }

  /** Position of a name in the cascade order, 5 for a name outside it. */
  function Rank(name: string): (r: nat)
    ensures r <= 5
    ensures r < 5 ==> Methods[r] == name
    ensures r == 5 ==> name !in Methods
  {
    if name == ArimaName then 0
    else if name == SmoothingName then 1
    else if name == SeasonalName then 2
    else if name == MovingAverageName then 3
    else if name == TrendName then 4
    else 5
  }

  // ---------------------------------------------------------------- the cascade

  /** The arguments every strategy receives. */
  datatype Request = Request(data: seq<real>, periods: int, confidenceLevel: real, order: ArimaOrder, num: Numerics)

  /** Runs the `j`-th strategy of the cascade. */
  function RunStrategy(j: nat, q: Request): Option<Attempt>
    requires j < 5 && Positive(q.data)
  {
    if j == 0 then ArimaForecast(q.data, q.order, q.periods, q.confidenceLevel, q.num)
    else if j == 1 then ExponentialSmoothingForecast(q.data, q.periods, q.num)
    else if j == 2 then SeasonalDecomposeForecast(q.data, q.periods, q.num)
    else if j == 3 then Some(MovingAverageForecast(q.data, q.periods, q.num))
    else Some(TrendForecast(q.data, q.periods))
  }

  /** A strategy's answer is taken when it is not `None` and its forecast is not NaN. */
  predicate Accepted(a: Option<Attempt>) {
    a.Some? && a.value.forecast.Finite?
  }

  /** Result of `_hierarchical_forecast`. */
  datatype Outcome = Succeeded(forecast: real, methodName: string, confidence: real) | Failed

  /** The method at position `j` has a counter, so its increment does not raise. */
  predicate Reached(perf: seq<MethodCounter>, j: nat)
    requires j < 5
  {
    Find(Names(perf), Methods[j]).Some?
  }

  function BumpAttempts(perf: seq<MethodCounter>, k: nat): seq<MethodCounter>
    requires k < |perf|
  {
    perf[k := perf[k].(totalAttempts := perf[k].totalAttempts + 1)]
  }

  function BumpSuccesses(perf: seq<MethodCounter>, k: nat): seq<MethodCounter>
    requires k < |perf|
  {
    perf[k := perf[k].(successCount := perf[k].successCount + 1)]
  }

  /**
   * The cascade from position `j` on: a method without a counter raises
   * KeyError at the increment and is skipped; otherwise its attempt is
   * counted, it runs, and the first accepted answer stops the cascade with
   * its success counted.
   */
  function Cascade(perf: seq<MethodCounter>, j: nat, q: Request): (r: (Outcome, seq<MethodCounter>))
    requires j <= 5 && Positive(q.data)
    decreases 5 - j
  {
    if j == 5 then (Failed, perf)
    else match Find(Names(perf), Methods[j])
      case None => Cascade(perf, j + 1, q)
      case Some(k) =>
        var counted := BumpAttempts(perf, k);
        var a := RunStrategy(j, q);
        if Accepted(a) then (Succeeded(a.value.forecast.value, Methods[j], a.value.confidence), BumpSuccesses(counted, k))
        else Cascade(counted, j + 1, q)
  }

  lemma BumpKeepsNames(perf: seq<MethodCounter>, k: nat)
    requires k < |perf|
    ensures Names(BumpAttempts(perf, k)) == Names(perf)
    ensures Names(BumpSuccesses(perf, k)) == Names(perf)
  {
  }

  /** The cascade changes counter values, never the set or order of keys. */
  lemma {:induction false} CascadeKeepsNames(perf: seq<MethodCounter>, j: nat, q: Request)
    requires j <= 5 && Positive(q.data)
    ensures Names(Cascade(perf, j, q).1) == Names(perf)
    decreases 5 - j
  {
    if j < 5 {
      match Find(Names(perf), Methods[j])
      case None => CascadeKeepsNames(perf, j + 1, q);
      case Some(k) =>
        BumpKeepsNames(perf, k);
        BumpKeepsNames(BumpAttempts(perf, k), k);
        CascadeKeepsNames(BumpAttempts(perf, k), j + 1, q);
    }
  }

  /**
   * The winner is the first method that has a counter and whose answer is
   * accepted; the cascade fails exactly when no method with a counter gives
   * an accepted answer.
   */
  lemma CascadeWinnerIsFirstAccepted(perf: seq<MethodCounter>, j: nat, q: Request)
    requires j <= 5 && Positive(q.data)
    ensures var r := Cascade(perf, j, q).0;
      r.Failed? <==> forall k :: j <= k < 5 && Reached(perf, k) ==> !Accepted(RunStrategy(k, q))
    ensures var r := Cascade(perf, j, q).0;
      r.Succeeded? ==> exists w :: (j <= w < 5 && Reached(perf, w) && Accepted(RunStrategy(w, q))
        && r == Succeeded(RunStrategy(w, q).value.forecast.value, Methods[w], RunStrategy(w, q).value.confidence)
        && forall k :: j <= k < w && Reached(perf, k) ==> !Accepted(RunStrategy(k, q)))
  {
    CascadeFailsIff(perf, j, q);
    CascadeWinner(perf, j, q);
  }

  /** Counting an attempt leaves every method's counter present or absent as before. */
  lemma BumpKeepsReached(perf: seq<MethodCounter>, k: nat)
    requires k < |perf|
    ensures forall m :: 0 <= m < 5 ==> (Reached(BumpAttempts(perf, k), m) <==> Reached(perf, m))
  {
    BumpKeepsNames(perf, k);
  }

  lemma {:induction false} CascadeFailsIff(perf: seq<MethodCounter>, j: nat, q: Request)
    requires j <= 5 && Positive(q.data)
    ensures Cascade(perf, j, q).0.Failed? <==> forall k :: j <= k < 5 && Reached(perf, k) ==> !Accepted(RunStrategy(k, q))
    decreases 5 - j
  {
    if j < 5 {
      match Find(Names(perf), Methods[j])
      case None =>
        CascadeFailsIff(perf, j + 1, q);
      case Some(k) =>
        BumpKeepsReached(perf, k);
        if !Accepted(RunStrategy(j, q)) {
          CascadeFailsIff(BumpAttempts(perf, k), j + 1, q);
        }
    }
  }

  lemma {:induction false} CascadeWinner(perf: seq<MethodCounter>, j: nat, q: Request)
    requires j <= 5 && Positive(q.data)
    ensures var r := Cascade(perf, j, q).0;
      r.Succeeded? ==> exists w :: (j <= w < 5 && Reached(perf, w) && Accepted(RunStrategy(w, q))
        && r == Succeeded(RunStrategy(w, q).value.forecast.value, Methods[w], RunStrategy(w, q).value.confidence)
        && forall k :: j <= k < w && Reached(perf, k) ==> !Accepted(RunStrategy(k, q)))
    decreases 5 - j
  {
    if j < 5 {
      match Find(Names(perf), Methods[j])
      case None =>
        CascadeWinner(perf, j + 1, q);
      case Some(k) =>
        BumpKeepsReached(perf, k);
        if !Accepted(RunStrategy(j, q)) {
          CascadeWinner(BumpAttempts(perf, k), j + 1, q);
        }
    }
  }

  /** The cascade has tried the method `name` when it is in the cascade order at or after `j` and not after the winner. */
  predicate Tried(j: nat, r: Outcome, name: string) {
    j <= Rank(name) < 5 && (r.Failed? || Rank(name) <= Rank(r.methodName))
  }

  /** The winner, if any, is a cascade method at or after position `j`; the counter list keeps its length. */
  lemma {:induction false} CascadeWinnerRank(perf: seq<MethodCounter>, j: nat, q: Request)
    requires j <= 5 && Positive(q.data)
    ensures |Cascade(perf, j, q).1| == |perf|
    ensures Cascade(perf, j, q).0.Succeeded? ==> j <= Rank(Cascade(perf, j, q).0.methodName) < 5
    decreases 5 - j
  {
    if j < 5 {
      match Find(Names(perf), Methods[j])
      case None => CascadeWinnerRank(perf, j + 1, q);
      case Some(k) =>
        CascadeWinnerRank(BumpAttempts(perf, k), j + 1, q);
        assert Rank(Methods[j]) == j;
    }
  }

  /** One counter after the cascade: one more attempt if its method was tried, one more success if it won. */
  predicate CountedOnce(before: MethodCounter, after: MethodCounter, j: nat, r: Outcome) {
    after.name == before.name
    && after.totalAttempts == before.totalAttempts + (if Tried(j, r, before.name) then 1 else 0)
    && after.successCount == before.successCount + (if r.Succeeded? && r.methodName == before.name then 1 else 0)
  }

  /**
   * Exact counter deltas: every method the cascade reached gains one attempt,
   * the winner alone gains one success, and every other counter is unchanged.
   */
  lemma {:induction false} CascadeCounterDeltas(perf: seq<MethodCounter>, j: nat, q: Request)
    requires j <= 5 && Positive(q.data) && Distinct(Names(perf))
    ensures |Cascade(perf, j, q).1| == |perf|
    ensures forall i :: 0 <= i < |perf| ==> CountedOnce(perf[i], Cascade(perf, j, q).1[i], j, Cascade(perf, j, q).0)
    decreases 5 - j
  {
    CascadeWinnerRank(perf, j, q);
    if j < 5 {
      var (r, after) := Cascade(perf, j, q);
      match Find(Names(perf), Methods[j])
      case None =>
        CascadeCounterDeltas(perf, j + 1, q);
        SkippedCounts(perf, after, j, r);
      case Some(k) =>
        var counted := BumpAttempts(perf, k);
        BumpKeepsNames(perf, k);
        if Accepted(RunStrategy(j, q)) {
          WinnerCounts(perf, k, j, r);
        } else {
          CascadeCounterDeltas(counted, j + 1, q);
          CascadeWinnerRank(counted, j + 1, q);
          MissedCounts(perf, k, after, j, r);
        }
    }
  }

  /** A method without a counter is skipped: starting one position later counts the same. */
  lemma SkippedCounts(perf: seq<MethodCounter>, after: seq<MethodCounter>, j: nat, r: Outcome)
    requires j < 5 && Methods[j] !in Names(perf) && |after| == |perf|
    requires forall i :: 0 <= i < |perf| ==> CountedOnce(perf[i], after[i], j + 1, r)
    ensures forall i :: 0 <= i < |perf| ==> CountedOnce(perf[i], after[i], j, r)
  {
    forall i | 0 <= i < |perf| ensures CountedOnce(perf[i], after[i], j, r) {
      assert Names(perf)[i] == perf[i].name;
      assert Rank(perf[i].name) != j;
    }
  }

  /** The method at `j` answers: its counter gains an attempt and a success, no other counter changes. */
  lemma WinnerCounts(perf: seq<MethodCounter>, k: nat, j: nat, r: Outcome)
    requires j < 5 && Distinct(Names(perf)) && k < |perf| && Names(perf)[k] == Methods[j]
    requires r.Succeeded? && r.methodName == Methods[j]
    ensures forall i :: 0 <= i < |perf| ==>
      CountedOnce(perf[i], BumpSuccesses(BumpAttempts(perf, k), k)[i], j, r)
  {
    assert Rank(r.methodName) == j;
    forall i | 0 <= i < |perf| ensures CountedOnce(perf[i], BumpSuccesses(BumpAttempts(perf, k), k)[i], j, r) {
      assert Names(perf)[i] == perf[i].name;
      if i != k {
        assert Names(perf)[i] != Names(perf)[k];
      }
    }
  }

  /** The method at `j` is tried and does not answer: one more attempt on its counter, then the rest of the cascade. */
  lemma MissedCounts(perf: seq<MethodCounter>, k: nat, after: seq<MethodCounter>, j: nat, r: Outcome)
    requires j < 5 && Distinct(Names(perf)) && k < |perf| && Names(perf)[k] == Methods[j]
    requires |after| == |perf|
    requires r.Succeeded? ==> j + 1 <= Rank(r.methodName) < 5
    requires forall i :: 0 <= i < |perf| ==> CountedOnce(BumpAttempts(perf, k)[i], after[i], j + 1, r)
    ensures forall i :: 0 <= i < |perf| ==> CountedOnce(perf[i], after[i], j, r)
  {
    var counted := BumpAttempts(perf, k);
    forall i | 0 <= i < |perf| ensures CountedOnce(perf[i], after[i], j, r) {
      assert CountedOnce(counted[i], after[i], j + 1, r);
      assert Names(perf)[i] == perf[i].name;
      if i != k {
        assert Names(perf)[i] != Names(perf)[k];
        assert Rank(perf[i].name) != j;
      } else {
        assert Rank(perf[k].name) == j;
      }
    }
  }

  /** A method is never counted as a success more often than as an attempt. */
  lemma CascadeKeepsSound(perf: seq<MethodCounter>, q: Request)
    requires Positive(q.data) && Distinct(Names(perf)) && Sound(perf)
    ensures Sound(Cascade(perf, 0, q).1)
  {
    CascadeCounterDeltas(perf, 0, q);
    CascadeWinnerRank(perf, 0, q);
    var (r, after) := Cascade(perf, 0, q);
    forall i | 0 <= i < |after|
      ensures after[i].successCount <= after[i].totalAttempts
    {
      assert CountedOnce(perf[i], after[i], 0, r);
      if r.Succeeded? && r.methodName == perf[i].name {
        assert Tried(0, r, perf[i].name);
      }
    }
  }

  /**
   * Until the counters are reset, `exponential_smoothing`, `seasonal_decompose`
   * and `trend_forecast` have no counter: the cascade is ARIMA, else the moving
   * average (which always answers), and the other three strategies are never run.
   */
  lemma CascadeBeforeReset(perf: seq<MethodCounter>, q: Request)
    requires Positive(q.data) && Names(perf) == Names(InitialCounters)
    ensures Cascade(perf, 0, q).0 ==
      if Accepted(RunStrategy(0, q)) then
        Succeeded(RunStrategy(0, q).value.forecast.value, ArimaName, RunStrategy(0, q).value.confidence)
      else
        var ma := MovingAverageForecast(q.data, q.periods, q.num);
        Succeeded(ma.forecast.value, MovingAverageName, ma.confidence)
  {
    var names := Names(InitialCounters);
    assert names == ["arima", "exponential", "moving_average"];
    assert Find(names, ArimaName) == Some(0);
    assert Find(names, SmoothingName) == None;
    assert Find(names, SeasonalName) == None;
    assert Find(names, MovingAverageName) == Some(2);
    assert Find(names, TrendName) == None;
    BumpKeepsNames(perf, 0);
    var p1 := BumpAttempts(perf, 0);
    BumpKeepsNames(p1, 2);
    var p2 := BumpAttempts(p1, 2);
    if !Accepted(RunStrategy(0, q)) {
      assert Cascade(perf, 0, q) == Cascade(p1, 1, q);
      assert Cascade(p1, 1, q) == Cascade(p1, 3, q);
    }
  }

  /** Whenever the moving average has a counter the cascade cannot fail, since that strategy always answers. */
  lemma CascadeNeverFailsWithMovingAverage(perf: seq<MethodCounter>, q: Request)
    requires Positive(q.data) && MovingAverageName in Names(perf)
    ensures Cascade(perf, 0, q).0.Succeeded?
  {
    CascadeWinnerIsFirstAccepted(perf, 0, q);
    assert Reached(perf, 3) && Accepted(RunStrategy(3, q));
  }

  // ---------------------------------------------------------------- history, fallback, state

  /** One `forecast_history` record; the time stamp is supplied by the caller. */
  datatype HistoryEntry = HistoryEntry(timestamp: int, forecast: real, methodName: string, confidence: real)

  /** `s[-k:]`: the last `min(k, |s|)` elements. */
  function KeepLast<T>(s: seq<T>, k: nat): (r: seq<T>)
    ensures |r| == if |s| <= k then |s| else k
    ensures r == s[|s| - |r|..]
  {
    if |s| <= k then s else s[|s| - k..]
  }

  /** Trimming after each append is the same as trimming once at the end. */
  lemma KeepLastAppend<T>(s: seq<T>, e: T, k: nat)
    requires k > 0
    ensures KeepLast(KeepLast(s, k) + [e], k) == KeepLast(s + [e], k)
  {
    KeepLastSpliceAt(s, [e], k);
  }

  /** Trimming `a` to its last `k` before appending `b` does not change the last `k` of the whole. */
  lemma KeepLastSpliceAt<T>(a: seq<T>, b: seq<T>, k: nat)
    ensures KeepLast(KeepLast(a, k) + b, k) == KeepLast(a + b, k)
  {
    if |a| > k {
      KeepLastSpliceLong(a, b, k);
    }
  }

  lemma KeepLastSpliceLong<T>(a: seq<T>, b: seq<T>, k: nat)
    requires |a| > k
    ensures KeepLast(a[|a| - k..] + b, k) == KeepLast(a + b, k)
  {
    var a' := a[|a| - k..];
    var x := (a' + b)[|b|..];
    var y := (a + b)[|a| + |b| - k..];
    assert |x| == k == |y|;
    forall i | 0 <= i < k
      ensures x[i] == y[i]
    {
      if |b| + i < k {
        assert x[i] == a'[|b| + i] == a[|a| - k + |b| + i];
      } else {
        assert x[i] == b[|b| + i - k];
      }
    }
    assert KeepLast(a' + b, k) == x;
  }

  /** The engine's mutable state. */
  datatype EngineState = EngineState(lastForecast: Option<real>, history: seq<HistoryEntry>, performance: seq<MethodCounter>)

  /** The invariant every public operation keeps. */
  predicate Consistent(s: EngineState) {
    Sound(s.performance) && Distinct(Names(s.performance))
    && |s.history| <= 100
    && (s.history != [] ==> s.lastForecast.Some?)
    && (s.lastForecast.Some? ==> s.lastForecast.value >= 0.0)
    && forall k :: 0 <= k < |s.history| ==> s.history[k].forecast >= 0.0
  }

  /** The state after construction. */
  const InitialState: EngineState := EngineState(None, [], InitialCounters)

  lemma InitialStateConsistent()
    ensures Consistent(InitialState)
  {
  }

  /** `_store_forecast_result`: remember the value and append a record, keeping the last 100. */
  function Store(s: EngineState, e: HistoryEntry): (t: EngineState)
    ensures t.lastForecast == Some(e.forecast) && t.performance == s.performance
    ensures |t.history| <= 100 && |t.history| > 0 && t.history[|t.history| - 1] == e
  {
    s.(lastForecast := Some(e.forecast), history := KeepLast(s.history + [e], 100))
  }

  /** Storing a run of results one by one. */
  function StoreAll(s: EngineState, es: seq<HistoryEntry>): EngineState
    decreases |es|
  {
    if es == [] then s else StoreAll(Store(s, es[0]), es[1..])
  }

  /** However many results are stored, the history is the most recent 100 of all of them, in insertion order. */
  lemma {:induction false} StoreAllKeepsMostRecent(s: EngineState, es: seq<HistoryEntry>)
    requires |s.history| <= 100
    ensures StoreAll(s, es).history == KeepLast(s.history + es, 100)
    decreases |es|
  {
    if es != [] {
      var s1 := Store(s, es[0]);
      StoreAllKeepsMostRecent(s1, es[1..]);
      KeepLastSpliceAt(s.history + [es[0]], es[1..], 100);
      assert s.history + [es[0]] + es[1..] == s.history + es;
    }
  }

  function Forecasts(h: seq<HistoryEntry>): (fs: seq<real>)
    ensures |fs| == |h| && forall k :: 0 <= k < |h| ==> fs[k] == h[k].forecast
  {
    seq(|h|, k requires 0 <= k < |h| => h[k].forecast)
  }

  /** `_get_fallback_forecast`: the last forecast, else the mean of the last five stored, else 100. */
  function Fallback(s: EngineState): (r: real)
    ensures s.lastForecast.Some? ==> r == s.lastForecast.value
    ensures s.lastForecast.None? && s.history == [] ==> r == 100.0
  {
    if s.lastForecast.Some? then s.lastForecast.value
    else if s.history != [] then Mean(Forecasts(KeepLast(s.history, 5)))
    else 100.0
  }

  /** Under the invariant the history-mean branch is dead: the fallback is the last forecast or the 100.0 baseline, never negative. */
  lemma FallbackSkipsHistoryMean(s: EngineState)
    requires Consistent(s)
    ensures Fallback(s) == (if s.lastForecast.Some? then s.lastForecast.value else 100.0)
    ensures Fallback(s) >= 0.0
  {
  }

  /** `forecast`: validate, run the cascade, then store `max(0, round(f, 2))` or fall back. */
  function ForecastStep(s: EngineState, frame: Option<OrdersFrame>, periods: int, confidenceLevel: real,
                        order: ArimaOrder, num: Numerics, now: int): (real, EngineState)
  {
    var (data, report) := PrepareAndValidate(frame, num);
    if !report.isValid then (Fallback(s), s)
    else
      var (outcome, perf) := Cascade(s.performance, 0, Request(data, periods, confidenceLevel, order, num));
      var counted := s.(performance := perf);
      match outcome
      case Failed => (Fallback(counted), counted)
      case Succeeded(f, m, c) =>
        var value := Larger(0.0, num.round2(f));
        (value, Store(counted, HistoryEntry(now, value, m, c)))
  }

  /** A forecast never returns a negative value and keeps the invariant. */
  lemma ForecastStepKeepsConsistent(s: EngineState, frame: Option<OrdersFrame>, periods: int, confidenceLevel: real,
                              order: ArimaOrder, num: Numerics, now: int)
    requires Consistent(s)
    ensures Consistent(ForecastStep(s, frame, periods, confidenceLevel, order, num, now).1)
    ensures ForecastStep(s, frame, periods, confidenceLevel, order, num, now).0 >= 0.0
  {
    var (data, report) := PrepareAndValidate(frame, num);
    FallbackSkipsHistoryMean(s);
    if report.isValid {
      var q := Request(data, periods, confidenceLevel, order, num);
      var (outcome, perf) := Cascade(s.performance, 0, q);
      CascadeKeepsSound(s.performance, q);
      CascadeKeepsNames(s.performance, 0, q);
      var counted := s.(performance := perf);
      assert Consistent(counted);
      match outcome
      case Failed =>
        FallbackSkipsHistoryMean(counted);
      case Succeeded(f, m, c) =>
        StoreKeepsConsistent(counted, HistoryEntry(now, Larger(0.0, num.round2(f)), m, c));
    }
  }

  /** Storing a non-negative forecast keeps the invariant. */
  lemma StoreKeepsConsistent(s: EngineState, e: HistoryEntry)
    requires Consistent(s) && e.forecast >= 0.0
    ensures Consistent(Store(s, e))
  {
    var h := s.history + [e];
    var t := Store(s, e).history;
    forall k | 0 <= k < |t|
      ensures t[k].forecast >= 0.0
    {
      assert t[k] == h[|h| - |t| + k];
    }
  }

  /** A successful forecast becomes `last_forecast` and the newest history record; a rejected input changes nothing. */
  lemma ForecastStepRecords(s: EngineState, frame: Option<OrdersFrame>, periods: int, confidenceLevel: real,
                            order: ArimaOrder, num: Numerics, now: int)
    ensures var (value, t) := ForecastStep(s, frame, periods, confidenceLevel, order, num, now);
      var (data, report) := PrepareAndValidate(frame, num);
      (!report.isValid ==> t == s && value == Fallback(s))
      && (report.isValid && Cascade(s.performance, 0, Request(data, periods, confidenceLevel, order, num)).0.Succeeded? ==>
            t.lastForecast == Some(value) && t.history[|t.history| - 1].forecast == value
            && t.history == KeepLast(s.history + [t.history[|t.history| - 1]], 100))
  {
  }

  /** `reset_performance_tracking`: all five counters at zero, an empty history, `last_forecast` kept. */
  function Reset(s: EngineState): (t: EngineState)
    ensures Names(t.performance) == Methods
    ensures forall i :: 0 <= i < |t.performance| ==> t.performance[i].successCount == 0 && t.performance[i].totalAttempts == 0
    ensures t.history == [] && t.lastForecast == s.lastForecast
  {
    EngineState(s.lastForecast, [], ResetCounters)
  }

  /** The reset keeps the invariant, and afterwards every strategy of the cascade has a counter. */
  lemma ResetKeepsConsistent(s: EngineState)
    requires Consistent(s)
    ensures Consistent(Reset(s))
    ensures forall j :: 0 <= j < 5 ==> Reached(Reset(s).performance, j)
  {
    assert Names(ResetCounters) == Methods;
    forall j | 0 <= j < 5 ensures Reached(Reset(s).performance, j) {
      assert Methods[j] in Methods;
    }
  }

  /** After the reset the performance report starts afresh: no forecast, no method line, a zero rate. */
  lemma ResetReportIsEmpty(s: EngineState, num: Numerics)
    ensures TotalAttempts(Reset(s).performance) == 0
    ensures ModelPerformanceReport(Reset(s), num) == PerformanceReport(0, [], [], s.lastForecast, 0.0)
  {
    NoAttemptsRecorded(ResetCounters);
    NoAttemptsListed(ResetCounters, num);
  }

  /** Counters that were never attempted give no report line. */
  lemma {:induction false} NoAttemptsListed(perf: seq<MethodCounter>, num: Numerics)
    requires forall i :: 0 <= i < |perf| ==> perf[i].totalAttempts == 0
    ensures MethodsPerformance(perf, num) == []
    decreases |perf|
  {
    if perf != [] {
      NoAttemptsListed(perf[..|perf| - 1], num);
    }
  }

  /** Counters that were never attempted add up to no attempt. */
  lemma {:induction false} NoAttemptsRecorded(perf: seq<MethodCounter>)
    requires forall i :: 0 <= i < |perf| ==> perf[i].totalAttempts == 0
    ensures TotalAttempts(perf) == 0
    decreases |perf|
  {
    if perf != [] {
      NoAttemptsRecorded(perf[..|perf| - 1]);
    }
  }

  // ---------------------------------------------------------------- reports

  function TotalAttempts(perf: seq<MethodCounter>): nat
    decreases |perf|
  {
    if perf == [] then 0 else TotalAttempts(perf[..|perf| - 1]) + perf[|perf| - 1].totalAttempts
  }

  function TotalSuccesses(perf: seq<MethodCounter>): nat
    decreases |perf|
  {
    if perf == [] then 0 else TotalSuccesses(perf[..|perf| - 1]) + perf[|perf| - 1].successCount
  }

  lemma {:induction false} TotalsSound(perf: seq<MethodCounter>)
    requires Sound(perf)
    ensures TotalSuccesses(perf) <= TotalAttempts(perf)
    decreases |perf|
  {
    if perf != [] {
      TotalsSound(perf[..|perf| - 1]);
    }
  }

  /** A ratio of a count to a larger positive count lies in [0, 1]. */
  lemma RatioInUnit(a: nat, b: nat)
    requires 0 < b && a <= b
    ensures 0.0 <= a as real / b as real <= 1.0
  {
    DivideBounds(a as real, b as real, 0.0, 1.0);
  }

  /** Overall success rate of the cascade: successes over attempts, or 0.7 before any attempt. */
  function PerformanceScore(perf: seq<MethodCounter>): real {
    if TotalAttempts(perf) > 0 then TotalSuccesses(perf) as real / TotalAttempts(perf) as real else 0.7
  }

  datatype ConfidenceLevel = High | Medium | Low | VeryLow
  datatype QualityLabel = Good | Fair | Poor

  /** Advice in a confidence report. */
  datatype Advice =
    | ImproveDataQuality
    | CollectMoreDataPoints
    | CollectMoreData(current: nat)
    | InvestigateVariability
    | ConsiderAlternativeMethods

  /**
   * `get_forecast_confidence`: a fixed rejection for unusable data, else the
   * weighted assessment. The numbers of an assessment are reported rounded to
   * three decimals; the level, the quality label and the advice are decided
   * on the unrounded values.
   */
  datatype ConfidenceReport =
    | Rejected(level: ConfidenceLevel, score: real, dataQuality: QualityLabel, issues: seq<Issue>, recommendations: seq<Advice>)
    | Assessed(level: ConfidenceLevel, score: real, dataQuality: QualityLabel, dataPoints: nat, cv: real,
               modelPerformance: real, issues: seq<Issue>, recommendations: seq<Advice>,
               quantityScore: real, qualityScore: real)

  function QuantityScore(n: nat): (r: real)
    ensures 0.3 <= r <= 1.0
  {
    if n >= 30 then 1.0 else if n >= 14 then 0.8 else if n >= 7 then 0.6 else 0.3
  }

  function QualityScore(cv: real): (r: real)
    ensures 0.3 <= r <= 1.0
  {
    if cv < 0.2 then 1.0 else if cv < 0.5 then 0.8 else if cv < 1.0 then 0.6 else 0.3
  }

  function LevelOf(score: real): (l: ConfidenceLevel)
    ensures l == High <==> score >= 0.8
    ensures l == Medium <==> 0.6 <= score < 0.8
    ensures l == Low <==> 0.4 <= score < 0.6
    ensures l == VeryLow <==> score < 0.4
  {
    if score >= 0.8 then High else if score >= 0.6 then Medium else if score >= 0.4 then Low else VeryLow
  }

  function QualityLabelOf(qualityScore: real): QualityLabel {
    if qualityScore >= 0.7 then Good else if qualityScore >= 0.5 then Fair else Poor
  }

  function ConfidenceAdvice(n: nat, cv: real, performance: real): seq<Advice> {
    (if n < 30 then [CollectMoreData(n)] else [])
      + (if cv > 0.5 then [InvestigateVariability] else [])
      + (if performance < 0.7 then [ConsiderAlternativeMethods] else [])
  }

  /** The unrounded confidence: 30% data quantity, 40% data quality, 30% model performance. */
  function WeightedConfidence(quantity: real, quality: real, performance: real): real {
    quantity * 0.3 + quality * 0.4 + performance * 0.3
  }

  /** The unrounded confidence of a validated series under the current counters. */
  function AssessedConfidence(s: EngineState, data: seq<real>, num: Numerics): real
    requires Positive(data)
  {
    WeightedConfidence(QuantityScore(|data|), QualityScore(CoefficientOfVariation(data, num)), PerformanceScore(s.performance))
  }

  function ForecastConfidence(s: EngineState, frame: Option<OrdersFrame>, num: Numerics): (r: ConfidenceReport)
    ensures !PrepareAndValidate(frame, num).1.isValid ==>
      r == Rejected(VeryLow, 0.1, Poor, PrepareAndValidate(frame, num).1.issues, [ImproveDataQuality, CollectMoreDataPoints])
    ensures PrepareAndValidate(frame, num).1.isValid ==>
      var data := PrepareAndValidate(frame, num).0;
      var overall := AssessedConfidence(s, data, num);
      r.Assessed? && r.dataPoints == |data|
      && r.level == LevelOf(overall) && r.score == num.round3(overall)
      && r.modelPerformance == num.round3(PerformanceScore(s.performance))
  {
    var (data, report) := PrepareAndValidate(frame, num);
    if !report.isValid then
      Rejected(VeryLow, 0.1, Poor, report.issues, [ImproveDataQuality, CollectMoreDataPoints])
    else
      var n := |data|;
      var quantity := QuantityScore(n);
      var cv := CoefficientOfVariation(data, num);
      var quality := QualityScore(cv);
      var performance := PerformanceScore(s.performance);
      var overall := WeightedConfidence(quantity, quality, performance);
      Assessed(LevelOf(overall), num.round3(overall), QualityLabelOf(quality), n, num.round3(cv), num.round3(performance),
               report.issues, ConfidenceAdvice(n, cv, performance), num.round3(quantity), num.round3(quality))
  }

  /**
   * With sound counters the confidence score lies in [0.1, 1]; an assessed
   * one in [0.21, 1], and rounding keeps it there.
   */
  lemma ConfidenceScoreBounds(s: EngineState, frame: Option<OrdersFrame>, num: Numerics)
    requires Sound(s.performance) && RoundsToThousandths(num)
    ensures 0.1 <= ForecastConfidence(s, frame, num).score <= 1.0
    ensures ForecastConfidence(s, frame, num).Assessed? ==> ForecastConfidence(s, frame, num).score >= 0.21
  {
    var perf := s.performance;
    if TotalAttempts(perf) > 0 {
      TotalsSound(perf);
      RatioInUnit(TotalSuccesses(perf), TotalAttempts(perf));
    }
    assert 0.0 <= PerformanceScore(perf) <= 1.0;
    var (data, report) := PrepareAndValidate(frame, num);
    if report.isValid {
      RoundBetween(num, AssessedConfidence(s, data, num), 210, 1000);
    }
  }

  /** Per-method line of the performance report. */
  datatype MethodStats = MethodStats(name: string, successRate: real, totalAttempts: nat, successfulForecasts: nat)

  datatype PerformanceReport = PerformanceReport(
    totalForecasts: nat, methods: seq<MethodStats>, recentForecasts: seq<HistoryEntry>,
    lastForecast: Option<real>, overallSuccessRate: real)

  /** The report line of an attempted method: its counts and its success rate to three decimals. */
  function StatsOf(c: MethodCounter, num: Numerics): MethodStats
    requires c.totalAttempts > 0
  {
    MethodStats(c.name, num.round3(c.successCount as real / c.totalAttempts as real), c.totalAttempts, c.successCount)
  }

  /** `line` is the line of an attempted counter of `perf`. */
  predicate LineFromCounter(perf: seq<MethodCounter>, line: MethodStats, num: Numerics) {
    exists k :: 0 <= k < |perf| && perf[k].totalAttempts > 0 && line == StatsOf(perf[k], num)
  }

  /** Every line of `ms` is the line of an attempted counter of `perf`. */
  predicate LinesFromCounters(perf: seq<MethodCounter>, ms: seq<MethodStats>, num: Numerics) {
    forall i :: 0 <= i < |ms| ==> LineFromCounter(perf, ms[i], num)
  }

  /** Every attempted counter of `perf` has its line in `ms`. */
  predicate CountersListed(perf: seq<MethodCounter>, ms: seq<MethodStats>, num: Numerics) {
    forall k :: 0 <= k < |perf| && perf[k].totalAttempts > 0 ==> StatsOf(perf[k], num) in ms
  }

  /**
   * The methods that were attempted at least once, in dictionary order: every
   * listed line is the line of an attempted counter, and every attempted
   * counter has its line.
   */
  function MethodsPerformance(perf: seq<MethodCounter>, num: Numerics): (ms: seq<MethodStats>)
    ensures |ms| <= |perf|
    ensures LinesFromCounters(perf, ms, num) && CountersListed(perf, ms, num)
    decreases |perf|
  {
    if perf == [] then []
    else
      var init := perf[..|perf| - 1];
      var c := perf[|perf| - 1];
      var front := MethodsPerformance(init, num);
      assert perf == init + [c];
      ListingExtends(init, c, front, num);
      if c.totalAttempts > 0 then front + [StatsOf(c, num)] else front
  }

  /** Appending one counter keeps the listing exact: its line is added when it was attempted. */
  lemma ListingExtends(init: seq<MethodCounter>, c: MethodCounter, front: seq<MethodStats>, num: Numerics)
    requires LinesFromCounters(init, front, num) && CountersListed(init, front, num)
    ensures var ms := if c.totalAttempts > 0 then front + [StatsOf(c, num)] else front;
      LinesFromCounters(init + [c], ms, num) && CountersListed(init + [c], ms, num)
  {
    var perf := init + [c];
    var ms := if c.totalAttempts > 0 then front + [StatsOf(c, num)] else front;
    forall i | 0 <= i < |ms| ensures LineFromCounter(perf, ms[i], num) {
      if i < |front| {
        assert LineFromCounter(init, front[i], num);
        var k :| 0 <= k < |init| && init[k].totalAttempts > 0 && front[i] == StatsOf(init[k], num);
        assert perf[k] == init[k];
      } else {
        assert perf[|init|] == c;
      }
    }
    forall k | 0 <= k < |perf| && perf[k].totalAttempts > 0 ensures StatsOf(perf[k], num) in ms {
      if k < |init| {
        assert perf[k] == init[k];
        assert StatsOf(init[k], num) in front;
      }
    }
    assert CountersListed(perf, ms, num);
  }

  /** With sound counters every listed success rate lies in [0, 1]. */
  lemma MethodRatesInUnit(perf: seq<MethodCounter>, num: Numerics)
    requires Sound(perf) && RoundsToThousandths(num)
    ensures forall i :: 0 <= i < |MethodsPerformance(perf, num)| ==> 0.0 <= MethodsPerformance(perf, num)[i].successRate <= 1.0
  {
    var ms := MethodsPerformance(perf, num);
    forall i | 0 <= i < |ms| ensures 0.0 <= ms[i].successRate <= 1.0 {
      var k :| 0 <= k < |perf| && perf[k].totalAttempts > 0 && ms[i] == StatsOf(perf[k], num);
      StatsRateInUnit(perf[k], num);
    }
  }

  /** A sound counter's reported success rate lies in [0, 1]. */
  lemma StatsRateInUnit(c: MethodCounter, num: Numerics)
    requires 0 < c.totalAttempts && c.successCount <= c.totalAttempts && RoundsToThousandths(num)
    ensures 0.0 <= StatsOf(c, num).successRate <= 1.0
  {
    RatioInUnit(c.successCount, c.totalAttempts);
    RoundBetween(num, c.successCount as real / c.totalAttempts as real, 0, 1000);
  }

  /** `get_model_performance_report`. */
  function ModelPerformanceReport(s: EngineState, num: Numerics): (r: PerformanceReport)
    ensures r.totalForecasts == |s.history| && r.lastForecast == s.lastForecast
    ensures r.methods == MethodsPerformance(s.performance, num)
    ensures TotalAttempts(s.performance) > 0 ==>
      r.overallSuccessRate == num.round3(TotalSuccesses(s.performance) as real / TotalAttempts(s.performance) as real)
    ensures |r.recentForecasts| <= 10 && |r.recentForecasts| <= |s.history|
    ensures r.recentForecasts == s.history[|s.history| - |r.recentForecasts|..]
    ensures |s.history| >= 10 ==> |r.recentForecasts| == 10
  {
    var attempts := TotalAttempts(s.performance);
    PerformanceReport(
      |s.history|,
      MethodsPerformance(s.performance, num),
      KeepLast(s.history, 10),
      s.lastForecast,
      if attempts > 0 then num.round3(TotalSuccesses(s.performance) as real / attempts as real) else 0.0)
  }

  /** With sound counters the overall success rate lies in [0, 1], and is 0 before any attempt. */
  lemma OverallRateInUnit(s: EngineState, num: Numerics)
    requires Sound(s.performance) && RoundsToThousandths(num)
    ensures 0.0 <= ModelPerformanceReport(s, num).overallSuccessRate <= 1.0
    ensures TotalAttempts(s.performance) == 0 ==> ModelPerformanceReport(s, num).overallSuccessRate == 0.0
  {
    if TotalAttempts(s.performance) > 0 {
      TotalsSound(s.performance);
      RatioInUnit(TotalSuccesses(s.performance), TotalAttempts(s.performance));
      RoundBetween(num, TotalSuccesses(s.performance) as real / TotalAttempts(s.performance) as real, 0, 1000);
    }
  }

  // ---------------------------------------------------------------- the agent

  class DemandForecastAgent {
    const arimaOrder: ArimaOrder
    var lastForecast: Option<real>
    var history: seq<HistoryEntry>
    var performance: seq<MethodCounter>

    function State(): EngineState
      reads this
    {
      EngineState(lastForecast, history, performance)
    }

    ghost predicate Valid()
      reads this
    {
      Consistent(State())
    }

    constructor(order: ArimaOrder)
      ensures arimaOrder == order && State() == InitialState && Valid()
    {
      arimaOrder := order;
      lastForecast := None;
      history := [];
      performance := InitialCounters;
    }

    /** `_hierarchical_forecast`: the cascade loop, counting attempts and successes in place. */
    method HierarchicalForecast(data: seq<real>, periods: int, confidenceLevel: real, num: Numerics) returns (outcome: Outcome)
      requires Positive(data)
      modifies this`performance
      ensures (outcome, performance) == Cascade(old(performance), 0, Request(data, periods, confidenceLevel, arimaOrder, num))
    {
      var q := Request(data, periods, confidenceLevel, arimaOrder, num);
      var i := 0;
      while i < 5
        invariant 0 <= i <= 5
        invariant Cascade(performance, i, q) == Cascade(old(performance), 0, q)
      {
        var key := Find(Names(performance), Methods[i]);
        if key.Some? {
          var k := key.value;
          performance := BumpAttempts(performance, k);
          var a := RunStrategy(i, q);
          if Accepted(a) {
            performance := BumpSuccesses(performance, k);
            outcome := Succeeded(a.value.forecast.value, Methods[i], a.value.confidence);
            return;
          }
        }
        i := i + 1;
      }
      outcome := Failed;
    }

    /** `_store_forecast_result`. */
    method StoreForecastResult(value: real, methodName: string, confidence: real, now: int)
      modifies this`lastForecast, this`history
      ensures State() == Store(old(State()), HistoryEntry(now, value, methodName, confidence))
    {
      lastForecast := Some(value);
      history := history + [HistoryEntry(now, value, methodName, confidence)];
      if |history| > 100 {
        history := history[|history| - 100..];
      }
    }

    /** `forecast`. */
    method Forecast(frame: Option<OrdersFrame>, periods: int, confidenceLevel: real, num: Numerics, now: int) returns (value: real)
      requires Valid()
      modifies this
      ensures (value, State()) == ForecastStep(old(State()), frame, periods, confidenceLevel, arimaOrder, num, now)
      ensures Valid() && value >= 0.0
    {
      ForecastStepKeepsConsistent(State(), frame, periods, confidenceLevel, arimaOrder, num, now);
      var (data, report) := PrepareAndValidate(frame, num);
      if !report.isValid {
        value := Fallback(State());
        return;
      }
      var outcome := HierarchicalForecast(data, periods, confidenceLevel, num);
      if outcome.Succeeded? {
        value := Larger(0.0, num.round2(outcome.forecast));
        StoreForecastResult(value, outcome.methodName, outcome.confidence, now);
      } else {
        value := Fallback(State());
      }
    }

    /** `reset_performance_tracking`. */
    method ResetPerformanceTracking()
      requires Valid()
      modifies this`performance, this`history
      ensures State() == Reset(old(State())) && Valid()
      ensures lastForecast == old(lastForecast) && history == []
      ensures forall i :: 0 <= i < |performance| ==> performance[i].successCount == 0 && performance[i].totalAttempts == 0
    {
      ResetKeepsConsistent(State());
      performance := ResetCounters;
      history := [];
    }
  }
}
