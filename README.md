# A verified model of the supply-chain optimizer's agents

This project models the deterministic core of the AI Multi-Agent Supply Chain
Optimizer in Dafny and proves properties of it. That core has several parts:

- the demand-forecast engine;
- the route store;
- the vendor ranking;
- the weather-risk scoring;
- the route fallbacks;
- the orchestrator's bookkeeping;
- the configuration tables;
- the real-time alert monitor.

Pandas, statsmodels, the web services, the clock and the random generator are
not modelled. Their results arrive as parameters.

One module per source file:

| module | file | models |
|---|---|---|
| `Wrappers` | wrappers.dfy | `Option` and `Result` |
| `Text` | text.dfy | Python string operations: `lower`, `strip`, `in`, `split`, `int`, `str` |
| `Stats` | stats.dfy | sums, means, minima and maxima, and the least-squares line of `np.polyfit(x, y, 1)` |
| `Config` | config.dfy | scenario table, city coordinates, distance matrix and their lookups |
| `ForecastData` | forecast_data.dfy | the validator `_prepare_and_validate_data`, and the numeric black boxes as a `Numerics` record of functions |
| `ForecastStrategies` | forecast_strategies.dfy | the five forecasting strategies and the ARIMA confidence |
| `ForecastEngine` | forecast_engine.dfy | class `DemandForecastAgent`: the cascade with its counters, the bounded history, the fallback, the reports and the reset |
| `VectorDb` | vector_db.dfy | class `RouteVectorDB` |
| `CostAnalyzer` | cost_analyzer.dfy | vendor validation, efficiency and composite scores, feasibility, ranking, the sustainability report |
| `RiskMonitor` | risk_monitor.dfy | current-weather scoring, the seasonal and emergency fallbacks, recommendations, the forecast risk |
| `RouteOptimizer` | route_optimizer.dfy | duration formatter and parser, fallback and emergency routes, delivery score |
| `Orchestration` | orchestrator.dfy | class `Orchestrator`: execution log, fallback wrapper, scenario adjustments, cost fallbacks, health and confidence |
| `AlertSystem` | alert_system.dfy | class `RealTimeMonitor`: the six checks and their accumulation; the dashboard's display order |

**The two forecast-engine copies.** `agents/demand_forecast_agent.py` and
`backend/agents/demand_forecast_agent.py` are identical. One model covers both.
The table cites the first copy for the engine and the second for the
strategies and reports.

**Standard deviation.** The coefficient of variation uses pandas' default
sample standard deviation (`ddof=1`). The standard deviation is an abstract
function of the `Numerics` record, so no formula is fixed.

**Quirks the model reproduces:**

- The constructor's counters are named `arima`, `exponential` and
  `moving_average`. So until `reset_performance_tracking`, the counter
  increment raises `KeyError` for three of the five cascade methods, and those
  methods are skipped without being run.
- Exponential-smoothing configurations 2 and 3 have no `seasonal_periods` key,
  so they always raise.
- The history-mean fallback is unreachable.
- `"partly cloudy"` scores as a medium-risk condition.
- The confidence report's level is decided on the unrounded score, but the
  score is reported rounded to three decimals. So a reported score of 0.8 can
  come with the level Medium.
- The seasonal weather estimate never reports High.
- A capacity alert fires for forecasts of 1081 to 1199, although they fit the
  capacity of 1200. Its shortage is then negative, and up to 1100 it asks for
  −1 extra vehicles.

## Model

| member | source | states |
|---|---|---|
| Config.GetScenarioConfig | backend/utils/config.py:109-112 | A known scenario gives its entry. Any other name gives multipliers 1.0 and risk "Low" (Normal Operations). |
| Config.ScenarioMultipliersPositive | backend/utils/config.py:36-67 | Every scenario's demand multiplier is positive, and no cost multiplier is below 1. |
| Config.GetCityCoordinates | backend/utils/config.py:114-117 | Lookup is by the lower-cased, stripped name. An unknown city defaults to (23.5, 77.5). |
| Config.CityLookupIgnoresSpelling | backend/utils/config.py:114-117 | City lookup ignores case and surrounding whitespace. |
| Config.GetDistance | backend/utils/config.py:119-125 | Tries the normalised pair, then the reversed pair, then 1200 km. |
| Config.NoPairStoredTwice | backend/utils/config.py:88-107 | No pair of the shipped matrix is stored in both orders. |
| Config.GetDistanceSymmetric | backend/utils/config.py:119-125 | `get_distance(a, b) == get_distance(b, a)` for all cities. |
| ForecastData.Clean | agents/demand_forecast_agent.py:133-146 | After dropping NaN and negatives and mapping 0 to 1, every value is positive and none is added. |
| ForecastData.CleanAccounts | agents/demand_forecast_agent.py:127-146 | Every cell is kept, or dropped as missing, or dropped as negative. The counts add up to the input length. |
| ForecastData.CleanOfPositive | agents/demand_forecast_agent.py:133-146 | Cleaning leaves a positive series unchanged. |
| ForecastData.StatisticalIssues | agents/demand_forecast_agent.py:159-175 | The statistical checks add only high-variability or many-outliers issues. High variability is added exactly when the coefficient of variation exceeds 2. Many outliers is added exactly when more than 10% of the points lie outside [Q1 − 1.5·IQR, Q3 + 1.5·IQR]. |
| ForecastData.PrepareAndValidate | agents/demand_forecast_agent.py:100-183 | The cleaned data are positive and `data_points` is their count. A valid report means at least five points. |
| ForecastData.ValidIff | agents/demand_forecast_agent.py:111-154 | Invalid exactly when the frame is absent or empty, has no `orders` column, or keeps fewer than five points. |
| ForecastData.DataLossIff | agents/demand_forecast_agent.py:149-156 | The data-loss issue appears exactly when the input is valid and under 70% of the rows survive. |
| ForecastData.HighVariabilityIff | agents/demand_forecast_agent.py:159-166 | The high-variability issue appears exactly when the input is valid and its coefficient of variation exceeds 2. |
| ForecastData.ManyOutliersIff | agents/demand_forecast_agent.py:159-175 | The many-outliers issue appears exactly when the input is valid and more than 10% of its points lie outside the IQR fences. |
| ForecastStrategies.WindowSize | backend/agents/demand_forecast_agent.py:392-398 | Window is 7 from 21 points, `min(5, n//2)` from 10, else `min(3, n)`. It never exceeds n. |
| ForecastStrategies.MovingAverageForecast | backend/agents/demand_forecast_agent.py:384-434 | The moving average always gives a number, with confidence at least 0.3. |
| ForecastStrategies.MovingAverageConfidenceBounds | backend/agents/demand_forecast_agent.py:417-419 | The moving-average confidence lies in [0.3, 1]. |
| ForecastStrategies.MovingAverageOfConstant | backend/agents/demand_forecast_agent.py:400-415 | A constant series is forecast as that constant: both averages equal it and the drift is zero. |
| ForecastStrategies.RSquared | backend/agents/demand_forecast_agent.py:455-459 | R² is at most 1. It is exactly 1 when the series has spread and the line passes through every point, and 0 for a series without spread. |
| ForecastStrategies.TrendForecast | backend/agents/demand_forecast_agent.py:436-474 | The trend forecast always gives a number, with confidence in [0.2, 0.8]. |
| ForecastStrategies.TrendOfConstant | backend/agents/demand_forecast_agent.py:441-461 | A constant series is forecast flat, at the lowest confidence 0.2. |
| ForecastStrategies.ArimaConfidence | backend/agents/demand_forecast_agent.py:476-495 | The ARIMA confidence is clamped to [0.1, 0.95]. |
| ForecastStrategies.ArimaConfidenceOfPerfectFit | backend/agents/demand_forecast_agent.py:485-495 | Non-positive AIC and zero residual spread give the top confidence 0.95. |
| ForecastStrategies.ArimaCandidates | backend/agents/demand_forecast_agent.py:228-257 | The configured order with `alpha = 1 - level` comes first, then (1,1,1), (1,0,1), (2,0,1), (1,1,0) without `alpha`. |
| ForecastStrategies.FirstArimaFitIsFirst | backend/agents/demand_forecast_agent.py:251-273 | The first fitting candidate wins, and no fitting candidate means failure. |
| ForecastStrategies.ArimaPrimaryFirst | backend/agents/demand_forecast_agent.py:224-273 | ARIMA fails below 10 points. Otherwise the configured order wins whenever it fits. |
| ForecastStrategies.ResidualConfidence | backend/agents/demand_forecast_agent.py:307-310 | The residual confidence never falls below its floor. |
| ForecastStrategies.ExponentialSmoothingForecast | backend/agents/demand_forecast_agent.py:279-330 | A smoothing answer has confidence at least 0.3. |
| ForecastStrategies.SmoothingConfidence | backend/agents/demand_forecast_agent.py:295-324 | Whichever configuration fits, its confidence is at least 0.3. |
| ForecastStrategies.OnlyFirstSmoothingConfigFitted | backend/agents/demand_forecast_agent.py:286-299 | Only the first configuration is ever fitted. The other two raise on the missing `seasonal_periods` key. |
| ForecastStrategies.SeasonalPeriodIsWeekly | backend/agents/demand_forecast_agent.py:338-342 | Once 14 points are present, the decomposition period `min(7, n//2)` is 7. |
| ForecastStrategies.SeasonalDecomposeForecast | backend/agents/demand_forecast_agent.py:332-382 | No answer below 14 points. An answer is a number with confidence at least 0.4. |
| ForecastStrategies.SeasonalIndexInCycle | backend/agents/demand_forecast_agent.py:360-364 | The seasonal term is read at the forecast step's position in the weekly cycle. |
| ForecastEngine.Find | agents/demand_forecast_agent.py:200 | A counter lookup finds the first entry with the name, or reports the KeyError exactly when the name is absent. |
| ForecastEngine.Rank | agents/demand_forecast_agent.py:190-196 | A method's position in the fixed cascade order, or 5 for a name outside it. |
| ForecastEngine.CascadeKeepsNames | agents/demand_forecast_agent.py:198-214 | The cascade changes counter values, never the keys or their order. |
| ForecastEngine.CascadeWinnerIsFirstAccepted | agents/demand_forecast_agent.py:198-214 | The winner is the first reachable method whose result is not None and not NaN. No such method means failure. |
| ForecastEngine.CascadeWinnerRank | agents/demand_forecast_agent.py:190-214 | The winner is a cascade method at or after the starting position. |
| ForecastEngine.CascadeCounterDeltas | agents/demand_forecast_agent.py:200-205 | Each tried method gains one attempt, and only the winner gains one success. Untried and unknown counters are unchanged. |
| ForecastEngine.CascadeKeepsSound | agents/demand_forecast_agent.py:200-205 | `success_count <= total_attempts` is kept for every method. |
| ForecastEngine.CascadeBeforeReset | agents/demand_forecast_agent.py:44-48 | With the constructor's counters, the cascade is ARIMA, else the moving average. The other three methods are never run. |
| ForecastEngine.CascadeNeverFailsWithMovingAverage | agents/demand_forecast_agent.py:190-214 | Once the moving average has a counter, the cascade cannot fail. |
| ForecastEngine.KeepLast | agents/demand_forecast_agent.py:515-516 | `s[-k:]` has length `min(k, |s|)` and is a suffix of s. |
| ForecastEngine.KeepLastAppend | agents/demand_forecast_agent.py:507-516 | Trimming after each append equals trimming once at the end. |
| ForecastEngine.InitialStateConsistent | agents/demand_forecast_agent.py:40-48 | A new engine satisfies the invariant: sound counters, non-empty history only with a last forecast, history at most 100. |
| ForecastEngine.Store | agents/demand_forecast_agent.py:501-519 | Storing sets the last forecast and makes the entry the newest of at most 100. |
| ForecastEngine.StoreKeepsConsistent | agents/demand_forecast_agent.py:501-519 | Storing a non-negative forecast keeps the invariant: every kept record is one of the old ones or the new one. |
| ForecastEngine.StoreAllKeepsMostRecent | agents/demand_forecast_agent.py:507-516 | After any number of stores, the history is the most recent 100 entries in insertion order. |
| ForecastEngine.Fallback | agents/demand_forecast_agent.py:521-537 | The fallback is the last forecast if set, and 100.0 with no history. |
| ForecastEngine.FallbackSkipsHistoryMean | agents/demand_forecast_agent.py:521-537 | Under the invariant the history-mean branch is dead. The fallback is never negative. |
| ForecastEngine.ForecastStepKeepsConsistent | agents/demand_forecast_agent.py:65-98 | A forecast is never negative and keeps the invariant. |
| ForecastEngine.ForecastStepRecords | agents/demand_forecast_agent.py:70-94 | A success becomes the last forecast and the newest history entry. A rejected input changes nothing. |
| ForecastEngine.Reset | agents/demand_forecast_agent.py:671-681 | The reset installs the five cascade counters, all at zero, empties the history and keeps `last_forecast`. |
| ForecastEngine.ResetKeepsConsistent | agents/demand_forecast_agent.py:671-681 | The reset keeps the invariant and gives every cascade method a counter. |
| ForecastEngine.ResetReportIsEmpty | agents/demand_forecast_agent.py:634-681 | After the reset no attempt is on record, and the performance report has no forecast, no method line, a zero overall rate and the old `last_forecast`. |
| ForecastEngine.NoAttemptsListed | backend/agents/demand_forecast_agent.py:646-654 | Counters that were never attempted give no method line. |
| ForecastEngine.TotalsSound | backend/agents/demand_forecast_agent.py:579-580 | Total successes never exceed total attempts. |
| ForecastEngine.QuantityScore | backend/agents/demand_forecast_agent.py:557-565 | The data-quantity score lies in [0.3, 1]. |
| ForecastEngine.QualityScore | backend/agents/demand_forecast_agent.py:567-576 | The data-quality score lies in [0.3, 1]. |
| ForecastEngine.LevelOf | backend/agents/demand_forecast_agent.py:590-598 | High from 0.8, Medium from 0.6, Low from 0.4, else Very Low. The four bands are exclusive and complete. |
| ForecastEngine.ForecastConfidence | backend/agents/demand_forecast_agent.py:539-623 | Invalid data give the fixed Very Low 0.1 report. Otherwise the level is the band of the unrounded weighted score, and the score and model performance are reported rounded to three decimals. |
| ForecastEngine.ConfidenceScoreBounds | backend/agents/demand_forecast_agent.py:578-611 | With sound counters the reported score lies in [0.1, 1], and an assessed score in [0.21, 1]. |
| ForecastEngine.MethodsPerformance | backend/agents/demand_forecast_agent.py:646-654 | A method is listed exactly when it has attempts. Each line carries its counter's name, attempts, successes and success rate to three decimals. |
| ForecastEngine.MethodRatesInUnit | backend/agents/demand_forecast_agent.py:647-654 | Every listed success rate lies in [0, 1], after rounding too. |
| ForecastEngine.StatsRateInUnit | backend/agents/demand_forecast_agent.py:648-651 | One sound counter's rounded success rate lies in [0, 1]. |
| ForecastEngine.ModelPerformanceReport | backend/agents/demand_forecast_agent.py:634-669 | `total_forecasts` is the history length. `recent_forecasts` is its last ten or fewer entries. `last_forecast` is the agent's. The method lines are `MethodsPerformance` of the counters, and the overall rate is successes over attempts, rounded. |
| ForecastEngine.OverallRateInUnit | backend/agents/demand_forecast_agent.py:656-663 | The rounded overall rate lies in [0, 1], and is 0 before any attempt. |
| ForecastEngine.DemandForecastAgent.constructor | agents/demand_forecast_agent.py:33-48 | A new agent has the constructor's three counters, no history and no last forecast. |
| ForecastEngine.DemandForecastAgent.HierarchicalForecast | agents/demand_forecast_agent.py:185-217 | The loop's outcome and counters are those of the cascade. |
| ForecastEngine.DemandForecastAgent.StoreForecastResult | agents/demand_forecast_agent.py:501-519 | The new state is `Store` of the old one. |
| ForecastEngine.DemandForecastAgent.Forecast | agents/demand_forecast_agent.py:52-98 | Returns the forecast step's value and state, never negative, keeping the invariant. |
| ForecastEngine.DemandForecastAgent.ResetPerformanceTracking | agents/demand_forecast_agent.py:671-681 | The new state is `Reset` of the old one: every counter at zero, the history empty, `last_forecast` unchanged. |
| VectorDb.HistoryIff | backend/utils/vector_db.py:75-86 | The history holds exactly the stored records joining the pair, in either direction. |
| VectorDb.HistorySymmetric | backend/utils/vector_db.py:80-84 | Asking for d→o returns the same records, in the same order, as o→d. |
| VectorDb.HistoryAfterAppend | backend/utils/vector_db.py:56-86 | An appended record is the only one an append can add to a history. |
| VectorDb.Similarity | backend/utils/vector_db.py:96-102 | A similarity score is 0, 0.5 or 1. |
| VectorDb.SimilarityIff | backend/utils/vector_db.py:96-102 | 1.0 exactly when both cities are touched, 0 when neither is. A record joining the pair scores 1.0. |
| VectorDb.TaggedKeepsFields | backend/utils/vector_db.py:95-107 | A search changes only the similarity score of stored records. |
| VectorDb.ScoredKeys | backend/utils/vector_db.py:95-107 | A record is scored exactly when it shares a city with the pair. Every scored record is such a stored record, scored 0.5 or 1.0. |
| VectorDb.SortPermutes | backend/utils/vector_db.py:110 | The sort neither loses nor invents records. |
| VectorDb.SortByKeySorted | backend/utils/vector_db.py:110 | The sorted list has non-increasing scores. |
| VectorDb.SortIsStable | backend/utils/vector_db.py:110 | The sort lists the 1.0 records, then the 0.5 records, each in stored order. |
| VectorDb.SliceTo | backend/utils/vector_db.py:111 | `s[:limit]` is a prefix of the length Python gives, for negative limits too. |
| VectorDb.SimilarRoutesShape | backend/utils/vector_db.py:88-111 | At most `limit` records, in non-increasing score order, each scored 0.5 or 1.0. When the limit does not cut, every stored record sharing a city is returned. |
| VectorDb.Summarize | backend/utils/vector_db.py:136-149 | `direct_routes` is the history count and `has_historical_data` holds iff it is positive. Averages exist only then and lie between their field's minimum and maximum. |
| VectorDb.HasHistoryIff | backend/utils/vector_db.py:127-140 | Historical data are reported exactly when some stored record joins the pair. |
| VectorDb.TaggedKeepsHistory | backend/utils/vector_db.py:95-107 | A search never changes how many records any history holds. |
| VectorDb.RouteVectorDB.constructor | backend/utils/vector_db.py:19-54 | A new store holds exactly the two sample routes and no performance records. |
| VectorDb.RouteVectorDB.AddRoute | backend/utils/vector_db.py:56-73 | Appends one record with normalised cities. Earlier records are unchanged. |
| VectorDb.RouteVectorDB.GetRouteHistory | backend/utils/vector_db.py:75-86 | Returns the history of the normalised pair. |
| VectorDb.RouteVectorDB.MatchingRoutes | backend/utils/vector_db.py:80-86 | The filter loop computes the history. |
| VectorDb.RouteVectorDB.GetSimilarRoutes | backend/utils/vector_db.py:88-111 | Writes the scores into the store, and returns the sorted, cut search result. |
| VectorDb.RouteVectorDB.ScoreRoutes | backend/utils/vector_db.py:93-111 | The scoring loop, sort and cut produce the tagged store and the search result. |
| VectorDb.RouteVectorDB.RecordPerformance | backend/utils/vector_db.py:113-125 | Appends one normalised performance record. The routes are untouched. |
| VectorDb.RouteVectorDB.GetRouteIntelligence | backend/utils/vector_db.py:127-151 | The summary of the direct history and the five best similar routes. |
| CostAnalyzer.ValidateVendorData | backend/agents/cost_analyzer_agent.py:66-97 | A missing required column gives the sample vendors. Otherwise the surviving rows only. |
| CostAnalyzer.CompleteRowsIff | backend/agents/cost_analyzer_agent.py:80-85 | A vendor survives exactly when its row has every required field. |
| CostAnalyzer.DefaultsApplied | backend/agents/cost_analyzer_agent.py:87-95 | An absent optional column gives every vendor its default: Standard, 8.0, 5000 kg. |
| CostAnalyzer.EffectiveDistance | backend/agents/cost_analyzer_agent.py:113-115 | A distance that is not positive becomes 1000 km. Positive distances are kept. |
| CostAnalyzer.EfficiencyValue | backend/agents/cost_analyzer_agent.py:173-175 | One inverted min-max score lies in [0, 10]. |
| CostAnalyzer.Efficiency | backend/agents/cost_analyzer_agent.py:164-196 | Every efficiency score lies in [0, 10]. |
| CostAnalyzer.EfficiencyValueOrder | backend/agents/cost_analyzer_agent.py:170-175 | The minimum maps to 10, the maximum to 0, and a larger value never scores higher. |
| CostAnalyzer.EfficiencyOrder | backend/agents/cost_analyzer_agent.py:164-196 | The cheapest scores 10, the dearest 0 unless all are equal, and a lower value never scores lower. |
| CostAnalyzer.Weights | backend/agents/cost_analyzer_agent.py:202-209 | Each priority's weights are non-negative and sum to 1. An unknown priority is balanced. |
| CostAnalyzer.CompositeBounds | backend/agents/cost_analyzer_agent.py:211-223 | With sub-scores on the 0-10 scale, the composite is too, under every priority. |
| CostAnalyzer.RouteCosts | backend/agents/cost_analyzer_agent.py:121 | Each vendor's total cost is its rate times the distance. |
| CostAnalyzer.Analyse | backend/agents/cost_analyzer_agent.py:117-128 | One analysis row per vendor: cost, CO2, feasibility, efficiencies and service score. |
| CostAnalyzer.Feasible | backend/agents/cost_analyzer_agent.py:130-131 | Only rows that can carry the cargo are kept, in order. |
| CostAnalyzer.FeasibleIff | backend/agents/cost_analyzer_agent.py:123-131 | The feasible rows are exactly those with enough capacity. |
| CostAnalyzer.NoneFeasibleIff | backend/agents/cost_analyzer_agent.py:123-134 | No analysis row is feasible exactly when every vendor's capacity is below the weight. |
| CostAnalyzer.Surcharged | backend/agents/cost_analyzer_agent.py:133-138 | Every row's total cost is multiplied by 1.25, and nothing else changes. |
| CostAnalyzer.FirstMaxIndex | backend/agents/cost_analyzer_agent.py:148 | `idxmax` is the first position of the largest value. |
| CostAnalyzer.FirstMinIndex | backend/agents/cost_analyzer_agent.py:261 | `idxmin` is the first position of the smallest value. |
| CostAnalyzer.Rank | backend/agents/cost_analyzer_agent.py:153 | The descending average rank lies in [1, n]. |
| CostAnalyzer.RankOrder | backend/agents/cost_analyzer_agent.py:153 | A higher score gets a strictly smaller rank, and equal scores share a rank. |
| CostAnalyzer.SortByRankCorrect | backend/agents/cost_analyzer_agent.py:154 | The ranked table is a reordering of its rows by non-decreasing rank. |
| CostAnalyzer.Candidates | backend/agents/cost_analyzer_agent.py:130-140 | The feasible rows, or all rows surcharged exactly when none is feasible. |
| CostAnalyzer.RankCandidates | backend/agents/cost_analyzer_agent.py:142-154 | Ranking candidates always yields a comparison. |
| CostAnalyzer.CompareVendors | backend/agents/cost_analyzer_agent.py:99-162 | For typed vendor rows, the emergency vendor at 3.5 per km is used exactly when there are no vendors. It comes with its one-row fallback table. |
| CostAnalyzer.FallbackVendor | backend/agents/cost_analyzer_agent.py:228-248 | Emergency Logistics at 3.5 per km. Its one table row agrees with the returned vendor and price, has rank 1 and is in fallback mode. |
| CostAnalyzer.CandidatesNonEmpty | backend/agents/cost_analyzer_agent.py:130-140 | With vendors present, the candidates are never empty. |
| CostAnalyzer.RankCandidatesBest | backend/agents/cost_analyzer_agent.py:147-150 | The pick is the first candidate with the highest composite score, at its total cost. |
| CostAnalyzer.CandidateCosts | backend/agents/cost_analyzer_agent.py:121-137 | A candidate's cost is rate times distance, times 1.25 when the surcharge applies. |
| CostAnalyzer.BestVendorIsFirstMaximal | backend/agents/cost_analyzer_agent.py:143-150 | The returned vendor has the maximal composite score, the first on ties. Its price is its total cost. |
| CostAnalyzer.RankCandidatesRows | backend/agents/cost_analyzer_agent.py:133-140 | Every row carries the same surcharge flag. Without it, every row can carry the cargo. |
| CostAnalyzer.SurchargeIff | backend/agents/cost_analyzer_agent.py:131-140 | The surcharge is applied exactly when no vendor can carry the cargo. |
| CostAnalyzer.RankCandidatesOrdered | backend/agents/cost_analyzer_agent.py:152-154 | The ranked table has non-increasing composite scores. |
| CostAnalyzer.TableOrdered | backend/agents/cost_analyzer_agent.py:152-158 | The returned table is ordered by rank, so by non-increasing composite score. |
| CostAnalyzer.CarbonCategoriesPartition | backend/agents/cost_analyzer_agent.py:264-276 | The three carbon categories partition the vendors. |
| CostAnalyzer.Emissions | backend/agents/cost_analyzer_agent.py:256 | Each vendor's CO2 is its emission rate times the distance. |
| CostAnalyzer.EcoRecommendations | backend/agents/cost_analyzer_agent.py:285-303 | One or two items. Rail is advised exactly when neither of the other two applies. |
| CostAnalyzer.GetSustainabilityReport | backend/agents/cost_analyzer_agent.py:251-283 | An error report exactly when there are no vendors. |
| CostAnalyzer.EcoVendorsExtreme | backend/agents/cost_analyzer_agent.py:259-277 | The best eco vendor emits least and the worst most. The average lies between them, and the savings potential is non-negative. |
| RiskMonitor.WeatherScore | agents/risk_monitor_agent.py:126-165 | The score of a reading lies in [0, 80]. |
| RiskMonitor.WeatherFactors | agents/risk_monitor_agent.py:127-165 | At most five factors, one per rule. |
| RiskMonitor.WeatherLevel | agents/risk_monitor_agent.py:167-176 | High from 50, Medium from 25, else Low. |
| RiskMonitor.AnalyzeWeatherRisk | agents/risk_monitor_agent.py:118-194 | A field present as `None` gives the error result. Otherwise score, factors, level, impact and recommendations are those of the rules, and the score lies in [0, 80]. |
| RiskMonitor.AnalysisFailed | agents/risk_monitor_agent.py:186-194 | The error result is Medium at 25, which the live thresholds agree with, with the one factor and the one piece of advice. |
| RiskMonitor.ConditionFactorsExclusive | agents/risk_monitor_agent.py:129-135 | The condition rule never names both severe and moderate weather. |
| RiskMonitor.PartlyCloudyIsNotLow | agents/risk_monitor_agent.py:130-135 | A condition containing "partly cloudy" scores at least 15, because it contains "cloudy". |
| RiskMonitor.Tier | agents/risk_monitor_agent.py:300-321 | Five tier items from 25 points on, otherwise the three low-risk items. |
| RiskMonitor.TopicsFoundInText | agents/risk_monitor_agent.py:323-334 | Every keyword topic recorded for a factor does occur in its lower-cased text. |
| RiskMonitor.RiskRecommendations | agents/risk_monitor_agent.py:295-336 | At most five items, starting with the tier. From 25 points on, exactly the tier. |
| RiskMonitor.GetRiskRecommendations | agents/risk_monitor_agent.py:295-336 | The extend, append and slice steps build that list. |
| RiskMonitor.CargoAdviceIff | agents/risk_monitor_agent.py:316-325 | Below 25 points, the cargo advice is given exactly when some factor mentions wind. |
| RiskMonitor.LowScoreWindAndRain | agents/risk_monitor_agent.py:323-336 | A low score with wind and rain factors ends with the cargo and waterproofing advice. |
| RiskMonitor.WindyCalmDay | agents/risk_monitor_agent.py:141-143 | A moderate wind on a calm summer day scores 10 and earns the cargo advice. |
| RiskMonitor.SeasonEstimate | agents/risk_monitor_agent.py:206-223 | The seasonal points lie in [5, 20], and are 20 exactly in the monsoon months. |
| RiskMonitor.FallbackScore | agents/risk_monitor_agent.py:203-239 | The estimate's score lies in [5, 30]. |
| RiskMonitor.FallbackLevel | agents/risk_monitor_agent.py:241-250 | The estimate is never High. It is Medium exactly from 15 on. |
| RiskMonitor.IntelligentFallback | agents/risk_monitor_agent.py:196-269 | Score, factors, level, condition, temperature, humidity, wind (15 km/h), impact text, recommendations, API error and source of the seasonal estimate. |
| RiskMonitor.InlandMonsoonEstimate | agents/risk_monitor_agent.py:206-250 | An inland monsoon estimate scores 20. It is Medium here, where live weather would call 20 Low. |
| RiskMonitor.EmergencyFallback | agents/risk_monitor_agent.py:275-293 | Always Medium, score 25, one factor, three recommendations and a warning. |
| RiskMonitor.EmergencyMatchesWeatherThreshold | agents/risk_monitor_agent.py:282-283 | The emergency level agrees with the live-weather level of its score. |
| RiskMonitor.AssessIsWorstDay | agents/risk_monitor_agent.py:391-401 | The forecast's risk is that of its worst day: red, else yellow, else Low. |
| RiskMonitor.UnlabelledDayIsMedium | agents/risk_monitor_agent.py:394 | A day without a level counts as Medium, so the forecast is then never Low. |
| RiskMonitor.WindyDays | agents/risk_monitor_agent.py:412 | Some day is windy exactly when some day's wind exceeds 25. |
| RiskMonitor.ForecastRecommendations | agents/risk_monitor_agent.py:406-423 | One or two items. Rain advice iff more than one rainy day, wind advice iff a windy day, and the favourable note otherwise. |
| RiskMonitor.OneDayNoRainAdvice | agents/risk_monitor_agent.py:411-415 | A single day never triggers the rain advice. |
| RouteOptimizer.Trunc | backend/agents/route_optimizer_agent.py:265 | `int(x)` truncates toward zero. |
| RouteOptimizer.NoUnitsIsZero | backend/agents/route_optimizer_agent.py:226-248 | A text naming neither hours nor minutes parses as 0. |
| RouteOptimizer.DurationRoundTrip | backend/agents/route_optimizer_agent.py:226-276 | For h ≥ 0, parsing the formatted text gives `int(h·60)/60`. |
| RouteOptimizer.WholeMinutesRoundTrip | backend/agents/route_optimizer_agent.py:262-274 | Parsing the text of m whole minutes gives m/60, in all three text shapes. |
| RouteOptimizer.SecondsWithinShownMinute | backend/agents/route_optimizer_agent.py:181 | `int(h·3600)` seconds lie within the minute the text shows. |
| RouteOptimizer.DurationConsistent | backend/agents/route_optimizer_agent.py:175-181 | A route's duration text and its seconds agree to the minute. |
| RouteOptimizer.FallbackBasis | backend/agents/route_optimizer_agent.py:149-172 | The historical average distance and duration if the distance is positive, else the first similar route, else the matrix distance at 50 km/h. |
| RouteOptimizer.FallbackRoute | backend/agents/route_optimizer_agent.py:142-192 | The path is [origin, destination], and the basis is chosen by the order above. Distance, duration text and seconds are those of that basis. |
| RouteOptimizer.EstimateDurationConsistent | backend/agents/route_optimizer_agent.py:174-181 | Every estimate made without the maps service has consistent text and seconds. |
| RouteOptimizer.ConservativeEstimate | backend/agents/route_optimizer_agent.py:210-224 | Path origin then destination, the given distance, duration text and seconds for that distance at 45 km/h, the emergency basis, and a reliability warning. |
| RouteOptimizer.EmergencyRoute | backend/agents/route_optimizer_agent.py:205-224 | The matrix distance, and the conservative estimate for that distance. |
| RouteOptimizer.EmergencyNotFaster | backend/agents/route_optimizer_agent.py:205-216 | At 45 km/h the emergency route never beats the 50 km/h matrix fallback. |
| RouteOptimizer.DeliveryScore | backend/agents/route_optimizer_agent.py:284-293 | The score lies in [4, 10] for non-negative satisfaction, and saturates at 10. |
| RouteOptimizer.DeliveryScoreOrder | backend/agents/route_optimizer_agent.py:286-293 | More satisfaction never lowers the score, and punctuality is worth exactly 3 points. |
| RouteOptimizer.RecordDeliveryPerformance | backend/agents/route_optimizer_agent.py:278-300 | Appends the score's record to the store and nothing else. |
| Orchestration.Summary | backend/orchestrator.py:91 | None exactly for falsy data, else the first 100 characters of its text. |
| Orchestration.Recent | backend/orchestrator.py:515 | The last 20 entries or fewer. |
| Orchestration.HealthOf | backend/orchestrator.py:512-532 | Initializing iff the log is empty. The rate lies in [0, 1]. Excellent iff > 0.9, Needs Attention iff ≤ 0.7. |
| Orchestration.SuccessCountAll | backend/orchestrator.py:519 | Every entry counts as a success exactly when all succeeded. |
| Orchestration.RecentSuccessesAreExcellent | backend/orchestrator.py:515-528 | Twenty successes in a row give Excellent, whatever came before. |
| Orchestration.ShortLogExcellentIff | backend/orchestrator.py:519-528 | With at most ten entries, Excellent exactly when every entry succeeded. |
| Orchestration.ConfidenceScore | backend/orchestrator.py:539-546 | The score lies in [0.355, 1], and is 1 exactly when all four succeed. |
| Orchestration.ConfidencePenalties | backend/orchestrator.py:539-546 | Failures cost 0.175, 0.24, 0.15 and 0.08 respectively. |
| Orchestration.ConfidenceOf | backend/orchestrator.py:537-563 | High iff > 0.8, Low iff ≤ 0.6, and the component flags are reported. |
| Orchestration.HighConfidenceIff | backend/orchestrator.py:541-552 | High exactly when the route succeeds and at most one other fails. |
| Orchestration.LowConfidenceIff | backend/orchestrator.py:541-552 | Low exactly when demand and route both fail, or three fail. |
| Orchestration.ConfidenceMonotone | backend/orchestrator.py:541-546 | A component that recovers never lowers the score. |
| Orchestration.AdjustRisk | backend/orchestrator.py:337-363 | Monsoon or Weather gives the weather overrides, else Strike gives High, else Emergency gives Medium. A missing dict becomes Medium. |
| Orchestration.AdjustRiskKeepsFields | backend/orchestrator.py:340-359 | Every input field survives, and fields outside the overrides keep their value. Other scenarios change nothing. |
| Orchestration.MonsoonScenarioOverridesWeather | backend/orchestrator.py:342 | The Monsoon Disruption scenario takes the weather override. |
| Orchestration.StrikeScenarioRaisesRisk | backend/orchestrator.py:352 | The Industrial Strike scenario takes the strike branch, not the weather one. |
| Orchestration.NormalScenarioKeepsRisk | backend/orchestrator.py:342-359 | Normal Operations leaves the risk unchanged. |
| Orchestration.Scale | backend/orchestrator.py:260 | Each total is multiplied by the factor. |
| Orchestration.ApplyScenario | backend/orchestrator.py:218-260 | The forecast is scaled by the demand multiplier and price and totals by the cost multiplier. The originals are kept. |
| Orchestration.ScenarioKeepsCostOrder | backend/orchestrator.py:256-260 | No scenario lowers the price or reorders vendors by total cost. |
| Orchestration.FallbackVendors | backend/orchestrator.py:315-328 | One row at rank 1 whose cost per km times `max(1, d)` is the price. |
| Orchestration.CostFallback | backend/orchestrator.py:330-335 | Emergency Logistics at 3.0 per km. |
| Orchestration.CostFallbackRateIff | backend/orchestrator.py:321-333 | The fallback's cost per km is at most 3.0, and equals it exactly from 1 km on. |
| Orchestration.SafeCostAnalysis | backend/orchestrator.py:294-313 | A triple passes through, a pair gains a one-row table, and anything else falls back. |
| Orchestration.EmergencyResultsFor | backend/orchestrator.py:484-510 | Matrix distance priced at 3.5 per km, Medium risk and Low confidence. |
| Orchestration.EmergencyPricierThanCostFallback | backend/orchestrator.py:484-510 | The emergency price exceeds the cost fallback's on the same route. |
| Orchestration.EntryFor | backend/orchestrator.py:96-108 | SUCCESS iff the agent returned, FAILED iff it raised. The step is `<agent>_execution`. |
| Orchestration.Orchestrator.constructor | backend/orchestrator.py:55-65 | A new orchestrator has an empty log. |
| Orchestration.Orchestrator.LogExecutionStep | backend/orchestrator.py:84-94 | Appends exactly one entry. |
| Orchestration.Orchestrator.ExecuteWithFallback | backend/orchestrator.py:96-108 | Returns (value, true) or (fallback, false) and logs one matching entry. |
| Orchestration.Orchestrator.SystemHealth | backend/orchestrator.py:512-535 | The health of the current log. |
| Orchestration.Orchestrator.ExecuteComputationalAgents | backend/orchestrator.py:204-292 | Results as specified by `Analysis`. The log gains the four agent entries in order. |
| Orchestration.AgentEntries | backend/orchestrator.py:210-283 | Four entries. Demand, route and risk succeed iff they returned. Cost always succeeds. |
| Orchestration.Analysis | backend/orchestrator.py:204-292 | Success flags follow the agents, cost never fails, and fallbacks replace raised values. The risk is adjusted for the scenario. |
| Orchestration.CostNeverFailsConfidence | backend/orchestrator.py:537-552 | Since cost never fails, a run scores at least 0.505, and is never Low when demand or route succeeds. |
| AlertSystem.WeatherAlerts | alert_system.py:122-148 | One High weather alert per city with risk above 0.7. |
| AlertSystem.WeatherAlertIff | alert_system.py:129-146 | A city is alerted exactly when its risk exceeds 0.7. |
| AlertSystem.DemandAlerts | alert_system.py:150-175 | One High alert exactly when current orders exceed 1300. |
| AlertSystem.VendorAlerts | alert_system.py:177-204 | Medium alerts for listed offers of at least 30% off. |
| AlertSystem.VendorAlertIff | alert_system.py:188-202 | An offer is alerted exactly when its discount is at least 30. |
| AlertSystem.ShippedVendorDeals | alert_system.py:182-202 | Of the three offers, exactly the 35% and 40% ones are alerted. |
| AlertSystem.TruncatedHundreds | alert_system.py:225 | `int(x/100)` truncates toward zero. |
| AlertSystem.CapacityAlerts | alert_system.py:206-234 | One Critical alert exactly when the forecast exceeds 1080, with shortage `forecast - 1200`. |
| AlertSystem.NearCapacityShortageIsNegative | alert_system.py:211-230 | Forecasts in (1080, 1200) alert with a negative shortage, and up to 1100 with −1 vehicles. |
| AlertSystem.WorthwhileIff | alert_system.py:247-248 | Savings above 20% means `5·optimal < 4·current`. |
| AlertSystem.RouteAlerts | alert_system.py:236-263 | Low alerts for listed routes saving more than 20%. |
| AlertSystem.RouteAlertIff | alert_system.py:246-261 | A route is alerted exactly when it saves more than 20%. |
| AlertSystem.ShippedRoutesAlerted | alert_system.py:241-261 | Both simulated routes are alerted. |
| AlertSystem.AtRiskIff | alert_system.py:276-285 | Days of stock are below the lead time exactly when the stock is below the suggested order. |
| AlertSystem.InventoryAlerts | alert_system.py:265-292 | High alerts for listed products running out within the lead time, each suggesting `daily·lead` units. |
| AlertSystem.InventoryAlertIff | alert_system.py:275-290 | A product is alerted exactly when its days of stock are below its lead time. |
| AlertSystem.ShippedProductsAtRisk | alert_system.py:270-290 | Both simulated products are alerted, with orders of 150 and 125 units. |
| AlertSystem.NewAlertsInCheckOrder | alert_system.py:87-120 | New alerts come in check order: weather, demand, vendor, capacity, route, inventory. |
| AlertSystem.NewAlertsCount | alert_system.py:87-120 | A round raises the weather alerts, the demand and capacity alerts when due, and six fixed ones: 6 to 13 in all. |
| AlertSystem.RealTimeMonitor.constructor | alert_system.py:61-75 | No alerts, not monitoring, last checked at creation, 60-second interval. |
| AlertSystem.RealTimeMonitor.StartMonitoring | alert_system.py:77-80 | Monitoring becomes active. |
| AlertSystem.RealTimeMonitor.StopMonitoring | alert_system.py:82-85 | Monitoring becomes inactive. |
| AlertSystem.RealTimeMonitor.CheckWeatherConditions | alert_system.py:122-148 | The loop computes the weather alerts. |
| AlertSystem.RealTimeMonitor.CheckVendorPrices | alert_system.py:177-204 | The loop computes the vendor alerts. |
| AlertSystem.RealTimeMonitor.CheckRouteOptimization | alert_system.py:236-263 | The loop computes the route alerts. |
| AlertSystem.RealTimeMonitor.CheckInventoryLevels | alert_system.py:265-292 | The loop computes the inventory alerts. |
| AlertSystem.RealTimeMonitor.CheckAllConditions | alert_system.py:87-120 | Returns the round's alerts, appends exactly those and sets the last check time. |
| AlertSystem.Rank | alert_system.py:388-394 | The priority order, from CRITICAL 0 to INFO 4. |
| AlertSystem.SortAlertsPermutes | alert_system.py:396 | The display sort neither loses nor invents alerts. |
| AlertSystem.SortAlertsOrdered | alert_system.py:396 | Sorted by priority, newest first within a priority. |
| AlertSystem.SortAlertsStable | alert_system.py:396 | The sort is stable: alerts with the same priority and timestamp keep their relative order. |
| AlertSystem.DisplayedShape | alert_system.py:396-400 | At most ten shown, in display order, drawn from the stored alerts. All are shown when there are ten or fewer. Every alert left out sorts after every alert shown. |
| AlertSystem.MostUrgentShownFirst | alert_system.py:396-400 | The first shown alert is at least as urgent as any stored alert, and the newest among equals. |

## Left out

- Network, HTTP and retries are not modelled: the maps and weather services, `check_weather` and `get_extended_forecast`. The weather readings and forecast days they would produce are inputs.
- The clock, the random generator and logging are not modelled. Month, hour, timestamps, durations and random draws are parameters.
- The statsmodels fits and `seasonal_decompose` are abstract functions of the `Numerics` record, returning an optional result. So are pandas' `std` and `quantile`, and `round` to two and to three decimals. Of `round(x, 3)` only two facts are used: it is monotone, and it leaves a number with three decimals unchanged.
- Floating point is not modelled. Arithmetic is over exact reals, so NaN and infinity, and the float rounding of thresholds such as `(1 - 4/5)*100 > 20`, are outside the model. A NaN forecast is an explicit `NaN` value.
- Text formatting is not modelled: `.1f`, `:.0%`, `:,` and the f-string titles, messages, actions and impacts of alerts and reports. Reports carry the numbers and enum values instead of formatted strings.
- `int()` accepting underscores and Unicode digits is not modelled (a leading `-` or `+` is). The duration parser reads ASCII digit words.
- ForecastStrategies.TrendForecast: polyfit is computed as the exact least-squares line over reals, not numpy's floating-point fit.
- CostAnalyzer.SortByRank: pandas `sort_values('rank')` uses quicksort, whose order among equal ranks is unspecified. The model uses a stable sort.
- CostAnalyzer.CompareVendors: the optional columns `service_quality` and `max_capacity_kg` are typed as numbers. In the source they are not coerced, so a non-numeric cell passes validation and makes the comparison raise and return the emergency vendor. That exception path is not modelled.
- CostAnalyzer: `_load_or_create_vendor_data` is file I/O. The loaded table is an input.
- RiskMonitor.Topics: the keyword table records the tests each factor text passes. The converse, that a factor passes no other test, is not proved for every factor.
- Orchestration.AdjustRisk: the exception path of `_adjust_risk_for_scenario` is unreachable for a dict or None input, so it is not modelled.
- RouteOptimizer.DurationText: the exception path of `_hours_to_duration_text` (NaN or infinite hours) is not modelled, because reals have no NaN.
- RouteOptimizer: the `fallback_reason`, `polyline`, `route_quality` and `historical_insights` fields of route dictionaries are not carried.
- Orchestration: the glue is not modelled: `run_comprehensive_analysis`, `_load_and_validate_data`, `_create_sample_orders`, `_execute_ai_reasoning`, `_create_fallback_ai_insights`, `_compile_final_results`, `run_pipeline`, `agent_performance` and `api_availability`.
- Orchestration.HealthOf: the average response time is not formatted as text. The total duration it is computed from is modelled.
- Config.validate_api_keys reads the environment and is not modelled.
- AlertSystem: the weather check's two package-count draws are modelled as one. The check keeps the draw stored in `data`; the other appears only in the impact text.
- AlertSystem: the unused `np.random.uniform` capacity draw is not modelled.
- AlertSystem: all alerts of one round carry one clock reading. In the source each alert is stamped when it is created, so within a round and a priority the display shows the later-created alert first whenever the clock advanced between the two. For example, SwiftCargo's deal comes before FastLog's, and the inventory alerts come before the High weather alerts. In the model such alerts keep check order, because the sort is stable (`SortAlertsStable`).
- Text.Lower and Text.IsSpace cover ASCII only. Python's `lower()` and `strip()` also handle other Unicode letters and spaces, so `'\xa0Delhi'.strip()` gives `'Delhi'` in Python but not in the model.
- VectorDb.RouteVectorDB.GetSimilarRoutes returns record values. In the source the returned dicts are the stored ones, so a later search rewrites an earlier result's `similarity_score`. The model does not capture this aliasing.
- RiskMonitor.AnalyzeWeatherRisk: a field present with a value of the wrong type (a string wind speed, say) also raises in the source. The model's fields are typed, so only a field present as `None` takes the error path.
- AlertSystem: one weather draw per city is taken as an input. The source draws them interleaved with the package counts.
- AlertSystem: the dashboard's rendering, statistics, `_run_checks` and session state are not modelled. The in-place `alerts.sort` of the session list is modelled as a function on a sequence.
- AlertSystem: the `agents` field and `integrate_with_orchestrator` are not modelled.
- `app.py`, `backend/main.py`, `backend/crew_setup.py` and the `__init__` re-exports are outside this model.
