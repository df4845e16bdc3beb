/**
 * The coordination layer: an append-only execution log, the wrapper that runs
 * an agent and falls back to a default value when it raises, the what-if
 * scenario adjustments (demand and cost multipliers, risk overrides), the cost
 * fallbacks, the emergency results, the weighted confidence score and the
 * system health over the most recent log entries.
 *
 * What an agent call does is not modelled here: each call arrives as an
 * `Outcome`, either the value it returned or the message of what it raised.
 * Clock readings (timestamps, durations) are parameters.
 */
module Orchestration {
  import opened Wrappers
  import opened Text
  import opened Config

  // ---------------------------------------------------------------------
  // Execution log
  // ---------------------------------------------------------------------

  datatype Status = Succeeded | Failed | FellBack

  /** A value handed to the log: its `str()` rendering and whether Python finds it truthy. */
  datatype Payload = Payload(rendered: string, truthy: bool)

  datatype LogEntry = LogEntry(
    timestamp: string,
    step: string,
    status: Status,
    durationSeconds: real,
    dataSummary: Option<string>)

  const SummaryLength: nat := 100

  /** `str(data)[:100] if data else None`. */
  function Summary(data: Payload): (r: Option<string>)
    ensures r.None? <==> !data.truthy
    ensures r.Some? ==> |r.value| == Min(|data.rendered|, SummaryLength) && r.value == data.rendered[..|r.value|]
  {
    if data.truthy then Some(data.rendered[..Min(|data.rendered|, SummaryLength)]) else None
  }

  function Min(a: nat, b: nat): nat {
    if a <= b then a else b
  }

  /** What an agent call did: returned a value (with its rendering for the log) or raised. */
  datatype Outcome<T> = Returned(value: T, rendered: Payload) | Raised(message: string)

  // ---------------------------------------------------------------------
  // System health
  // ---------------------------------------------------------------------

  const HealthWindow: nat := 20

  /** `execution_log[-20:]`. */
  function Recent(log: seq<LogEntry>): (r: seq<LogEntry>)
    ensures |r| == Min(|log|, HealthWindow)
    ensures r == log[|log| - |r|..]
  {
    if |log| > HealthWindow then log[|log| - HealthWindow..] else log
  }

  function SuccessCount(entries: seq<LogEntry>): (n: nat)
    ensures n <= |entries|
  {
    if entries == [] then 0
    else SuccessCount(entries[..|entries| - 1]) + (if entries[|entries| - 1].status == Succeeded then 1 else 0)
  }

  function TotalDuration(entries: seq<LogEntry>): real {
    if entries == [] then 0.0
    else TotalDuration(entries[..|entries| - 1]) + entries[|entries| - 1].durationSeconds
  }

  datatype Rating = Excellent | Good | NeedsAttention

  datatype Health =
    | Initializing
    | Rated(rating: Rating, successRate: real, averageResponseSeconds: real)

  /** `_calculate_system_health`: the share of SUCCESS entries among the last 20,
      rated Excellent above 0.9, Good above 0.7, and Needs Attention otherwise. */
  function HealthOf(log: seq<LogEntry>): (h: Health)
    ensures h.Initializing? <==> log == []
    ensures h.Rated? ==> 0.0 <= h.successRate <= 1.0
    ensures h.Rated? ==> (h.rating == Excellent <==> h.successRate > 0.9)
    ensures h.Rated? ==> (h.rating == NeedsAttention <==> h.successRate <= 0.7)
  {
    var recent := Recent(log);
    if recent == [] then Initializing
    else
      var total := |recent| as real;
      var rate := SuccessCount(recent) as real / total;
      RateInUnit(SuccessCount(recent), |recent|);
      var rating := if rate > 0.9 then Excellent else if rate > 0.7 then Good else NeedsAttention;
      Rated(rating, rate, TotalDuration(recent) / total)
  }

  predicate AllSucceeded(entries: seq<LogEntry>) {
    forall i :: 0 <= i < |entries| ==> entries[i].status == Succeeded
  }

  lemma {:induction false} SuccessCountAll(entries: seq<LogEntry>)
    ensures SuccessCount(entries) == |entries| <==> AllSucceeded(entries)
  {
    if entries != [] {
      var init := entries[..|entries| - 1];
      SuccessCountAll(init);
      if AllSucceeded(entries) {
        assert AllSucceeded(init) by {
          forall i | 0 <= i < |init| ensures init[i].status == Succeeded {
            assert init[i] == entries[i];
          }
        }
      }
      if SuccessCount(entries) == |entries| {
        forall i | 0 <= i < |entries| ensures entries[i].status == Succeeded {
          if i < |init| { assert init[i] == entries[i]; }
        }
      }
    }
  }

  /** Twenty successes in a row make the system Excellent, whatever came before. */
  lemma {:induction false} RecentSuccessesAreExcellent(log: seq<LogEntry>)
    requires |log| >= HealthWindow && AllSucceeded(log[|log| - HealthWindow..])
    ensures HealthOf(log).Rated? && HealthOf(log).rating == Excellent
  {
    var recent := Recent(log);
    assert recent == log[|log| - HealthWindow..];
    SuccessCountAll(recent);
  }

  /** With at most ten entries in the log, a single failure is enough to lose Excellent. */
  lemma {:induction false} ShortLogExcellentIff(log: seq<LogEntry>)
    requires 0 < |log| <= 10
    ensures HealthOf(log).rating == Excellent <==> AllSucceeded(log)
  {
    assert Recent(log) == log;
    SuccessCountAll(log);
    SmallWindowRate(SuccessCount(log), |log|);
  }

  /** In a window of at most ten entries, a rate above 0.9 means every entry succeeded. */
  lemma {:induction false} SmallWindowRate(k: nat, n: nat)
    requires 0 < n <= 10 && k <= n
    ensures k as real / n as real > 0.9 <==> k == n
  {
    var nr := n as real;
    if k < n {
      assert k as real <= nr - 1.0;
      assert nr - 1.0 <= 0.9 * nr;
      DivideAtMost(k as real, nr, 0.9);
    } else {
      assert k as real >= 1.0 * nr;
      DivideAtLeast(k as real, nr, 1.0);
    }
  }

  /** A share of successes lies in [0, 1]. */
  lemma {:induction false} RateInUnit(k: nat, n: nat)
    requires 0 < n && k <= n
    ensures 0.0 <= k as real / n as real <= 1.0
  {
    assert k as real <= 1.0 * n as real;
    DivideAtMost(k as real, n as real, 1.0);
  }

  lemma {:induction false} DivideAtLeast(a: real, n: real, c: real)
    requires n > 0.0 && a >= c * n
    ensures a / n >= c
  {
  }

  lemma {:induction false} DivideAtMost(a: real, n: real, c: real)
    requires n > 0.0 && a <= c * n
    ensures a / n <= c
  {
  }

  // ---------------------------------------------------------------------
  // Confidence score
  // ---------------------------------------------------------------------

  datatype ConfidenceLevel = HighConfidence | MediumConfidence | LowConfidence

  datatype Confidence = Confidence(score: real, level: ConfidenceLevel, demand: bool, route: bool, cost: bool, risk: bool)

  /** One component's share: its full weight on success, the failure credit of it otherwise. */
  function Credit(weight: real, succeeded: bool, failureCredit: real): real {
    weight * (if succeeded then 1.0 else failureCredit)
  }

  /** The weighted score: demand 0.25, route 0.30, cost 0.25, risk 0.20, with failure
      credits 0.3, 0.2, 0.4 and 0.6. */
  function ConfidenceScore(demand: bool, route: bool, cost: bool, risk: bool): (score: real)
    ensures 0.355 <= score <= 1.0
    ensures score == 1.0 <==> demand && route && cost && risk
  {
    Credit(0.25, demand, 0.3) + Credit(0.30, route, 0.2) + Credit(0.25, cost, 0.4) + Credit(0.20, risk, 0.6)
  }

  /** What each failing component costs the score. */
  lemma {:induction false} ConfidencePenalties(demand: bool, route: bool, cost: bool, risk: bool)
    ensures ConfidenceScore(demand, route, cost, risk) ==
      1.0 - (if demand then 0.0 else 0.175) - (if route then 0.0 else 0.24)
          - (if cost then 0.0 else 0.15) - (if risk then 0.0 else 0.08)
  {
  }

  /** `_calculate_confidence_score`: High above 0.8, Medium above 0.6, otherwise Low. */
  function ConfidenceOf(demand: bool, route: bool, cost: bool, risk: bool): (c: Confidence)
    ensures c.score == ConfidenceScore(demand, route, cost, risk)
    ensures c.level == HighConfidence <==> c.score > 0.8
    ensures c.level == LowConfidence <==> c.score <= 0.6
    ensures c.demand == demand && c.route == route && c.cost == cost && c.risk == risk
  {
    var score := ConfidenceScore(demand, route, cost, risk);
    var level := if score > 0.8 then HighConfidence else if score > 0.6 then MediumConfidence else LowConfidence;
    Confidence(score, level, demand, route, cost, risk)
  }

  function Failures(demand: bool, route: bool, cost: bool, risk: bool): nat {
    (if demand then 0 else 1) + (if route then 0 else 1) + (if cost then 0 else 1) + (if risk then 0 else 1)
  }

  /** High confidence needs the route and at most one other failure. */
  lemma {:induction false} HighConfidenceIff(demand: bool, route: bool, cost: bool, risk: bool)
    ensures ConfidenceOf(demand, route, cost, risk).level == HighConfidence <==>
      route && Failures(demand, route, cost, risk) <= 1
  {
    ConfidencePenalties(demand, route, cost, risk);
  }

  /** Confidence is Low exactly when demand and route both fail, or three components fail. */
  lemma {:induction false} LowConfidenceIff(demand: bool, route: bool, cost: bool, risk: bool)
    ensures ConfidenceOf(demand, route, cost, risk).level == LowConfidence <==>
      (!demand && !route) || Failures(demand, route, cost, risk) >= 3
  {
    ConfidencePenalties(demand, route, cost, risk);
  }

  /** A component that recovers never lowers the score. */
  lemma {:induction false} ConfidenceMonotone(demand: bool, route: bool, cost: bool, risk: bool)
    ensures ConfidenceScore(demand, route, cost, risk) <= ConfidenceScore(true, route, cost, risk)
    ensures ConfidenceScore(demand, route, cost, risk) <= ConfidenceScore(demand, true, cost, risk)
    ensures ConfidenceScore(demand, route, cost, risk) <= ConfidenceScore(demand, route, true, risk)
    ensures ConfidenceScore(demand, route, cost, risk) <= ConfidenceScore(demand, route, cost, true)
  {
    ConfidencePenalties(demand, route, cost, risk);
    ConfidencePenalties(true, route, cost, risk);
    ConfidencePenalties(demand, true, cost, risk);
    ConfidencePenalties(demand, route, true, risk);
    ConfidencePenalties(demand, route, cost, true);
  }

  // ---------------------------------------------------------------------
  // Scenario adjustments
  // ---------------------------------------------------------------------

  /** The keys of the risk dictionary the orchestrator reads or writes. */
  datatype RiskKey =
    | ConditionKey | TempKey | HumidityKey | WindKey | RiskLevelKey | SourceKey
    | ScenarioOverrideKey | AdditionalRiskKey | OtherKey(name: string)

  datatype Value = Str(text: string) | Flag(flag: bool)

  type RiskFields = map<RiskKey, Value>

  const HighLabel: string := "\U{1F534} High"
  const MediumLabel: string := "\U{1F7E1} Medium"
  const LowLabel: string := "\U{1F7E2} Low"

  const MonsoonOverrides: RiskFields := map[
    ConditionKey := Str("Heavy Rain"),
    TempKey := Str("22°C"),
    HumidityKey := Str("85%"),
    WindKey := Str("25 km/h"),
    RiskLevelKey := Str(HighLabel),
    ScenarioOverrideKey := Flag(true),
    AdditionalRiskKey := Str("Monsoon weather conditions")
  ]

  const StrikeRisk: string := "Labor disruption affecting logistics"
  const UrgencyRisk: string := "Time pressure for urgent delivery"

  predicate MonsoonLike(scenario: string) {
    Contains(scenario, "Monsoon") || Contains(scenario, "Weather")
  }

  /** `_adjust_risk_for_scenario` on a copy: a weather scenario overrides the weather fields
      and raises the level to High; a strike raises it to High; an emergency sets Medium.
      A risk value that is not a dictionary (`None`) becomes `{risk_level: Medium}` first. */
  function AdjustRisk(risk: Option<RiskFields>, scenario: string): (r: RiskFields)
    ensures MonsoonLike(scenario) ==> forall k :: k in MonsoonOverrides ==> k in r && r[k] == MonsoonOverrides[k]
    ensures !MonsoonLike(scenario) && Contains(scenario, "Strike") ==>
      RiskLevelKey in r && r[RiskLevelKey] == Str(HighLabel) &&
      AdditionalRiskKey in r && r[AdditionalRiskKey] == Str(StrikeRisk)
    ensures !MonsoonLike(scenario) && !Contains(scenario, "Strike") && Contains(scenario, "Emergency") ==>
      RiskLevelKey in r && r[RiskLevelKey] == Str(MediumLabel) &&
      AdditionalRiskKey in r && r[AdditionalRiskKey] == Str(UrgencyRisk)
  {
    var base := match risk case Some(fields) => fields case None => map[RiskLevelKey := Str(MediumLabel)];
    if MonsoonLike(scenario) then base + MonsoonOverrides
    else if Contains(scenario, "Strike") then base[RiskLevelKey := Str(HighLabel)][AdditionalRiskKey := Str(StrikeRisk)]
    else if Contains(scenario, "Emergency") then base[RiskLevelKey := Str(MediumLabel)][AdditionalRiskKey := Str(UrgencyRisk)]
    else base
  }

  /** The adjustment only adds or overwrites: every field of the input survives, and a field
      the scenario does not touch keeps its value; a scenario naming none of the four words
      returns the input unchanged. */
  lemma {:induction false} AdjustRiskKeepsFields(fields: RiskFields, scenario: string, k: RiskKey)
    requires k in fields
    ensures k in AdjustRisk(Some(fields), scenario)
    ensures k !in MonsoonOverrides && k != RiskLevelKey && k != AdditionalRiskKey ==>
      AdjustRisk(Some(fields), scenario)[k] == fields[k]
    ensures !MonsoonLike(scenario) && !Contains(scenario, "Strike") && !Contains(scenario, "Emergency") ==>
      AdjustRisk(Some(fields), scenario) == fields
  {
  }

  /** The Monsoon Disruption scenario takes the weather override. */
  lemma {:induction false} MonsoonScenarioOverridesWeather()
    ensures MonsoonLike(MonsoonDisruption)
  {
    var s := MonsoonDisruption;
    assert s[3..10] == "Monsoon";
    assert OccursAt(s, "Monsoon", 3);
  }

  /** The Industrial Strike scenario takes the strike override and not the weather one. */
  lemma {:induction false} StrikeScenarioRaisesRisk()
    ensures !MonsoonLike(IndustrialStrike) && Contains(IndustrialStrike, "Strike")
  {
    var s := IndustrialStrike;
    assert s[13..19] == "Strike";
    assert OccursAt(s, "Strike", 13);
    assert Avoids(s, 'M') && Avoids(s, 'W');
    AvoidsFirstLetter(s, "Monsoon");
    AvoidsFirstLetter(s, "Weather");
  }

  /** Normal Operations names none of the four words, so its risk passes through unchanged. */
  lemma {:induction false} NormalScenarioKeepsRisk(risk: Option<RiskFields>)
    ensures AdjustRisk(risk, NormalOperations) ==
      match risk case Some(fields) => fields case None => map[RiskLevelKey := Str(MediumLabel)]
  {
    NormalOperationsNamesNone();
  }

  /** The Normal Operations label contains none of Monsoon, Weather, Strike and Emergency. */
  lemma {:induction false} NormalOperationsNamesNone()
    ensures !MonsoonLike(NormalOperations)
    ensures !Contains(NormalOperations, "Strike") && !Contains(NormalOperations, "Emergency")
  {
    var s := NormalOperations;
    assert Avoids(s, 'M');
    assert Avoids(s, 'W');
    assert Avoids(s, 'S');
    assert Avoids(s, 'E');
    AvoidsFirstLetter(s, "Monsoon");
    AvoidsFirstLetter(s, "Weather");
    AvoidsFirstLetter(s, "Strike");
    AvoidsFirstLetter(s, "Emergency");
  }

  /** The demand, price and vendor totals after a scenario's multipliers. */
  datatype Adjusted = Adjusted(forecast: real, forecastOriginal: real, price: real, originalPrice: real, vendorTotals: seq<real>)

  function Scale(values: seq<real>, factor: real): (r: seq<real>)
    ensures |r| == |values|
    ensures forall i :: 0 <= i < |values| ==> r[i] == values[i] * factor
  {
    seq(|values|, i requires 0 <= i < |values| => values[i] * factor)
  }

  /** The scenario multipliers of `_execute_computational_agents`: the forecast by the demand
      multiplier, the best price and every vendor's total cost by the cost multiplier; the
      originals are kept beside them. */
  function ApplyScenario(forecast: real, price: real, vendorTotals: seq<real>, scenario: string): (a: Adjusted)
    ensures a.forecastOriginal == forecast && a.originalPrice == price
    ensures a.forecast == forecast * GetScenarioConfig(scenario).demandMultiplier
    ensures a.price == price * GetScenarioConfig(scenario).costMultiplier
    ensures |a.vendorTotals| == |vendorTotals|
    ensures forall i :: 0 <= i < |vendorTotals| ==>
      a.vendorTotals[i] == vendorTotals[i] * GetScenarioConfig(scenario).costMultiplier
  {
    var config := GetScenarioConfig(scenario);
    Adjusted(forecast * config.demandMultiplier, forecast, price * config.costMultiplier, price,
             Scale(vendorTotals, config.costMultiplier))
  }

  /** No scenario makes shipping cheaper, and none reorders the vendors by total cost. */
  lemma {:induction false} ScenarioKeepsCostOrder(forecast: real, price: real, vendorTotals: seq<real>, scenario: string, i: nat, j: nat)
    requires price >= 0.0 && i < |vendorTotals| && j < |vendorTotals|
    ensures ApplyScenario(forecast, price, vendorTotals, scenario).price >= price
    ensures vendorTotals[i] <= vendorTotals[j] <==>
      ApplyScenario(forecast, price, vendorTotals, scenario).vendorTotals[i]
        <= ApplyScenario(forecast, price, vendorTotals, scenario).vendorTotals[j]
  {
    ScenarioMultipliersPositive(scenario);
    var m := GetScenarioConfig(scenario).costMultiplier;
    assert price * m - price == price * (m - 1.0);
    assert vendorTotals[j] * m - vendorTotals[i] * m == (vendorTotals[j] - vendorTotals[i]) * m;
  }

  // ---------------------------------------------------------------------
  // Cost fallbacks
  // ---------------------------------------------------------------------

  /** The single row of `_create_fallback_vendors`. */
  datatype VendorRow = VendorRow(
    vendor: string,
    totalCost: real,
    costPerKm: real,
    emissionPerKm: real,
    reliabilityScore: real,
    deliverySpeed: string,
    serviceQuality: real,
    compositeScore: real,
    rank: nat)

  datatype CostResult = CostResult(vendor: string, price: real, vendors: seq<VendorRow>)

  function MaxOne(d: real): real {
    if d >= 1.0 then d else 1.0
  }

  /** A one-vendor table whose cost per km is the price over the distance (at least 1 km). */
  function FallbackVendors(vendor: string, price: real, distanceKm: real): (t: seq<VendorRow>)
    ensures |t| == 1 && t[0].vendor == vendor && t[0].totalCost == price && t[0].rank == 1
    ensures t[0].costPerKm * MaxOne(distanceKm) == price
  {
    [VendorRow(vendor, price, price / MaxOne(distanceKm), 0.6, 7.5, "Standard", 7.0, 7.0, 1)]
  }

  const CostFallbackRate: real := 3.0

  /** `_get_cost_fallback`: Emergency Logistics at 3.0 per km. */
  function CostFallback(distanceKm: real): (r: CostResult)
    ensures r.vendor == "Emergency Logistics" && r.price == CostFallbackRate * distanceKm
    ensures r.vendors == FallbackVendors(r.vendor, r.price, distanceKm)
  {
    CostResult("Emergency Logistics", distanceKm * CostFallbackRate, FallbackVendors("Emergency Logistics", distanceKm * CostFallbackRate, distanceKm))
  }

  /** The fallback's cost per km is its rate from 1 km on, and less below 1 km. */
  lemma {:induction false} CostFallbackRateIff(distanceKm: real)
    requires distanceKm >= 0.0
    ensures CostFallback(distanceKm).vendors[0].costPerKm <= CostFallbackRate
    ensures CostFallback(distanceKm).vendors[0].costPerKm == CostFallbackRate <==> distanceKm >= 1.0
  {
    var row := CostFallback(distanceKm).vendors[0];
    if distanceKm < 1.0 {
      assert row.costPerKm == CostFallbackRate * distanceKm;
    }
  }

  /** What `compare_vendors` handed back to `_safe_cost_analysis`. */
  datatype CostReply =
    | Triple(vendor: string, price: real, vendors: seq<VendorRow>)
    | Pair(vendor: string, price: real)
    | OtherShape
    | CostRaised

  /** `_safe_cost_analysis`: always three values, whatever the analyser did. */
  function SafeCostAnalysis(reply: CostReply, distanceKm: real): (r: CostResult)
    ensures reply.Triple? ==> r == CostResult(reply.vendor, reply.price, reply.vendors)
    ensures reply.Pair? ==> r.vendor == reply.vendor && r.price == reply.price && |r.vendors| == 1
    ensures reply.OtherShape? || reply.CostRaised? ==> r == CostFallback(distanceKm)
  {
    match reply
    case Triple(vendor, price, vendors) => CostResult(vendor, price, vendors)
    case Pair(vendor, price) => CostResult(vendor, price, FallbackVendors(vendor, price, distanceKm))
    case _ => CostFallback(distanceKm)
  }

  // ---------------------------------------------------------------------
  // Emergency results
  // ---------------------------------------------------------------------

  datatype RouteInfo = RouteInfo(path: seq<string>, distanceKm: real, duration: string, source: string)

  datatype EmergencyResults = EmergencyResults(
    forecast: real,
    scenario: string,
    route: RouteInfo,
    bestVendor: string,
    bestPrice: real,
    risk: RiskFields,
    confidenceLevel: ConfidenceLevel)

  const EmergencyRate: real := 3.5

  const EmergencyRisk: RiskFields := map[RiskLevelKey := Str(MediumLabel), ConditionKey := Str("Unknown")]

  /** `_create_emergency_results`: the matrix distance priced at 3.5 per km, 100 orders,
      Medium risk and Low confidence. */
  function EmergencyResultsFor(origin: string, destination: string, scenario: string): (r: EmergencyResults)
    ensures r.route.path == [origin, destination] && r.route.distanceKm == GetDistance(origin, destination) as real
    ensures r.bestPrice == EmergencyRate * r.route.distanceKm && r.bestPrice > 0.0
    ensures r.risk == EmergencyRisk && r.confidenceLevel == LowConfidence
  {
    var distance := GetDistance(origin, destination) as real;
    EmergencyResults(100.0, scenario, RouteInfo([origin, destination], distance, "12-18 hours", "Emergency estimation"),
      "Emergency Logistics", distance * EmergencyRate,
      EmergencyRisk, LowConfidence)
  }

  /** The emergency price is above the cost fallback's for the same route. */
  lemma {:induction false} EmergencyPricierThanCostFallback(origin: string, destination: string, scenario: string)
    ensures EmergencyResultsFor(origin, destination, scenario).bestPrice >
      CostFallback(GetDistance(origin, destination) as real).price
  {
  }

  // ---------------------------------------------------------------------
  // The orchestrator
  // ---------------------------------------------------------------------

  /** What the computational agents produced, after the scenario adjustments. */
  datatype AnalysisResults = AnalysisResults(
    adjusted: Adjusted,
    demandSuccess: bool,
    route: RouteInfo,
    routeSuccess: bool,
    bestVendor: string,
    vendors: seq<VendorRow>,
    costSuccess: bool,
    risk: RiskFields,
    riskSuccess: bool)

  function Totals(rows: seq<VendorRow>): (t: seq<real>)
    ensures |t| == |rows| && forall i :: 0 <= i < |rows| ==> t[i] == rows[i].totalCost
  {
    seq(|rows|, i requires 0 <= i < |rows| => rows[i].totalCost)
  }

  function WithTotals(rows: seq<VendorRow>, totals: seq<real>): (r: seq<VendorRow>)
    requires |totals| == |rows|
    ensures |r| == |rows| && forall i :: 0 <= i < |rows| ==> r[i] == rows[i].(totalCost := totals[i])
  {
    seq(|rows|, i requires 0 <= i < |rows| => rows[i].(totalCost := totals[i]))
  }

  /** The route used when the route agent raises. */
  function FallbackRouteInfo(origin: string, destination: string): RouteInfo {
    RouteInfo([origin, destination], GetDistance(origin, destination) as real, "Estimated 12-18 hours", "Fallback estimation")
  }

  const ClearWeather: RiskFields := map[
    ConditionKey := Str("Clear"),
    TempKey := Str("25°C"),
    HumidityKey := Str("60%"),
    WindKey := Str("10 km/h"),
    RiskLevelKey := Str(LowLabel),
    SourceKey := Str("Fallback")
  ]

  /** The entry `_execute_with_fallback` logs: SUCCESS with the result, or FAILED with the message. */
  function EntryFor<T>(outcome: Outcome<T>, agentName: string, duration: real, now: string): (e: LogEntry)
    ensures e.status == Succeeded <==> outcome.Returned?
    ensures e.status == Failed <==> outcome.Raised?
    ensures e.step == agentName + "_execution" && e.durationSeconds == duration && e.timestamp == now
  {
    match outcome
    case Returned(_, rendered) => LogEntry(now, agentName + "_execution", Succeeded, duration, Summary(rendered))
    case Raised(message) => LogEntry(now, agentName + "_execution", Failed, duration, Summary(Payload(message, message != [])))
  }

  function ValueOr<T>(outcome: Outcome<T>, fallback: T): T {
    match outcome
    case Returned(value, _) => value
    case Raised(_) => fallback
  }

  class Orchestrator {
    var executionLog: seq<LogEntry>

    constructor()
      ensures executionLog == []
    {
      executionLog := [];
    }

    /** `_log_execution_step`: appends exactly one entry. */
    method LogExecutionStep(step: string, status: Status, data: Payload, duration: real, now: string)
      modifies this`executionLog
      ensures executionLog == old(executionLog) + [LogEntry(now, step, status, duration, Summary(data))]
    {
      executionLog := executionLog + [LogEntry(now, step, status, duration, Summary(data))];
    }

    /** `_execute_with_fallback`: the agent's value and `true`, or the fallback and `false`;
        either way one SUCCESS or FAILED entry is logged. */
    method ExecuteWithFallback<T>(outcome: Outcome<T>, fallback: T, agentName: string, duration: real, now: string)
      returns (result: T, succeeded: bool)
      modifies this`executionLog
      ensures succeeded <==> outcome.Returned?
      ensures result == ValueOr(outcome, fallback)
      ensures executionLog == old(executionLog) + [EntryFor(outcome, agentName, duration, now)]
    {
      match outcome {
        case Returned(value, rendered) =>
          LogExecutionStep(agentName + "_execution", Succeeded, rendered, duration, now);
          result, succeeded := value, true;
        case Raised(message) =>
          LogExecutionStep(agentName + "_execution", Failed, Payload(message, message != []), duration, now);
          result, succeeded := fallback, false;
      }
    }

    /** `_calculate_system_health` over the current log. */
    function SystemHealth(): (h: Health)
      reads this
      ensures h.Initializing? <==> executionLog == []
    {
      HealthOf(executionLog)
    }

    /** `_execute_computational_agents`: the four agents in order (demand, route, cost, risk),
        each through the fallback wrapper and each logged once, then the scenario
        multipliers and the risk override. */
    method ExecuteComputationalAgents(calls: AgentCalls, origin: string, destination: string, scenario: string,
                                      durations: Durations, now: string)
      returns (results: AnalysisResults)
      modifies this`executionLog
      ensures results == Analysis(calls, origin, destination, scenario)
      ensures executionLog == old(executionLog) + AgentEntries(calls, CostStep(calls, origin, destination), durations, now)
    {
      ghost var log0 := executionLog;
      var forecast, demandOk := ExecuteWithFallback(calls.demand, calls.ordersMean, "demand", durations.demand, now);
      var routeInfo, routeOk := ExecuteWithFallback(calls.route, FallbackRouteInfo(origin, destination), "route", durations.route, now);
      var cost := SafeCostAnalysis(calls.costReply, routeInfo.distanceKm);
      var costResult, costOk := ExecuteWithFallback(Returned(cost, Payload(calls.costRendered, true)),
        CostResult("Fallback Vendor", 5000.0, FallbackVendors("Fallback Logistics", 5000.0, 1000.0)), "cost", durations.cost, now);
      var riskFields, riskOk := ExecuteWithFallback(calls.risk, Some(ClearWeather), "risk", durations.risk, now);
      var adjusted := ApplyScenario(forecast, costResult.price, Totals(costResult.vendors), scenario);
      results := AnalysisResults(adjusted, demandOk, routeInfo, routeOk, costResult.vendor,
        WithTotals(costResult.vendors, adjusted.vendorTotals), costOk, AdjustRisk(riskFields, scenario), riskOk);
      AppendFour(log0, executionLog, EntryFor(calls.demand, "demand", durations.demand, now),
        EntryFor(calls.route, "route", durations.route, now), EntryFor(Returned(cost, Payload(calls.costRendered, true)), "cost", durations.cost, now),
        EntryFor(calls.risk, "risk", durations.risk, now));
    }
  }

  /** What the four agents did: the demand agent's forecast (and the order mean used when it
      raises), the route agent, the cost analyser's reply with the rendering of the cost step's
      result, and the weather check. */
  datatype AgentCalls = AgentCalls(
    demand: Outcome<real>,
    ordersMean: real,
    route: Outcome<RouteInfo>,
    costReply: CostReply,
    costRendered: string,
    risk: Outcome<Option<RiskFields>>)

  datatype Durations = Durations(demand: real, route: real, cost: real, risk: real)

  /** What the cost step returns: `_safe_cost_analysis` on the distance of the route in use. */
  function CostStep(calls: AgentCalls, origin: string, destination: string): CostResult {
    SafeCostAnalysis(calls.costReply, ValueOr(calls.route, FallbackRouteInfo(origin, destination)).distanceKm)
  }

  /** The four log entries of one run, in the order the agents run; the cost step, which
      cannot raise, always logs SUCCESS. */
  function AgentEntries(calls: AgentCalls, cost: CostResult, durations: Durations, now: string)
    : (entries: seq<LogEntry>)
    ensures |entries| == 4
    ensures entries[0].status == Succeeded <==> calls.demand.Returned?
    ensures entries[1].status == Succeeded <==> calls.route.Returned?
    ensures entries[2].status == Succeeded
    ensures entries[3].status == Succeeded <==> calls.risk.Returned?
  {
    [EntryFor(calls.demand, "demand", durations.demand, now),
     EntryFor(calls.route, "route", durations.route, now),
     EntryFor(Returned(cost, Payload(calls.costRendered, true)), "cost", durations.cost, now),
     EntryFor(calls.risk, "risk", durations.risk, now)]
  }

  /** The results of one run: the agents' values or their fallbacks, with the scenario
      applied. The cost step reports success whatever the analyser did, because
      `_safe_cost_analysis` turns every failure into the fallback quote. */
  function Analysis(calls: AgentCalls, origin: string, destination: string, scenario: string): (r: AnalysisResults)
    ensures r.demandSuccess <==> calls.demand.Returned?
    ensures r.routeSuccess <==> calls.route.Returned?
    ensures r.costSuccess
    ensures r.riskSuccess <==> calls.risk.Returned?
    ensures r.route == ValueOr(calls.route, FallbackRouteInfo(origin, destination))
    ensures r.adjusted.forecastOriginal == ValueOr(calls.demand, calls.ordersMean)
    ensures r.risk == AdjustRisk(ValueOr(calls.risk, Some(ClearWeather)), scenario)
  {
    var route := ValueOr(calls.route, FallbackRouteInfo(origin, destination));
    var cost := SafeCostAnalysis(calls.costReply, route.distanceKm);
    var adjusted := ApplyScenario(ValueOr(calls.demand, calls.ordersMean), cost.price, Totals(cost.vendors), scenario);
    AnalysisResults(adjusted, calls.demand.Returned?, route, calls.route.Returned?, cost.vendor,
      WithTotals(cost.vendors, adjusted.vendorTotals), true,
      AdjustRisk(ValueOr(calls.risk, Some(ClearWeather)), scenario), calls.risk.Returned?)
  }

  lemma {:induction false} AppendFour(log0: seq<LogEntry>, log4: seq<LogEntry>, e1: LogEntry, e2: LogEntry, e3: LogEntry, e4: LogEntry)
    requires log4 == log0 + [e1] + [e2] + [e3] + [e4]
    ensures log4 == log0 + [e1, e2, e3, e4]
  {
    assert [e1] + [e2] + [e3] + [e4] == [e1, e2, e3, e4];
  }

  /** Because the cost step cannot raise, the confidence of a run never loses the cost share:
      it is at least 0.505 and never Low when the demand or the route agent succeeds. */
  lemma {:induction false} CostNeverFailsConfidence(demand: bool, route: bool, risk: bool)
    ensures ConfidenceScore(demand, route, true, risk) >= 0.505
    ensures demand || route ==> ConfidenceOf(demand, route, true, risk).level != LowConfidence
  {
    ConfidencePenalties(demand, route, true, risk);
    LowConfidenceIff(demand, route, true, risk);
  }
}
