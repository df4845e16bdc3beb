/**
 * The weather risk scoring of `RiskMonitorAgent`: the additive score built
 * from a current-weather reading, the seasonal estimate used when no reading
 * is available, the emergency report, the recommendation lists and the
 * assessment of a multi-day forecast. Calendar month and hour of day are
 * parameters; the weather service itself is not modelled.
 */
module RiskMonitor {
  import opened Wrappers
  import opened Text

  datatype Level = Low | Medium | High

  /** The level as the agent writes it. */
  function Label(l: Level): string {
    match l
    case Low => "🟢 Low"
    case Medium => "🟡 Medium"
    case High => "🔴 High"
  }

  function Severity(l: Level): nat {
    match l
    case Low => 0
    case Medium => 1
    case High => 2
  }

  function Worse(a: Level, b: Level): (r: Level)
    ensures Severity(r) >= Severity(a) && Severity(r) >= Severity(b)
    ensures r == a || r == b
  {
    if Severity(a) >= Severity(b) then a else b
  }

  // Keyword categories. The agent also lists low-risk words ('clear',
  // 'sunny', 'partly cloudy', 'overcast') but never consults them.
  const HighRiskWords: seq<string> := ["storm", "thunder", "cyclone", "snow", "blizzard", "tornado", "hurricane"]
  const MediumRiskWords: seq<string> := ["rain", "drizzle", "fog", "mist", "cloudy"]
  const MonsoonMonths: seq<int> := [6, 7, 8, 9]
  const WinterMonths: seq<int> := [12, 1, 2]

  /** The risk factors the agent can name, current-weather and seasonal estimate alike. */
  datatype Factor =
    | SevereWeather | ModerateWeather | HighWinds | ModerateWinds | ExtremeTemperatures
    | TemperatureConcerns | HighHumidity | MonsoonSeason | WinterConditions
    | MonsoonRain | WinterFog | SummerHeat | CoastalVariability | DelhiWinterFog | EarlyMorningFog
    | DataUnavailable | AnalysisError

  function FactorText(f: Factor): string {
    match f
    case SevereWeather => "Severe weather conditions"
    case ModerateWeather => "Moderate weather impact"
    case HighWinds => "High wind speeds"
    case ModerateWinds => "Moderate winds"
    case ExtremeTemperatures => "Extreme temperatures"
    case TemperatureConcerns => "Temperature concerns"
    case HighHumidity => "High humidity"
    case MonsoonSeason => "Monsoon season"
    case WinterConditions => "Winter conditions"
    case MonsoonRain => "Monsoon season - higher rain probability"
    case WinterFog => "Winter season - fog/visibility issues"
    case SummerHeat => "Summer season - heat considerations"
    case CoastalVariability => "Coastal location - weather variability"
    case DelhiWinterFog => "Delhi winter - fog and pollution"
    case EarlyMorningFog => "Early morning - potential fog/mist"
    case DataUnavailable => "Weather data unavailable"
    case AnalysisError => "Analysis error"
  }

  /** Every piece of advice the agent can give. */
  datatype Advice =
    | PostponeDelivery | CoveredTransport | MoreInsurance | PlanForDelays | BackupRoutes
    | MonitorClosely | InformCustomer | ExperiencedDrivers | EquippedVehicle | ContingencyPlan
    | StandardPrecautions | MonitorInTransit | NormalSchedule
    | SecureCargo | Waterproofing | ExtraTime | TemperatureProtection
    | MonitorManually | PrepareForDelays | ContingencyReady
    | RainAdvice | WindAdvice | FavourableAdvice | MonitorConditionsManually

  function AdviceText(a: Advice): string {
    match a
    case PostponeDelivery => "Consider postponing delivery if possible"
    case CoveredTransport => "Use covered/protected transport vehicles"
    case MoreInsurance => "Increase insurance coverage for this delivery"
    case PlanForDelays => "Plan for significant delays and extra costs"
    case BackupRoutes => "Have backup routes and vendors ready"
    case MonitorClosely => "Monitor weather conditions closely"
    case InformCustomer => "Inform customer of potential delays"
    case ExperiencedDrivers => "Use experienced drivers familiar with conditions"
    case EquippedVehicle => "Ensure vehicle is properly equipped"
    case ContingencyPlan => "Have contingency communication plan"
    case StandardPrecautions => "Proceed with standard precautions"
    case MonitorInTransit => "Monitor conditions during transit"
    case NormalSchedule => "Maintain normal delivery schedule"
    case SecureCargo => "Secure cargo properly for high winds"
    case Waterproofing => "Use waterproof packaging and covers"
    case ExtraTime => "Allow extra time for reduced visibility conditions"
    case TemperatureProtection => "Consider temperature-sensitive cargo protection"
    case MonitorManually => "Monitor local weather manually"
    case PrepareForDelays => "Prepare for potential delays"
    case ContingencyReady => "Have contingency plans ready"
    case RainAdvice => "Multiple days of rain expected - plan for delays"
    case WindAdvice => "High winds forecast - secure cargo properly"
    case FavourableAdvice => "Weather conditions appear favorable for delivery"
    case MonitorConditionsManually => "Monitor conditions manually"
  }

  /** A field of the weather service's dictionary: absent, present as `None`, or a value. */
  datatype Field<T> = Missing | Null | Given(value: T)

  /** `dict.get(key, default)` for a field that is not `None`. */
  function FieldOr<T>(f: Field<T>, default: T): T {
    match f
    case Given(v) => v
    case _ => default
  }

  /** A current-weather reading; absent fields take the agent's defaults. */
  datatype WeatherReading = WeatherReading(
    conditionRaw: Field<string>,
    windSpeed: Field<real>,
    temp: Field<real>,
    humidity: Field<real>)

  /**
   * A field present as `None` makes the analysis raise: `None.lower()` for
   * the condition, an ordering comparison with `None` for the numbers.
   */
  predicate Unreadable(r: WeatherReading) {
    r.conditionRaw.Null? || r.windSpeed.Null? || r.temp.Null? || r.humidity.Null?
  }

  function ValueOr<T>(o: Option<T>, default: T): T {
    match o
    case Some(v) => v
    case None => default
  }

  /** What one rule adds to the score, and the factor it names. */
  datatype Contribution = Contribution(points: nat, factor: Factor)

  // ---------------------------------------------------------------------
  // Current-weather analysis
  // ---------------------------------------------------------------------

  /** The condition rule: a high-risk keyword in the (lower-cased) condition
      adds 30, otherwise a medium-risk keyword adds 15. */
  function ConditionRisk(condition: string): Option<Contribution> {
    if ContainsAny(condition, HighRiskWords) then Some(Contribution(30, SevereWeather))
    else if ContainsAny(condition, MediumRiskWords) then Some(Contribution(15, ModerateWeather))
    else None
  }

  function WindRisk(wind: real): Option<Contribution> {
    if wind > 40.0 then Some(Contribution(20, HighWinds))
    else if wind > 25.0 then Some(Contribution(10, ModerateWinds))
    else None
  }

  function TemperatureRisk(temp: real): Option<Contribution> {
    if temp < 0.0 || temp > 45.0 then Some(Contribution(15, ExtremeTemperatures))
    else if temp < 5.0 || temp > 40.0 then Some(Contribution(8, TemperatureConcerns))
    else None
  }

  function HumidityRisk(humidity: real): Option<Contribution> {
    if humidity > 85.0 then Some(Contribution(5, HighHumidity)) else None
  }

  function SeasonRisk(month: int): Option<Contribution> {
    if month in MonsoonMonths then Some(Contribution(10, MonsoonSeason))
    else if month in WinterMonths then Some(Contribution(5, WinterConditions))
    else None
  }

  /** The points a rule adds. */
  function Gain(c: Option<Contribution>): nat {
    match c
    case Some(x) => x.points
    case None => 0
  }

  /** The factor a rule names, if it fires. */
  function Named(c: Option<Contribution>): seq<Factor> {
    match c
    case Some(x) => [x.factor]
    case None => []
  }

  // The reading's fields with the agent's defaults.
  function Condition(r: WeatherReading): string { Lower(FieldOr(r.conditionRaw, "")) }
  function Wind(r: WeatherReading): real { FieldOr(r.windSpeed, 0.0) }
  function Temperature(r: WeatherReading): real { FieldOr(r.temp, 25.0) }
  function Humidity(r: WeatherReading): real { FieldOr(r.humidity, 50.0) }

  /** The score of a reading: the five rules' points added up. */
  function WeatherScore(r: WeatherReading, month: int): (score: nat)
    ensures score <= 80
  {
    Gain(ConditionRisk(Condition(r))) + Gain(WindRisk(Wind(r))) + Gain(TemperatureRisk(Temperature(r)))
    + Gain(HumidityRisk(Humidity(r))) + Gain(SeasonRisk(month))
  }

  /** The factors of a reading, in the order the rules are applied. */
  function WeatherFactors(r: WeatherReading, month: int): (f: seq<Factor>)
    ensures |f| <= 5
  {
    Named(ConditionRisk(Condition(r))) + Named(WindRisk(Wind(r))) + Named(TemperatureRisk(Temperature(r)))
    + Named(HumidityRisk(Humidity(r))) + Named(SeasonRisk(month))
  }

  /** The level thresholds of the current-weather analysis. */
  function WeatherLevel(score: int): (l: Level)
    ensures l == High <==> score >= 50
    ensures l == Medium <==> 25 <= score < 50
    ensures l == Low <==> score < 25
  {
    if score >= 50 then High else if score >= 25 then Medium else Low
  }

  function WeatherImpact(l: Level): string {
    match l
    case High => "High risk of delays and operational challenges"
    case Medium => "Moderate risk, monitor conditions closely"
    case Low => "Minimal weather-related risks"
  }

  datatype Assessment = Assessment(
    level: Level,
    score: int,
    factors: seq<Factor>,
    impact: string,
    recommendations: seq<Advice>)

  /** The result of `_analyze_weather_risk` when it raises: a Medium 25 with one factor and one piece of advice. */
  function AnalysisFailed(): (a: Assessment)
    ensures a.level == WeatherLevel(a.score) == Medium
    ensures a.factors == [AnalysisError] && a.recommendations == [MonitorConditionsManually]
  {
    Assessment(Medium, 25, [AnalysisError], "Unable to assess weather risk", [MonitorConditionsManually])
  }

  /**
   * `_analyze_weather_risk`: the score and the factor list grow rule by rule;
   * a field present as `None` gives the error result instead.
   */
  method AnalyzeWeatherRisk(reading: WeatherReading, month: int) returns (a: Assessment)
    ensures Unreadable(reading) ==> a == AnalysisFailed()
    ensures !Unreadable(reading) ==> a.score == WeatherScore(reading, month) && 0 <= a.score <= 80
    ensures !Unreadable(reading) ==> a.factors == WeatherFactors(reading, month)
    ensures a.level == WeatherLevel(a.score)
    ensures !Unreadable(reading) ==> a.impact == WeatherImpact(a.level)
    ensures !Unreadable(reading) ==> a.recommendations == RiskRecommendations(a.score, a.factors)
  {
    if Unreadable(reading) {
      return AnalysisFailed();
    }
    var condition := Lower(FieldOr(reading.conditionRaw, ""));
    var wind := FieldOr(reading.windSpeed, 0.0);
    var temp := FieldOr(reading.temp, 25.0);
    var humidity := FieldOr(reading.humidity, 50.0);
    var score := 0;
    var factors: seq<Factor> := [];
    score, factors := Apply(score, factors, ConditionRisk(condition));
    assert factors == Named(ConditionRisk(Condition(reading)));
    score, factors := Apply(score, factors, WindRisk(wind));
    score, factors := Apply(score, factors, TemperatureRisk(temp));
    score, factors := Apply(score, factors, HumidityRisk(humidity));
    score, factors := Apply(score, factors, SeasonRisk(month));

    var level;
    if score >= 50 {
      level := High;
    } else if score >= 25 {
      level := Medium;
    } else {
      level := Low;
    }
    var recommendations := GetRiskRecommendations(score, factors);
    a := Assessment(level, score, factors, WeatherImpact(level), recommendations);
  }

  /** One rule firing: `risk_score += points; risk_factors.append(factor)`. */
  method Apply(score: int, factors: seq<Factor>, rule: Option<Contribution>) returns (score': int, factors': seq<Factor>)
    ensures score' == score + Gain(rule) && factors' == factors + Named(rule)
  {
    score', factors' := score, factors;
    if rule.Some? {
      score' := score' + rule.value.points;
      factors' := factors' + [rule.value.factor];
    }
  }

  /** The condition rule names at most one of its two factors: never both severe and moderate. */
  lemma {:induction false} ConditionFactorsExclusive(r: WeatherReading, month: int)
    ensures var f := WeatherFactors(r, month);
      !(SevereWeather in f && ModerateWeather in f)
  {
    var rest := Named(WindRisk(Wind(r))) + Named(TemperatureRisk(Temperature(r)))
      + Named(HumidityRisk(Humidity(r))) + Named(SeasonRisk(month));
    assert WeatherFactors(r, month) == Named(ConditionRisk(Condition(r))) + rest;
    assert SevereWeather !in rest && ModerateWeather !in rest;
  }

  /** "partly cloudy", although the agent lists it among the low-risk words, contains
      "cloudy" and so always adds at least the medium 15 points. */
  lemma {:induction false} PartlyCloudyIsNotLow(condition: string)
    requires Contains(condition, "partly cloudy")
    ensures ConditionRisk(condition).Some? && Gain(ConditionRisk(condition)) >= 15
  {
    ContainsIff(condition, "partly cloudy");
    var j: nat :| OccursAt(condition, "partly cloudy", j);
    assert condition[j + 7..j + 13] == condition[j..j + 13][7..13];
    assert OccursAt(condition, "cloudy", j + 7);
    ContainsIff(condition, "cloudy");
    assert Contains(condition, MediumRiskWords[4]);
  }

  // ---------------------------------------------------------------------
  // Recommendations
  // ---------------------------------------------------------------------

  const HighTier: seq<Advice> := [PostponeDelivery, CoveredTransport, MoreInsurance, PlanForDelays, BackupRoutes]
  const MediumTier: seq<Advice> := [MonitorClosely, InformCustomer, ExperiencedDrivers, EquippedVehicle, ContingencyPlan]
  const LowTier: seq<Advice> := [StandardPrecautions, MonitorInTransit, NormalSchedule]

  function Tier(score: int): (t: seq<Advice>)
    ensures score >= 25 ==> |t| == 5
    ensures score < 25 ==> t == LowTier
  {
    if score >= 50 then HighTier else if score >= 25 then MediumTier else LowTier
  }

  /** The four keyword tests the agent runs on each lower-cased factor. */
  datatype Topic = WindTopic | WetTopic | VisibilityTopic | TemperatureTopic

  function TopicWords(t: Topic): seq<string> {
    match t
    case WindTopic => ["wind"]
    case WetTopic => ["rain", "monsoon"]
    case VisibilityTopic => ["fog", "visibility"]
    case TemperatureTopic => ["temperature"]
  }

  /** The tests each factor's text passes (see `TopicsFoundInText`). */
  function Topics(f: Factor): set<Topic> {
    match f
    case HighWinds | ModerateWinds => {WindTopic}
    case ExtremeTemperatures | TemperatureConcerns => {TemperatureTopic}
    case MonsoonSeason | MonsoonRain => {WetTopic}
    case WinterFog | DelhiWinterFog | EarlyMorningFog => {VisibilityTopic}
    case _ => {}
  }

  /** Every test recorded for a factor does pass on its lower-cased text. */
  lemma TopicsFoundInText(f: Factor, t: Topic)
    requires t in Topics(f)
    ensures ContainsAny(Lower(FactorText(f)), TopicWords(t))
  {
    var s := Lower(FactorText(f));
    WindFactorsSayWind();
    TemperatureFactorsSayTemperature();
    MonsoonFactorsSayMonsoon();
    WinterFogSaysFog();
    FogFactorsSayFog();
    var k, at :| 0 <= k < |TopicWords(t)| && OccursAt(s, TopicWords(t)[k], at);
    ContainsIff(s, TopicWords(t)[k]);
  }

  // Where the keywords sit in the lower-cased factor texts.
  lemma WindFactorsSayWind()
    ensures OccursAt(Lower(FactorText(HighWinds)), "wind", 5)
    ensures OccursAt(Lower(FactorText(ModerateWinds)), "wind", 9)
  {
  }

  lemma TemperatureFactorsSayTemperature()
    ensures OccursAt(Lower(FactorText(ExtremeTemperatures)), "temperature", 8)
    ensures OccursAt(Lower(FactorText(TemperatureConcerns)), "temperature", 0)
  {
  }

  lemma MonsoonFactorsSayMonsoon()
    ensures OccursAt(Lower(FactorText(MonsoonSeason)), "monsoon", 0)
    ensures OccursAt(Lower(FactorText(MonsoonRain)), "monsoon", 0)
  {
  }

  lemma WinterFogSaysFog()
    ensures OccursAt(Lower(FactorText(WinterFog)), "fog", 16)
  {
    var s := Lower(FactorText(WinterFog));
    assert s[16] == 'f' && s[17] == 'o' && s[18] == 'g';
  }

  lemma FogFactorsSayFog()
    ensures OccursAt(Lower(FactorText(DelhiWinterFog)), "fog", 15)
    ensures OccursAt(Lower(FactorText(EarlyMorningFog)), "fog", 26)
  {
  }

  /** Some factor passes test `t`: `any(word in factor.lower() for factor in factors)`. */
  predicate Raises(factors: seq<Factor>, t: Topic) {
    exists i :: 0 <= i < |factors| && t in Topics(factors[i])
  }

  /** The advice `a` if some factor passes test `t`. */
  function ExtraFor(factors: seq<Factor>, t: Topic, a: Advice): (e: seq<Advice>)
    ensures |e| <= 1
  {
    if Raises(factors, t) then [a] else []
  }

  /** The factor-based extras, in the order the agent appends them. */
  function Extras(factors: seq<Factor>): (e: seq<Advice>)
    ensures |e| <= 4
  {
    ExtraFor(factors, WindTopic, SecureCargo)
    + ExtraFor(factors, WetTopic, Waterproofing)
    + ExtraFor(factors, VisibilityTopic, ExtraTime)
    + ExtraFor(factors, TemperatureTopic, TemperatureProtection)
  }

  /** `_get_risk_recommendations`: the tier for the score, then the extras, cut to five. */
  function RiskRecommendations(score: int, factors: seq<Factor>): (r: seq<Advice>)
    ensures |r| <= 5
    ensures |Tier(score)| <= |r| && r[..|Tier(score)|] == Tier(score)
    ensures score >= 25 ==> r == Tier(score)
    ensures score < 25 ==> |r| == 3 + (if |Extras(factors)| < 2 then |Extras(factors)| else 2)
    ensures forall k :: 0 <= k < |r| ==> r[k] in Tier(score) || r[k] in Extras(factors)
  {
    var all := Tier(score) + Extras(factors);
    var r := if |all| <= 5 then all else all[..5];
    assert forall k :: 0 <= k < |r| ==> r[k] == all[k];
    r
  }

  /** The same list, built the way the agent builds it: extend, append, slice. */
  method GetRiskRecommendations(score: int, factors: seq<Factor>) returns (r: seq<Advice>)
    ensures r == RiskRecommendations(score, factors)
  {
    var recommendations: seq<Advice>;
    if score >= 50 {
      recommendations := HighTier;
    } else if score >= 25 {
      recommendations := MediumTier;
    } else {
      recommendations := LowTier;
    }
    assert recommendations == Tier(score);
    recommendations := AppendIfRaised(recommendations, factors, WindTopic, SecureCargo);
    recommendations := AppendIfRaised(recommendations, factors, WetTopic, Waterproofing);
    recommendations := AppendIfRaised(recommendations, factors, VisibilityTopic, ExtraTime);
    recommendations := AppendIfRaised(recommendations, factors, TemperatureTopic, TemperatureProtection);
    assert recommendations == Tier(score) + Extras(factors);
    r := if |recommendations| <= 5 then recommendations else recommendations[..5];
  }

  /** One factor-based append: `if any(...): recommendations.append(a)`. */
  method AppendIfRaised(recommendations: seq<Advice>, factors: seq<Factor>, t: Topic, a: Advice)
    returns (r: seq<Advice>)
    ensures r == recommendations + ExtraFor(factors, t, a)
  {
    r := recommendations;
    if Raises(factors, t) {
      r := r + [a];
    }
  }

  /** Below 25 points the cargo advice is given exactly when some factor mentions "wind",
      because it is the first extra and always survives the cut to five. */
  lemma {:induction false} CargoAdviceIff(score: int, factors: seq<Factor>)
    requires score < 25
    ensures SecureCargo in RiskRecommendations(score, factors) <==> Raises(factors, WindTopic)
  {
    var r := RiskRecommendations(score, factors);
    var e := Extras(factors);
    assert SecureCargo !in LowTier;
    if Raises(factors, WindTopic) {
      assert e[0] == SecureCargo;
      assert r[3] == SecureCargo;
    } else {
      assert SecureCargo !in e;
    }
  }

  /** With both wind and rain among the factors of a low score, the fourth and fifth
      advice are the cargo and waterproofing items and nothing else fits. */
  lemma {:induction false} LowScoreWindAndRain(score: int, factors: seq<Factor>)
    requires score < 25
    requires Raises(factors, WindTopic) && Raises(factors, WetTopic)
    ensures RiskRecommendations(score, factors) == LowTier + [SecureCargo, Waterproofing]
  {
    var e := Extras(factors);
    assert e[..2] == [SecureCargo, Waterproofing];
    assert (LowTier + e)[..5] == LowTier + e[..2];
  }

  /** A moderate wind on an otherwise calm summer day scores 10 and earns the cargo advice. */
  lemma WindyCalmDay(wind: real)
    requires 25.0 < wind <= 40.0
    ensures var r := WeatherReading(Missing, Given(wind), Missing, Missing);
      WeatherScore(r, 4) == 10 && SecureCargo in RiskRecommendations(WeatherScore(r, 4), WeatherFactors(r, 4))
  {
    var r := WeatherReading(Missing, Given(wind), Missing, Missing);
    assert !ContainsAny("", HighRiskWords) && !ContainsAny("", MediumRiskWords);
    assert WeatherFactors(r, 4) == [ModerateWinds];
    assert WindTopic in Topics(WeatherFactors(r, 4)[0]);
    CargoAdviceIff(10, WeatherFactors(r, 4));
  }

  // ---------------------------------------------------------------------
  // Reports used when no reading is available
  // ---------------------------------------------------------------------

  datatype WeatherReport = WeatherReport(
    condition: string,
    temp: string,
    humidity: string,
    wind: string,
    level: Level,
    score: int,
    factors: seq<Factor>,
    impact: string,
    dataSource: string,
    recommendations: seq<Advice>,
    apiError: Option<string>,
    warning: Option<string>)

  /** The seasonal part of the estimate: points, factor and the assumed weather. */
  datatype Season = Season(points: nat, factor: Factor, condition: string, temp: string, humidity: string)

  function SeasonEstimate(month: int): (s: Season)
    ensures 5 <= s.points <= 20
    ensures s.points == 20 <==> month in MonsoonMonths
  {
    if month in MonsoonMonths then
      Season(20, MonsoonRain, "Partly Cloudy (Monsoon Season)", "28°C", "75%")
    else if month in WinterMonths then
      Season(10, WinterFog, "Clear (Winter)", "18°C", "60%")
    else
      Season(5, SummerHeat, "Clear", "32°C", "45%")
  }

  const CoastalCities: seq<string> := ["mumbai", "chennai", "kolkata"]
  const DelhiWinterMonths: seq<int> := [11, 12, 1]

  predicate Coastal(location: string) {
    ContainsAny(Lower(location), CoastalCities)
  }

  predicate DelhiWinter(location: string, month: int) {
    Contains(Lower(location), "delhi") && month in DelhiWinterMonths
  }

  predicate EarlyMorning(hour: int) {
    5 <= hour <= 7
  }

  function CoastalRisk(location: string): Option<Contribution> {
    if Coastal(location) then Some(Contribution(5, CoastalVariability)) else None
  }

  function DelhiRisk(location: string, month: int): Option<Contribution> {
    if DelhiWinter(location, month) then Some(Contribution(10, DelhiWinterFog)) else None
  }

  function MorningRisk(hour: int): Option<Contribution> {
    if EarlyMorning(hour) then Some(Contribution(5, EarlyMorningFog)) else None
  }

  /** The estimate's score. The monsoon months and Delhi's winter months do not
      overlap, so the score never exceeds 30. */
  function FallbackScore(location: string, month: int, hour: int): (score: nat)
    ensures 5 <= score <= 30
  {
    SeasonEstimate(month).points + Gain(CoastalRisk(location)) + Gain(DelhiRisk(location, month))
    + Gain(MorningRisk(hour))
  }

  function FallbackFactors(location: string, month: int, hour: int): seq<Factor> {
    [SeasonEstimate(month).factor] + Named(CoastalRisk(location)) + Named(DelhiRisk(location, month))
    + Named(MorningRisk(hour))
  }

  /** The seasonal estimate's levels: both upper bands are Medium, so it never reports High. */
  function FallbackLevel(score: int): (l: Level)
    ensures l != High
    ensures l == Medium <==> score >= 15
  {
    if score >= 30 then Medium else if score >= 15 then Medium else Low
  }

  function FallbackImpact(score: int): string {
    if score >= 30 then "Seasonal risk factors present"
    else if score >= 15 then "Some weather considerations"
    else "Minimal expected weather impact"
  }

  /** `_get_intelligent_weather_fallback`: season, coast, Delhi winter and early morning add up.
      `apiError` is the `error` entry of the failed request, if any. */
  method IntelligentFallback(location: string, apiError: Option<string>, month: int, hour: int)
    returns (w: WeatherReport)
    ensures w.score == FallbackScore(location, month, hour) && 5 <= w.score <= 30
    ensures w.factors == FallbackFactors(location, month, hour)
    ensures w.level == FallbackLevel(w.score) && w.level != High
    ensures w.humidity == if Coastal(location) then "70%" else SeasonEstimate(month).humidity
    ensures w.condition == SeasonEstimate(month).condition && w.temp == SeasonEstimate(month).temp
    ensures w.recommendations == RiskRecommendations(w.score, w.factors)
    ensures w.apiError == if apiError.Some? && apiError.value != "" then apiError else None
    ensures w.dataSource == "Intelligent Seasonal Estimation" && w.warning == None
    ensures w.wind == "15 km/h" && w.impact == FallbackImpact(w.score)
  {
    var season := SeasonEstimate(month);
    var risk: int := season.points;
    var factors := [season.factor];
    var humidity := season.humidity;
    var coastal := CoastalRisk(location);
    risk, factors := Apply(risk, factors, coastal);
    if coastal.Some? {
      humidity := "70%";
    }
    risk, factors := Apply(risk, factors, DelhiRisk(location, month));
    risk, factors := Apply(risk, factors, MorningRisk(hour));
    var level := FallbackLevel(risk);
    var recommendations := GetRiskRecommendations(risk, factors);
    var error := if apiError.Some? && apiError.value != "" then apiError else None;
    w := WeatherReport(season.condition, season.temp, humidity, "15 km/h", level, risk, factors,
      FallbackImpact(risk), "Intelligent Seasonal Estimation", recommendations, error, None);
  }

  /** A monsoon-month estimate for an inland city outside the early morning scores 20:
      Low on the weather scale's thresholds would say Low, the estimate says Medium, and
      the advice is the low tier plus waterproofing. */
  lemma {:induction false} InlandMonsoonEstimate(location: string, month: int, hour: int)
    requires month in MonsoonMonths && !Coastal(location) && !EarlyMorning(hour)
    ensures FallbackScore(location, month, hour) == 20
    ensures FallbackLevel(20) == Medium && WeatherLevel(20) == Low
    ensures Waterproofing in RiskRecommendations(20, FallbackFactors(location, month, hour))
  {
    var f := FallbackFactors(location, month, hour);
    assert f[0] == MonsoonRain;
    MonsoonFactorsSayMonsoon();
    assert ContainsAny(Lower(FactorText(f[0])), TopicWords(WetTopic)) by {
      ContainsIff(Lower(FactorText(MonsoonRain)), "monsoon");
      assert Contains(Lower(FactorText(MonsoonRain)), TopicWords(WetTopic)[1]);
    }
    assert WetTopic in Topics(f[0]);
    var e := Extras(f);
    assert Waterproofing in e;
    var r := RiskRecommendations(20, f);
    if Raises(f, WindTopic) {
      assert r[4] == Waterproofing;
    } else {
      assert r[3] == Waterproofing;
    }
  }

  /** `_get_emergency_fallback`: a fixed Medium report (the location is not consulted). */
  function EmergencyFallback(): (w: WeatherReport)
    ensures w.level == Medium && w.score == 25 && w.factors == [DataUnavailable]
    ensures |w.recommendations| == 3 && w.warning.Some?
  {
    WeatherReport("Unknown", "25°C", "60%", "10 km/h", Medium, 25, [DataUnavailable],
      "Unable to assess weather conditions", "Emergency Fallback",
      [MonitorManually, PrepareForDelays, ContingencyReady],
      None, Some("Weather assessment unavailable - use manual monitoring"))
  }

  /** The emergency report is at the same level and score as a Medium current-weather score of 25. */
  lemma EmergencyMatchesWeatherThreshold()
    ensures WeatherLevel(EmergencyFallback().score) == EmergencyFallback().level
  {
  }

  // ---------------------------------------------------------------------
  // Multi-day forecast
  // ---------------------------------------------------------------------

  /** One forecast day; absent fields take the agent's defaults. */
  datatype ForecastDay = ForecastDay(riskLevel: Option<string>, rainProbability: Option<real>, windSpeed: Option<real>)

  function DayLabel(d: ForecastDay): string {
    ValueOr(d.riskLevel, "🟡 Medium")
  }

  predicate AnyDayShows(days: seq<ForecastDay>, mark: char) {
    exists i :: 0 <= i < |days| && mark in DayLabel(days[i])
  }

  /** `_assess_forecast_risk`: a red mark on any day makes High, else a yellow one Medium. */
  function AssessForecastRisk(days: seq<ForecastDay>): Level {
    if AnyDayShows(days, '🔴') then High
    else if AnyDayShows(days, '🟡') then Medium
    else Low
  }

  /** How one day's label reads on its own. */
  function DayRisk(d: ForecastDay): Level {
    if '🔴' in DayLabel(d) then High else if '🟡' in DayLabel(d) then Medium else Low
  }

  /** The worst single day, scanning from the last day back. */
  function WorstDay(days: seq<ForecastDay>): Level
    decreases |days|
  {
    if days == [] then Low else Worse(WorstDay(days[..|days| - 1]), DayRisk(days[|days| - 1]))
  }

  /** The forecast's overall risk is that of its worst day. */
  lemma {:induction false} AssessIsWorstDay(days: seq<ForecastDay>)
    ensures AssessForecastRisk(days) == WorstDay(days)
    decreases |days|
  {
    if days != [] {
      var init := days[..|days| - 1];
      var last := days[|days| - 1];
      AssessIsWorstDay(init);
      assert AnyDayShows(days, '🔴') <==> AnyDayShows(init, '🔴') || '🔴' in DayLabel(last) by {
        if AnyDayShows(days, '🔴') && !('🔴' in DayLabel(last)) {
          var i :| 0 <= i < |days| && '🔴' in DayLabel(days[i]);
          assert i < |init| && init[i] == days[i];
        }
        if AnyDayShows(init, '🔴') {
          var i :| 0 <= i < |init| && '🔴' in DayLabel(init[i]);
          assert days[i] == init[i];
        }
      }
      assert AnyDayShows(days, '🟡') <==> AnyDayShows(init, '🟡') || '🟡' in DayLabel(last) by {
        if AnyDayShows(days, '🟡') && !('🟡' in DayLabel(last)) {
          var i :| 0 <= i < |days| && '🟡' in DayLabel(days[i]);
          assert i < |init| && init[i] == days[i];
        }
        if AnyDayShows(init, '🟡') {
          var i :| 0 <= i < |init| && '🟡' in DayLabel(init[i]);
          assert days[i] == init[i];
        }
      }
    }
  }

  /** A day without a risk level counts as Medium, so the forecast is then at least Medium. */
  lemma UnlabelledDayIsMedium(days: seq<ForecastDay>, i: int)
    requires 0 <= i < |days| && days[i].riskLevel.None?
    ensures AssessForecastRisk(days) != Low
  {
    assert '🟡' in DayLabel(days[i]) by {
      assert DayLabel(days[i])[0] == '🟡';
    }
  }

  function RainyDays(days: seq<ForecastDay>): (n: nat)
    ensures n <= |days|
    decreases |days|
  {
    if days == [] then 0
    else RainyDays(days[..|days| - 1]) + (if ValueOr(days[|days| - 1].rainProbability, 0.0) > 60.0 then 1 else 0)
  }

  function WindyDays(days: seq<ForecastDay>): (n: nat)
    ensures n <= |days|
    ensures n > 0 <==> exists i :: 0 <= i < |days| && ValueOr(days[i].windSpeed, 0.0) > 25.0
    decreases |days|
  {
    if days == [] then 0
    else
      var init := days[..|days| - 1];
      var n := WindyDays(init) + (if ValueOr(days[|days| - 1].windSpeed, 0.0) > 25.0 then 1 else 0);
      assert forall i :: 0 <= i < |init| ==> init[i] == days[i];
      n
  }


  /** `_get_forecast_recommendations`. */
  function ForecastRecommendations(days: seq<ForecastDay>): (r: seq<Advice>)
    ensures 1 <= |r| <= 2
    ensures RainAdvice in r <==> RainyDays(days) > 1
    ensures WindAdvice in r <==> WindyDays(days) > 0
    ensures FavourableAdvice in r <==> RainyDays(days) <= 1 && WindyDays(days) == 0
  {
    var r := (if RainyDays(days) > 1 then [RainAdvice] else [])
      + (if WindyDays(days) > 0 then [WindAdvice] else []);
    if r == [] then [FavourableAdvice] else r
  }

  /** A single day can never trigger the rain advice: it needs two rainy days. */
  lemma {:induction false} OneDayNoRainAdvice(d: ForecastDay)
    ensures RainAdvice !in ForecastRecommendations([d])
  {
    assert RainyDays([d]) <= 1;
  }
}
