/**
 * The route estimates of `RouteOptimizerAgent` that do not depend on the
 * maps service: the duration text it writes and reads back, the choice of
 * a fallback route from the route store's intelligence, the emergency
 * estimate, and the score recorded after a delivery.
 */
module RouteOptimizer {
  import opened Wrappers
  import opened Text
  import opened Config
  import opened VectorDb

  // ---------------------------------------------------------------------
  // Duration text
  // ---------------------------------------------------------------------

  /** Python's `int(x)` on a float: truncation toward zero. */
  function Trunc(x: real): (n: int)
    ensures x >= 0.0 ==> 0 <= n && n as real <= x < n as real + 1.0
    ensures x < 0.0 ==> n <= 0 && n as real - 1.0 < x <= n as real
  {
    if x >= 0.0 then x.Floor else -((-x).Floor)
  }

  /** `_hours_to_duration_text`: the duration in whole minutes, written out. */
  function DurationText(hours: real): string {
    WholeMinutesText(Trunc(hours * 60.0))
  }

  /** Whole minutes split into hours and the remaining minutes (`//` and `%` by 60,
      which floor as Dafny's do for a positive divisor); a zero part is not written. */
  function WholeMinutesText(total: int): string {
    var h := total / 60;
    var m := total % 60;
    if h > 0 && m > 0 then NatToString(h) + " hours " + NatToString(m) + " mins"
    else if h > 0 then NatToString(h) + " hours"
    else NatToString(m) + " mins"
  }

  /** `int(parts[-1])` over `text.split()`; 0 when there is no word, None when `int` raises. */
  function LastInt(text: string): Option<int> {
    match LastWord(text)
    case None => Some(0)
    case Some(w) => ParseInt(w)
  }

  /** The hours field of lower-cased text: the last word before the first "hour".
      (`strip()` before `split()` changes nothing, so it is not repeated here.) */
  function HoursField(d: string): Option<int> {
    if Contains(d, "hour") then LastInt(BeforeFirst(d, "hour")) else Some(0)
  }

  /** The text the minutes are read from: before the first "min", and after the first "hour" in it. */
  function MinutesText(d: string): string {
    var part := BeforeFirst(d, "min");
    if Contains(part, "hour") then SecondField(part, "hour") else part
  }

  function MinutesField(d: string): Option<int> {
    if Contains(d, "min") then LastInt(MinutesText(d)) else Some(0)
  }

  /** `_parse_duration_to_hours`. When an `int` conversion fails, the first run of digits
      is taken as hours, and 12 hours when there is none. */
  function ParseDuration(text: string): real {
    var d := Lower(text);
    var h := HoursField(d);
    var m := MinutesField(d);
    if h.Some? && m.Some? then h.value as real + m.value as real / 60.0
    else match FirstNumber(text)
      case Some(n) => n as real
      case None => 12.0
  }

  /** A text naming neither hours nor minutes reads as no time at all. */
  lemma {:induction false} NoUnitsIsZero(text: string)
    requires !Contains(Lower(text), "hour") && !Contains(Lower(text), "min")
    ensures ParseDuration(text) == 0.0
  {
  }

  /** Writing a non-negative duration and reading it back gives it to the whole minute. */
  lemma {:induction false} DurationRoundTrip(hours: real)
    requires hours >= 0.0
    ensures ParseDuration(DurationText(hours)) == Trunc(hours * 60.0) as real / 60.0
  {
    WholeMinutesRoundTrip(Trunc(hours * 60.0));
  }

  lemma {:induction false} WholeMinutesRoundTrip(total: nat)
    ensures ParseDuration(WholeMinutesText(total)) == total as real / 60.0
  {
    var h := total / 60;
    var m := total % 60;
    assert total == 60 * h + m && h >= 0;
    assert total as real / 60.0 == h as real + m as real / 60.0;
    var text := WholeMinutesText(total);
    if h > 0 && m > 0 {
      assert text == NatToString(h) + " hours " + NatToString(m) + " mins";
      HoursAndMinutes(h, m);
    } else if h > 0 {
      assert text == NatToString(h) + " hours";
      HoursOnly(h);
    } else {
      assert text == NatToString(m) + " mins";
      assert h == 0 && total == m;
      MinutesOnly(m);
    }
  }

  lemma {:induction false} DigitsAvoid(w: string, c: char)
    requires AllDigits(w) && !IsDigit(c)
    ensures Avoids(w, c)
  {
  }

  lemma {:induction false} AvoidsAppend(a: string, b: string, c: char)
    requires Avoids(a, c) && Avoids(b, c)
    ensures Avoids(a + b, c)
  {
  }

  lemma {:induction false} NoUpperAppend(a: string, b: string)
    requires NoUpper(a) && NoUpper(b)
    ensures NoUpper(a + b)
  {
  }

  /** Digits are already lower case. */
  lemma {:induction false} DigitsNoUpper(w: string)
    requires AllDigits(w)
    ensures NoUpper(w)
  {
  }

  /** The unit words of the duration text, letter by letter. */
  lemma {:induction false} UnitWords()
    ensures " hours " == " " + "hour" + "s " && " hours" == " " + "hour" + "s" && " mins" == " " + "min" + "s"
    ensures NoUpper(" hours ") && NoUpper(" hours") && NoUpper(" mins")
    ensures Avoids(" hours ", 'm') && Avoids(" hours", 'm') && Avoids(" mins", 'h')
    ensures Avoids(" ", 'h') && Avoids(" ", 'm') && Avoids("s ", 'h')
  {
    var hours, mins := " hours ", " mins";
    assert hours[0] == ' ' && hours[1] == 'h' && hours[2] == 'o' && hours[3] == 'u' && hours[4] == 'r'
      && hours[5] == 's' && hours[6] == ' ';
    assert mins[0] == ' ' && mins[1] == 'm' && mins[2] == 'i' && mins[3] == 'n' && mins[4] == 's';
  }

  /** The number written just before the first `pat`, where `pat` starts with a letter. */
  lemma {:induction false} NumberBefore(w: string, pat: string, rest: string)
    requires w != [] && AllDigits(w) && pat != [] && !IsDigit(pat[0]) && pat[0] != ' '
    ensures Contains(w + " " + pat + rest, pat)
    ensures LastInt(BeforeFirst(w + " " + pat + rest, pat)) == Some(DigitsValue(w) as int)
  {
    var a := w + " ";
    DigitsAvoid(w, pat[0]);
    AvoidsAppend(w, " ", pat[0]);
    FirstOccurrence(a, pat, rest);
    assert [] + w + " " == a;
    LastWordOf([], w);
  }

  /** The number after "hours " and before the first "min". */
  lemma {:induction false} MinutesAfterHours(hs: string, ms: string)
    requires hs != [] && AllDigits(hs) && ms != [] && AllDigits(ms)
    ensures var c := hs + " " + "hour" + ("s " + ms + " ");
      Contains(c, "hour") && LastInt(SecondField(c, "hour")) == Some(DigitsValue(ms) as int)
  {
    var a := hs + " ";
    var tail := "s " + ms + " ";
    UnitWords();
    DigitsAvoid(hs, 'h');
    AvoidsAppend(hs, " ", 'h');
    FirstOccurrence(a, "hour", tail);
    var c := a + "hour" + tail;
    assert c[|a| + 4..] == tail;
    DigitsAvoid(ms, 'h');
    AvoidsAppend("s ", ms, 'h');
    AvoidsAppend("s " + ms, " ", 'h');
    AvoidsFirstLetter(tail, "hour");
    LastWordOf("s ", ms);
  }

  /** ParseDuration reads both fields when the text is lower case and both fields convert. */
  lemma {:induction false} ParseFields(text: string, h: int, m: int)
    requires Lower(text) == text && HoursField(text) == Some(h) && MinutesField(text) == Some(m)
    ensures ParseDuration(text) == h as real + m as real / 60.0
  {
  }

  /** "H hours M mins" is already lower case. */
  lemma {:induction false} HoursMinutesLower(hs: string, ms: string)
    requires AllDigits(hs) && AllDigits(ms)
    ensures Lower(hs + " hours " + ms + " mins") == hs + " hours " + ms + " mins"
  {
    UnitWords();
    DigitsNoUpper(hs);
    DigitsNoUpper(ms);
    NoUpperAppend(hs, " hours ");
    NoUpperAppend(hs + " hours ", ms);
    NoUpperAppend(hs + " hours " + ms, " mins");
    LowerOfNoUpper(hs + " hours " + ms + " mins");
  }

  lemma {:induction false} HoursMinutesHours(hs: string, ms: string)
    requires hs != [] && AllDigits(hs) && AllDigits(ms)
    ensures HoursField(hs + " hours " + ms + " mins") == Some(DigitsValue(hs) as int)
  {
    UnitWords();
    var rest := "s " + ms + " mins";
    assert hs + " hours " + ms + " mins" == hs + " " + "hour" + rest;
    NumberBefore(hs, "hour", rest);
  }

  lemma {:induction false} HoursMinutesMinutes(hs: string, ms: string)
    requires hs != [] && AllDigits(hs) && ms != [] && AllDigits(ms)
    ensures MinutesField(hs + " hours " + ms + " mins") == Some(DigitsValue(ms) as int)
  {
    UnitWords();
    var c := hs + " hours " + ms + " ";
    var text := hs + " hours " + ms + " mins";
    assert text == c + "min" + "s";
    DigitsAvoid(hs, 'm');
    DigitsAvoid(ms, 'm');
    AvoidsAppend(hs, " hours ", 'm');
    AvoidsAppend(hs + " hours ", ms, 'm');
    AvoidsAppend(hs + " hours " + ms, " ", 'm');
    FirstOccurrence(c, "min", "s");
    assert c == hs + " " + "hour" + ("s " + ms + " ");
    MinutesAfterHours(hs, ms);
  }

  lemma {:induction false} HoursAndMinutes(h: nat, m: nat)
    requires h > 0 && 0 < m < 60
    ensures ParseDuration(NatToString(h) + " hours " + NatToString(m) + " mins") == h as real + m as real / 60.0
  {
    var hs, ms := NatToString(h), NatToString(m);
    HoursMinutesLower(hs, ms);
    HoursMinutesHours(hs, ms);
    HoursMinutesMinutes(hs, ms);
    NatToStringRoundTrip(h);
    NatToStringRoundTrip(m);
    ParseFields(hs + " hours " + ms + " mins", h, m);
  }

  lemma {:induction false} HoursOnlyFields(hs: string)
    requires hs != [] && AllDigits(hs)
    ensures Lower(hs + " hours") == hs + " hours"
    ensures HoursField(hs + " hours") == Some(DigitsValue(hs) as int)
    ensures MinutesField(hs + " hours") == Some(0)
  {
    var text := hs + " hours";
    UnitWords();
    DigitsNoUpper(hs);
    NoUpperAppend(hs, " hours");
    LowerOfNoUpper(text);
    assert text == hs + " " + "hour" + "s";
    NumberBefore(hs, "hour", "s");
    DigitsAvoid(hs, 'm');
    AvoidsAppend(hs, " hours", 'm');
    AvoidsFirstLetter(text, "min");
  }

  lemma {:induction false} HoursOnly(h: nat)
    requires h > 0
    ensures ParseDuration(NatToString(h) + " hours") == h as real
  {
    var hs := NatToString(h);
    HoursOnlyFields(hs);
    NatToStringRoundTrip(h);
    ParseFields(hs + " hours", h, 0);
  }

  lemma {:induction false} MinutesOnlyLower(ms: string)
    requires AllDigits(ms)
    ensures Lower(ms + " mins") == ms + " mins"
  {
    UnitWords();
    DigitsNoUpper(ms);
    NoUpperAppend(ms, " mins");
    LowerOfNoUpper(ms + " mins");
  }

  lemma {:induction false} MinutesOnlyHours(ms: string)
    requires AllDigits(ms)
    ensures HoursField(ms + " mins") == Some(0)
  {
    UnitWords();
    DigitsAvoid(ms, 'h');
    AvoidsAppend(ms, " mins", 'h');
    AvoidsFirstLetter(ms + " mins", "hour");
  }

  lemma {:induction false} MinutesOnlyBefore(ms: string)
    requires AllDigits(ms)
    ensures Contains(ms + " mins", "min") && BeforeFirst(ms + " mins", "min") == ms + " "
  {
    UnitWords();
    DigitsAvoid(ms, 'm');
    AvoidsAppend(ms, " ", 'm');
    assert ms + " mins" == ms + " " + "min" + "s";
    FirstOccurrence(ms + " ", "min", "s");
  }

  lemma {:induction false} MinutesOnlyMinutes(ms: string)
    requires ms != [] && AllDigits(ms)
    ensures MinutesField(ms + " mins") == Some(DigitsValue(ms) as int)
  {
    MinutesOnlyBefore(ms);
    UnitWords();
    DigitsAvoid(ms, 'h');
    AvoidsAppend(ms, " ", 'h');
    AvoidsFirstLetter(ms + " ", "hour");
    assert [] + ms + " " == ms + " ";
    LastWordOf([], ms);
  }

  lemma {:induction false} MinutesOnly(m: nat)
    ensures ParseDuration(NatToString(m) + " mins") == m as real / 60.0
  {
    var ms := NatToString(m);
    MinutesOnlyLower(ms);
    MinutesOnlyHours(ms);
    MinutesOnlyMinutes(ms);
    NatToStringRoundTrip(m);
    ParseFields(ms + " mins", 0, m);
  }


  /** `int(h * 3600)` agrees with the whole minutes the text shows: it lies in the same minute. */
  lemma {:induction false} SecondsWithinShownMinute(hours: real)
    requires hours >= 0.0
    ensures var minutes := Trunc(hours * 60.0);
      60 * minutes <= Trunc(hours * 3600.0) < 60 * minutes + 60
  {
    var minutes := Trunc(hours * 60.0);
    assert hours * 3600.0 == 60.0 * (hours * 60.0);
  }

  // ---------------------------------------------------------------------
  // Fallback routes
  // ---------------------------------------------------------------------

  /** Where an estimate comes from (the agent writes this into `source` and `route_quality`). */
  datatype Basis =
    | Historical(previousRoutes: nat)
    | SimilarRoute(similarity: real)
    | MatrixEstimate
    | EmergencyEstimate

  datatype RouteEstimate = RouteEstimate(
    path: seq<string>,
    distanceKm: real,
    duration: string,
    durationSeconds: int,
    basis: Basis,
    reliabilityWarning: bool)

  /** The intelligence holds a positive historical average distance. */
  predicate HasHistory(intel: Intelligence) {
    intel.averages.Some? && intel.averages.value.distance > 0.0
  }

  /** Distance, hours and basis of the fallback, in the agent's order of preference:
      history, then the most similar stored route, then the matrix at 50 km/h. */
  function FallbackBasis(origin: string, destination: string, intel: Intelligence): (e: (real, real, Basis))
    ensures HasHistory(intel) ==>
      e == (intel.averages.value.distance, intel.averages.value.duration, Historical(intel.directRoutes)) && e.0 > 0.0
    ensures !HasHistory(intel) && intel.similarRoutes != [] ==>
      e.0 == intel.similarRoutes[0].distanceKm && e.1 == intel.similarRoutes[0].durationHours
    ensures !HasHistory(intel) && intel.similarRoutes == [] ==>
      e.0 == GetDistance(origin, destination) as real && e.1 == e.0 / 50.0 && e.1 > 0.0
  {
    if HasHistory(intel) then
      (intel.averages.value.distance, intel.averages.value.duration, Historical(intel.directRoutes))
    else if intel.similarRoutes != [] then
      var reference := intel.similarRoutes[0];
      (reference.distanceKm, reference.durationHours,
       SimilarRoute(match reference.similarityScore case Some(s) => s case None => 0.0))
    else
      var distance := GetDistance(origin, destination) as real;
      (distance, distance / 50.0, MatrixEstimate)
  }

  /** A route estimate from distance and hours: text and seconds both derived from the hours. */
  function Estimate(origin: string, destination: string, distance: real, hours: real, basis: Basis, warning: bool)
    : RouteEstimate
  {
    RouteEstimate([origin, destination], distance, DurationText(hours), Trunc(hours * 3600.0), basis, warning)
  }

  /** `_get_intelligent_fallback_route`. */
  function FallbackRoute(origin: string, destination: string, intel: Intelligence): (r: RouteEstimate)
    ensures r.path == [origin, destination] && !r.reliabilityWarning
    ensures var e := FallbackBasis(origin, destination, intel);
      r.distanceKm == e.0 && r.duration == DurationText(e.1) && r.durationSeconds == Trunc(e.1 * 3600.0)
    ensures r.basis.Historical? <==> HasHistory(intel)
    ensures r.basis.SimilarRoute? <==> !HasHistory(intel) && intel.similarRoutes != []
    ensures r.basis == MatrixEstimate <==> !HasHistory(intel) && intel.similarRoutes == []
  {
    var e := FallbackBasis(origin, destination, intel);
    Estimate(origin, destination, e.0, e.1, e.2, false)
  }

  /** A route's duration text and its seconds describe the same duration, to the minute. */
  lemma {:induction false} DurationConsistent(hours: real)
    requires hours >= 0.0
    ensures var shown := ParseDuration(DurationText(hours));
      3600.0 * shown <= Trunc(hours * 3600.0) as real < 3600.0 * shown + 60.0
  {
    DurationRoundTrip(hours);
    SecondsWithinShownMinute(hours);
  }

  /** So do those of every estimate the agent builds without the maps service. */
  lemma {:induction false} EstimateDurationConsistent(origin: string, destination: string, distance: real,
                                                      hours: real, basis: Basis, warning: bool)
    requires hours >= 0.0
    ensures var r := Estimate(origin, destination, distance, hours, basis, warning);
      var shown := ParseDuration(r.duration);
      3600.0 * shown <= r.durationSeconds as real < 3600.0 * shown + 60.0
  {
    var r := Estimate(origin, destination, distance, hours, basis, warning);
    assert r.duration == DurationText(hours) && r.durationSeconds == Trunc(hours * 3600.0);
    DurationConsistent(hours);
  }

  /** The estimate for `distance` km at a conservative 45 km/h, flagged as unreliable. */
  function ConservativeEstimate(origin: string, destination: string, distance: real): (r: RouteEstimate)
    ensures r.path == [origin, destination] && r.basis == EmergencyEstimate && r.reliabilityWarning
    ensures r.distanceKm == distance
    ensures r.duration == DurationText(distance / 45.0) && r.durationSeconds == Trunc(distance / 45.0 * 3600.0)
  {
    Estimate(origin, destination, distance, distance / 45.0, EmergencyEstimate, true)
  }

  /** `_create_emergency_fallback`: the conservative estimate for the matrix distance. */
  function EmergencyRoute(origin: string, destination: string): (r: RouteEstimate)
    ensures r.distanceKm == GetDistance(origin, destination) as real
    ensures r == ConservativeEstimate(origin, destination, r.distanceKm)
  {
    ConservativeEstimate(origin, destination, GetDistance(origin, destination) as real)
  }

  /** The emergency estimate never takes less time than the matrix-based fallback. */
  lemma {:induction false} EmergencyNotFaster(origin: string, destination: string, intel: Intelligence)
    requires !HasHistory(intel) && intel.similarRoutes == []
    ensures EmergencyRoute(origin, destination).durationSeconds >= FallbackRoute(origin, destination, intel).durationSeconds
    ensures EmergencyRoute(origin, destination).distanceKm == FallbackRoute(origin, destination, intel).distanceKm
  {
    var distance := GetDistance(origin, destination) as real;
    assert distance / 45.0 * 3600.0 >= distance / 50.0 * 3600.0;
  }

  // ---------------------------------------------------------------------
  // Delivery performance
  // ---------------------------------------------------------------------

  /** `record_delivery_performance`'s score: 4 or 1 for punctuality, up to 3 for
      satisfaction (capped at 10), and a flat 3 for cost. */
  function DeliveryScore(onTime: bool, satisfaction: real): (score: real)
    ensures satisfaction >= 0.0 ==> 4.0 <= score <= 10.0
    ensures satisfaction >= 10.0 ==> score == if onTime then 10.0 else 7.0
  {
    var capped := if satisfaction < 10.0 then satisfaction else 10.0;
    (if onTime then 4.0 else 1.0) + capped / 10.0 * 3.0 + 3.0
  }

  /** More satisfaction never lowers the score, and punctuality is worth exactly 3 points. */
  lemma {:induction false} DeliveryScoreOrder(onTime: bool, a: real, b: real)
    requires a <= b
    ensures DeliveryScore(onTime, a) <= DeliveryScore(onTime, b)
    ensures DeliveryScore(true, a) == DeliveryScore(false, a) + 3.0
  {
  }

  /** Records the score in the route store; the actual duration is not used. */
  method RecordDeliveryPerformance(db: RouteVectorDB, origin: string, destination: string,
                                   actualDurationHours: real, actualCost: real, onTime: bool,
                                   satisfaction: real, now: string)
    modifies db`performanceHistory
    ensures db.performanceHistory == old(db.performanceHistory) +
      [PerformanceRecord(Normalize(origin), Normalize(destination), DeliveryScore(onTime, satisfaction), actualCost, now)]
    ensures db.routes == old(db.routes)
  {
    var score := DeliveryScore(onTime, satisfaction);
    db.RecordPerformance(origin, destination, score, actualCost, now);
  }
}
