/**
 * The constant tables of the configuration class and their three lookups:
 * scenario multipliers (with a default scenario), city coordinates (keyed by
 * the normalised city name, with a default point) and the inter-city distance
 * matrix (looked up in either direction, with a default distance).
 */
module Config {
  import opened Text

  /** Multipliers and risk label of one what-if scenario. */
  datatype ScenarioConfig = ScenarioConfig(demandMultiplier: real, costMultiplier: real, riskLevel: string)

  datatype Coordinates = Coordinates(latitude: real, longitude: real)

  const NormalOperations: string := "\U{1F7E2} Normal Operations"
  const PeakSeason: string := "\U{1F4C8} Peak Season Demand (+40%)"
  const FuelSurge: string := "\U{1F4B0} Fuel Price Surge (+25%)"
  const MonsoonDisruption: string := "\U{1F32A}\U{FE0F} Monsoon Disruption"
  const EmergencySupply: string := "\U{26A1} Emergency Supply"
  const IndustrialStrike: string := "\U{1F3ED} Industrial Strike"

  const Scenarios: map<string, ScenarioConfig> := map[
    NormalOperations := ScenarioConfig(1.0, 1.0, "Low"),
    PeakSeason := ScenarioConfig(1.4, 1.1, "Medium"),
    FuelSurge := ScenarioConfig(1.0, 1.25, "Medium"),
    MonsoonDisruption := ScenarioConfig(0.9, 1.15, "High"),
    EmergencySupply := ScenarioConfig(1.2, 1.3, "Medium"),
    IndustrialStrike := ScenarioConfig(1.0, 1.2, "High")
  ]

  const CityCoordinates: map<string, Coordinates> := map[
    "mumbai" := Coordinates(19.0760, 72.8777),
    "delhi" := Coordinates(28.7041, 77.1025),
    "bangalore" := Coordinates(12.9716, 77.5946),
    "chennai" := Coordinates(13.0827, 80.2707),
    "kolkata" := Coordinates(22.5726, 88.3639),
    "hyderabad" := Coordinates(17.3850, 78.4867),
    "pune" := Coordinates(18.5204, 73.8567),
    "ahmedabad" := Coordinates(23.0225, 72.5714),
    "jaipur" := Coordinates(26.9124, 75.7873),
    "lucknow" := Coordinates(26.8467, 80.9462),
    "kanpur" := Coordinates(26.4499, 80.3319),
    "nagpur" := Coordinates(21.1458, 79.0882),
    "indore" := Coordinates(22.7196, 75.8577),
    "bhopal" := Coordinates(23.2599, 77.4126)
  ]

  const DefaultCoordinates: Coordinates := Coordinates(23.5, 77.5)

  /** A road distance in km; every tabled distance is positive. */
  type Km = n: nat | n > 0 witness 1

  /** Road distances in km, each unordered pair stored once. */
  const DistanceMatrix: map<(string, string), Km> := map[
    ("mumbai", "delhi") := 1400,
    ("mumbai", "bangalore") := 980,
    ("mumbai", "chennai") := 1340,
    ("mumbai", "kolkata") := 2000,
    ("mumbai", "hyderabad") := 710,
    ("mumbai", "pune") := 150,
    ("mumbai", "ahmedabad") := 530,
    ("delhi", "bangalore") := 2150,
    ("delhi", "chennai") := 2180,
    ("delhi", "kolkata") := 1500,
    ("delhi", "hyderabad") := 1580,
    ("delhi", "jaipur") := 280,
    ("delhi", "lucknow") := 550,
    ("bangalore", "chennai") := 350,
    ("bangalore", "hyderabad") := 570,
    ("bangalore", "kolkata") := 1880,
    ("chennai", "kolkata") := 1670,
    ("chennai", "hyderabad") := 630
  ]

  const DefaultDistance: Km := 1200

  /** `get_scenario_config`: the named scenario, or Normal Operations for any other name. */
  function GetScenarioConfig(scenario: string): (r: ScenarioConfig)
    ensures scenario in Scenarios ==> r == Scenarios[scenario]
    ensures scenario !in Scenarios ==> r.demandMultiplier == 1.0 && r.costMultiplier == 1.0 && r.riskLevel == "Low"
  {
    if scenario in Scenarios then Scenarios[scenario] else Scenarios[NormalOperations]
  }

  /** Every scenario scales demand and cost by a positive factor, and never lowers cost. */
  lemma ScenarioMultipliersPositive(scenario: string)
    ensures GetScenarioConfig(scenario).demandMultiplier > 0.0
    ensures GetScenarioConfig(scenario).costMultiplier >= 1.0
  {
  }

  /** `get_city_coordinates`: lookup by the lower-cased, stripped name, defaulting to central India. */
  function GetCityCoordinates(city: string): (r: Coordinates)
    ensures Normalize(city) in CityCoordinates ==> r == CityCoordinates[Normalize(city)]
    ensures Normalize(city) !in CityCoordinates ==> r == Coordinates(23.5, 77.5)
  {
    var key := Normalize(city);
    if key in CityCoordinates then CityCoordinates[key] else DefaultCoordinates
  }

  /** City lookup ignores case and surrounding whitespace. */
  lemma CityLookupIgnoresSpelling(city: string)
    ensures GetCityCoordinates(Normalize(city)) == GetCityCoordinates(city)
    ensures GetCityCoordinates(Lower(city)) == GetCityCoordinates(city)
  {
    NormalizeIdempotent(city);
    NormalizeOfLower(city);
  }

  /** `get_distance`: the pair as given, else reversed, else 1200 km. */
  function GetDistance(origin: string, destination: string): (r: Km)
    ensures (Normalize(origin), Normalize(destination)) in DistanceMatrix ==>
              r == DistanceMatrix[(Normalize(origin), Normalize(destination))]
    ensures ((Normalize(origin), Normalize(destination)) !in DistanceMatrix &&
             (Normalize(destination), Normalize(origin)) in DistanceMatrix) ==>
              r == DistanceMatrix[(Normalize(destination), Normalize(origin))]
    ensures ((Normalize(origin), Normalize(destination)) !in DistanceMatrix &&
             (Normalize(destination), Normalize(origin)) !in DistanceMatrix) ==> r == 1200
  {
    var key1 := (Normalize(origin), Normalize(destination));
    var key2 := (Normalize(destination), Normalize(origin));
    if key1 in DistanceMatrix then DistanceMatrix[key1]
    else if key2 in DistanceMatrix then DistanceMatrix[key2]
    else DefaultDistance
  }

  /** The shipped matrix never stores a pair in both orders. */
  lemma NoPairStoredTwice(a: string, b: string)
    requires (a, b) in DistanceMatrix
    ensures (b, a) !in DistanceMatrix
  {
  }

  /** Because no pair is stored in both orders, the distance lookup is symmetric. */
  lemma GetDistanceSymmetric(origin: string, destination: string)
    ensures GetDistance(origin, destination) == GetDistance(destination, origin)
  {
    var o, d := Normalize(origin), Normalize(destination);
    if (o, d) in DistanceMatrix {
      NoPairStoredTwice(o, d);
    } else if (d, o) in DistanceMatrix {
      NoPairStoredTwice(d, o);
    }
  }
}
