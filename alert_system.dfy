/**
 * The real-time monitor `RealTimeMonitor`: six threshold checks (weather,
 * demand, vendor prices, capacity, routes, inventory) whose alerts are
 * gathered in a fixed order and appended to the monitor's alert list, and the
 * dashboard's display order (most urgent priority first, newest first within
 * a priority, at most ten shown).
 *
 * The simulated readings the checks draw at random arrive as a `Draws` value;
 * the clock reading is a parameter. Alert texts (titles, messages, actions,
 * impacts) are not modelled: an alert carries its priority, its type and the
 * numbers its `data` dictionary holds.
 */
module AlertSystem {

  // ---------------------------------------------------------------------
  // Alerts
  // ---------------------------------------------------------------------

  datatype Priority = Critical | High | Medium | Low | Info

  datatype AlertType = Weather | DemandSpike | VendorDeal | Capacity | Route | Inventory | CostSaving | RiskDetection

  datatype VendorOffer = VendorOffer(name: string, route: string, discount: int, validHours: int)

  datatype RouteCandidate = RouteCandidate(from: string, to: string, currentDistance: int, optimalDistance: int)

  datatype Product = Product(name: string, currentStock: int, dailyDemand: int, leadTimeDays: int)

  /** The `data` of each kind of alert, plus the figures its action text is computed from. */
  datatype Detail =
    | WeatherData(city: string, riskScore: real, affectedPackages: int)
    | DemandData(currentDemand: int, spikeRatio: real)
    | VendorData(offer: VendorOffer)
    | CapacityData(forecast: int, capacity: int, shortage: int, extraVehicles: int)
    | RouteData(route: RouteCandidate, savingsPercent: real)
    | InventoryData(product: Product, daysOfStock: real, orderUnits: int)

  /** `timestamp` is a clock reading in seconds. */
  datatype Alert = Alert(timestamp: int, priority: Priority, kind: AlertType, detail: Detail)

  /** One city's simulated weather reading: the risk score and the affected-package count. */
  datatype WeatherDraw = WeatherDraw(riskScore: real, affectedPackages: int)

  /** Everything one round of checks draws at random. */
  datatype Draws = Draws(weather: seq<WeatherDraw>, currentDemand: int, tomorrowForecast: int)

  // ---------------------------------------------------------------------
  // Thresholds and simulated inputs
  // ---------------------------------------------------------------------

  const WeatherRiskThreshold: real := 0.7
  const DemandSpikeThreshold: real := 1.3
  const CapacityCriticalThreshold: real := 0.9
  const AverageDemand: int := 1000
  const AvailableCapacity: int := 1200
  const DealDiscount: int := 30
  const RouteSavingsThreshold: real := 20.0
  const CheckInterval: int := 60

  const Cities: seq<string> := ["Mumbai", "Delhi", "Bangalore", "Chennai", "Kolkata"]

  const Vendors: seq<VendorOffer> := [
    VendorOffer("FastLog Express", "Delhi-Mumbai", 35, 24),
    VendorOffer("QuickShip Pro", "Bangalore-Chennai", 20, 12),
    VendorOffer("SwiftCargo", "Kolkata-Delhi", 40, 6)]

  const InefficientRoutes: seq<RouteCandidate> := [
    RouteCandidate("Warehouse A", "Sector 15", 45, 32),
    RouteCandidate("Hub B", "Industrial Area", 38, 28)]

  const Products: seq<Product> := [
    Product("iPhone 15", 45, 50, 3),
    Product("Samsung TV", 20, 25, 5)]

  /** One draw per simulated city. */
  predicate DrawsFit(d: Draws) {
    |d.weather| == |Cities|
  }

  // ---------------------------------------------------------------------
  // Weather
  // ---------------------------------------------------------------------

  function WeatherAlert(city: string, w: WeatherDraw, now: int): Alert {
    Alert(now, High, Weather, WeatherData(city, w.riskScore, w.affectedPackages))
  }

  /** The weather alerts, city by city in the given order: one per city whose risk score exceeds 0.7. */
  function WeatherAlerts(cities: seq<string>, draws: seq<WeatherDraw>, now: int): (r: seq<Alert>)
    requires |draws| == |cities|
    ensures |r| <= |cities|
    ensures forall a :: a in r ==>
      a.timestamp == now && a.priority == High && a.kind == Weather &&
      a.detail.WeatherData? && a.detail.riskScore > WeatherRiskThreshold
    decreases |cities|
  {
    if cities == [] then []
    else
      var n := |cities| - 1;
      WeatherAlerts(cities[..n], draws[..n], now) +
        (if draws[n].riskScore > WeatherRiskThreshold then [WeatherAlert(cities[n], draws[n], now)] else [])
  }

  /** A city is alerted exactly when its risk score exceeds the threshold. */
  lemma {:induction false} WeatherAlertIff(cities: seq<string>, draws: seq<WeatherDraw>, now: int, i: int)
    requires |draws| == |cities| && 0 <= i < |cities|
    ensures WeatherAlert(cities[i], draws[i], now) in WeatherAlerts(cities, draws, now)
      <==> draws[i].riskScore > WeatherRiskThreshold
    decreases |cities|
  {
    var n := |cities| - 1;
    if i < n && draws[i].riskScore > WeatherRiskThreshold {
      WeatherAlertIff(cities[..n], draws[..n], now, i);
      assert cities[..n][i] == cities[i] && draws[..n][i] == draws[i];
    }
  }

  // ---------------------------------------------------------------------
  // Demand
  // ---------------------------------------------------------------------

  function SpikeRatio(currentDemand: int): real {
    currentDemand as real / AverageDemand as real
  }

  /** The demand alert: raised when the current orders exceed 130% of the average of 1000. */
  function DemandAlerts(currentDemand: int, now: int): (r: seq<Alert>)
    ensures |r| <= 1
    ensures |r| == 1 <==> currentDemand > 1300
    ensures forall a :: a in r ==>
      a == Alert(now, High, DemandSpike, DemandData(currentDemand, SpikeRatio(currentDemand)))
  {
    if SpikeRatio(currentDemand) > DemandSpikeThreshold then
      [Alert(now, High, DemandSpike, DemandData(currentDemand, SpikeRatio(currentDemand)))]
    else []
  }

  // ---------------------------------------------------------------------
  // Vendor prices
  // ---------------------------------------------------------------------

  predicate IsDeal(v: VendorOffer) {
    v.discount >= DealDiscount
  }

  function VendorAlert(v: VendorOffer, now: int): Alert {
    Alert(now, Medium, VendorDeal, VendorData(v))
  }

  /** The vendor alerts, in offer order: one per offer of at least 30% off. */
  function VendorAlerts(offers: seq<VendorOffer>, now: int): (r: seq<Alert>)
    ensures |r| <= |offers|
    ensures forall a :: a in r ==>
      a.timestamp == now && a.priority == Medium && a.kind == VendorDeal &&
      a.detail.VendorData? && a.detail.offer in offers && IsDeal(a.detail.offer)
    decreases |offers|
  {
    if offers == [] then []
    else
      var n := |offers| - 1;
      VendorAlerts(offers[..n], now) + (if IsDeal(offers[n]) then [VendorAlert(offers[n], now)] else [])
  }

  /** An offer is alerted exactly when it is a deal. */
  lemma {:induction false} VendorAlertIff(offers: seq<VendorOffer>, now: int, i: int)
    requires 0 <= i < |offers|
    ensures VendorAlert(offers[i], now) in VendorAlerts(offers, now) <==> offers[i].discount >= 30
    decreases |offers|
  {
    var n := |offers| - 1;
    if i < n && IsDeal(offers[i]) {
      VendorAlertIff(offers[..n], now, i);
      assert offers[..n][i] == offers[i];
    }
  }

  /** Of the three simulated offers, the first (35% off) and the third (40% off) are alerted. */
  lemma ShippedVendorDeals(now: int)
    ensures VendorAlerts(Vendors, now) == [VendorAlert(Vendors[0], now), VendorAlert(Vendors[2], now)]
  {
    assert Vendors[..2][..1][..0] == [];
    assert Vendors[..2][..1] == [Vendors[0]];
    assert Vendors[..2] == [Vendors[0], Vendors[1]];
  }

  // ---------------------------------------------------------------------
  // Capacity
  // ---------------------------------------------------------------------

  /** `int(x / 100)`: the quotient truncated toward zero. */
  function TruncatedHundreds(x: int): (q: int)
    ensures x >= 0 ==> 0 <= 100 * q <= x < 100 * q + 100
    ensures x < 0 ==> 100 * q - 100 < x <= 100 * q <= 0
  {
    if x >= 0 then x / 100 else -((-x) / 100)
  }

  function CapacityDetail(forecast: int): Detail {
    var shortage := forecast - AvailableCapacity;
    CapacityData(forecast, AvailableCapacity, shortage, TruncatedHundreds(shortage))
  }

  /** The capacity alert: raised when tomorrow's forecast exceeds 90% of the capacity of 1200. */
  function CapacityAlerts(forecast: int, now: int): (r: seq<Alert>)
    ensures |r| <= 1
    ensures |r| == 1 <==> forecast > 1080
    ensures forall a :: a in r ==>
      a.timestamp == now && a.priority == Critical && a.kind == Capacity &&
      a.detail.CapacityData? && a.detail.shortage == forecast - 1200 && a.detail.capacity == 1200
  {
    if forecast as real / AvailableCapacity as real > CapacityCriticalThreshold then
      [Alert(now, Critical, Capacity, CapacityDetail(forecast))]
    else []
  }

  /**
   * The alert fires from 90% of capacity on, yet reports `forecast - 1200` as
   * the shortage: for a forecast strictly between 1080 and 1200 the critical
   * alert is raised with a negative shortage, and up to 1100 it asks for -1
   * extra vehicles.
   */
  lemma NearCapacityShortageIsNegative(forecast: int, now: int)
    requires 1080 < forecast < 1200
    ensures |CapacityAlerts(forecast, now)| == 1
    ensures var d := CapacityAlerts(forecast, now)[0].detail;
      d.shortage < 0 && d.extraVehicles == (if forecast <= 1100 then -1 else 0)
  {
    assert CapacityAlerts(forecast, now)[0] in CapacityAlerts(forecast, now);
    assert CapacityAlerts(forecast, now)[0].detail == CapacityDetail(forecast);
  }

  // ---------------------------------------------------------------------
  // Routes
  // ---------------------------------------------------------------------

  /** `(1 - optimal/current) * 100`. */
  function SavingsPercent(r: RouteCandidate): real
    requires r.currentDistance != 0
  {
    (1.0 - r.optimalDistance as real / r.currentDistance as real) * 100.0
  }

  predicate Worthwhile(r: RouteCandidate)
    requires r.currentDistance != 0
  {
    SavingsPercent(r) > RouteSavingsThreshold
  }

  /** On a positive current distance, more than 20% savings means the optimal route is under 4/5 of it. */
  lemma WorthwhileIff(r: RouteCandidate)
    requires r.currentDistance > 0
    ensures Worthwhile(r) <==> 5 * r.optimalDistance < 4 * r.currentDistance
  {
    var c := r.currentDistance as real;
    var o := r.optimalDistance as real;
    assert SavingsPercent(r) == 100.0 - 100.0 * (o / c);
    assert 100.0 * (o / c) * c == 100.0 * o;
  }

  function RouteAlert(r: RouteCandidate, now: int): Alert
    requires r.currentDistance != 0
  {
    Alert(now, Low, Route, RouteData(r, SavingsPercent(r)))
  }

  predicate NonzeroDistances(routes: seq<RouteCandidate>) {
    forall r :: r in routes ==> r.currentDistance != 0
  }

  /** The route alerts, in route order: one per route whose optimal path saves more than 20%. */
  function RouteAlerts(routes: seq<RouteCandidate>, now: int): (r: seq<Alert>)
    requires NonzeroDistances(routes)
    ensures |r| <= |routes|
    ensures forall a :: a in r ==>
      a.timestamp == now && a.priority == Low && a.kind == Route && a.detail.RouteData? &&
      a.detail.route in routes && a.detail.savingsPercent > RouteSavingsThreshold
    decreases |routes|
  {
    if routes == [] then []
    else
      var n := |routes| - 1;
      assert routes[n] in routes;
      RouteAlerts(routes[..n], now) + (if Worthwhile(routes[n]) then [RouteAlert(routes[n], now)] else [])
  }

  /** A route is alerted exactly when it saves more than 20%. */
  lemma {:induction false} RouteAlertIff(routes: seq<RouteCandidate>, now: int, i: int)
    requires NonzeroDistances(routes) && 0 <= i < |routes|
    ensures routes[i] in routes
    ensures RouteAlert(routes[i], now) in RouteAlerts(routes, now) <==> SavingsPercent(routes[i]) > 20.0
    decreases |routes|
  {
    var n := |routes| - 1;
    assert routes[i] in routes;
    if i < n && Worthwhile(routes[i]) {
      assert routes[..n][i] == routes[i];
      RouteAlertIff(routes[..n], now, i);
    }
  }

  /** Both simulated routes (45 km down to 32 km, 38 km down to 28 km) are alerted. */
  lemma ShippedRoutesAlerted(now: int)
    ensures NonzeroDistances(InefficientRoutes)
    ensures RouteAlerts(InefficientRoutes, now) ==
      [RouteAlert(InefficientRoutes[0], now), RouteAlert(InefficientRoutes[1], now)]
  {
    var rs := InefficientRoutes;
    WorthwhileIff(rs[0]);
    WorthwhileIff(rs[1]);
    assert rs[..1][..0] == [];
    assert rs[..1] == [rs[0]];
  }

  // ---------------------------------------------------------------------
  // Inventory
  // ---------------------------------------------------------------------

  function DaysOfStock(p: Product): real
    requires p.dailyDemand != 0
  {
    p.currentStock as real / p.dailyDemand as real
  }

  predicate AtRisk(p: Product)
    requires p.dailyDemand != 0
  {
    DaysOfStock(p) < p.leadTimeDays as real
  }

  /** The order the alert asks for: one lead time's worth of daily demand. */
  function OrderUnits(p: Product): int {
    p.dailyDemand * p.leadTimeDays
  }

  /** With a positive daily demand, a product is at risk exactly when its stock is below the suggested order. */
  lemma AtRiskIff(p: Product)
    requires p.dailyDemand > 0
    ensures AtRisk(p) <==> p.currentStock < OrderUnits(p)
  {
    var s := p.currentStock as real;
    var dd := p.dailyDemand as real;
    assert (s / dd) * dd == s;
    assert OrderUnits(p) as real == dd * p.leadTimeDays as real;
    if s / dd < p.leadTimeDays as real {
      assert (s / dd) * dd < p.leadTimeDays as real * dd;
    } else {
      assert (s / dd) * dd >= p.leadTimeDays as real * dd;
    }
  }

  function InventoryAlert(p: Product, now: int): Alert
    requires p.dailyDemand != 0
  {
    Alert(now, High, Inventory, InventoryData(p, DaysOfStock(p), OrderUnits(p)))
  }

  predicate NonzeroDemands(products: seq<Product>) {
    forall p :: p in products ==> p.dailyDemand != 0
  }

  /** The inventory alerts, in product order: one per product whose stock runs out within its lead time. */
  function InventoryAlerts(products: seq<Product>, now: int): (r: seq<Alert>)
    requires NonzeroDemands(products)
    ensures |r| <= |products|
    ensures forall a :: a in r ==>
      a.timestamp == now && a.priority == High && a.kind == Inventory && a.detail.InventoryData? &&
      a.detail.product in products && a.detail.daysOfStock < a.detail.product.leadTimeDays as real &&
      a.detail.orderUnits == a.detail.product.dailyDemand * a.detail.product.leadTimeDays
    decreases |products|
  {
    if products == [] then []
    else
      var n := |products| - 1;
      assert products[n] in products;
      InventoryAlerts(products[..n], now) + (if AtRisk(products[n]) then [InventoryAlert(products[n], now)] else [])
  }

  /** A product is alerted exactly when its days of stock fall short of its lead time. */
  lemma {:induction false} InventoryAlertIff(products: seq<Product>, now: int, i: int)
    requires NonzeroDemands(products) && 0 <= i < |products|
    ensures products[i] in products
    ensures InventoryAlert(products[i], now) in InventoryAlerts(products, now)
      <==> DaysOfStock(products[i]) < products[i].leadTimeDays as real
    decreases |products|
  {
    var n := |products| - 1;
    assert products[i] in products;
    if i < n && AtRisk(products[i]) {
      assert products[..n][i] == products[i];
      InventoryAlertIff(products[..n], now, i);
    }
  }

  /** Both simulated products are alerted: 45 units cover 0.9 of 3 days, 20 units cover 0.8 of 5 days. */
  lemma ShippedProductsAtRisk(now: int)
    ensures NonzeroDemands(Products)
    ensures InventoryAlerts(Products, now) ==
      [InventoryAlert(Products[0], now), InventoryAlert(Products[1], now)]
    ensures OrderUnits(Products[0]) == 150 && OrderUnits(Products[1]) == 125
  {
    var ps := Products;
    AtRiskIff(ps[0]);
    AtRiskIff(ps[1]);
    assert ps[..1][..0] == [];
    assert ps[..1] == [ps[0]];
  }

  // ---------------------------------------------------------------------
  // One round of checks
  // ---------------------------------------------------------------------

  /** The alerts of one round, in the order weather, demand, vendor, capacity, route, inventory. */
  function NewAlerts(d: Draws, now: int): seq<Alert>
    requires DrawsFit(d)
  {
    ShippedListsDivisible();
    WeatherAlerts(Cities, d.weather, now) + DemandAlerts(d.currentDemand, now) +
    VendorAlerts(Vendors, now) + CapacityAlerts(d.tomorrowForecast, now) +
    RouteAlerts(InefficientRoutes, now) + InventoryAlerts(Products, now)
  }

  function Stage(k: AlertType): nat {
    match k
    case Weather => 0
    case DemandSpike => 1
    case VendorDeal => 2
    case Capacity => 3
    case Route => 4
    case Inventory => 5
    case CostSaving => 6
    case RiskDetection => 7
  }

  predicate InStageOrder(s: seq<Alert>) {
    forall i, j :: 0 <= i < j < |s| ==> Stage(s[i].kind) <= Stage(s[j].kind)
  }

  lemma {:induction false} AppendStage(s: seq<Alert>, t: seq<Alert>, k: nat)
    requires InStageOrder(s) && forall a :: a in s ==> Stage(a.kind) <= k
    requires forall a :: a in t ==> Stage(a.kind) == k
    ensures InStageOrder(s + t) && forall a :: a in s + t ==> Stage(a.kind) <= k
  {
    forall i, j | 0 <= i < j < |s + t| ensures Stage((s + t)[i].kind) <= Stage((s + t)[j].kind) {
      if j < |s| {
        assert (s + t)[i] == s[i] && (s + t)[j] == s[j];
      } else if i < |s| {
        assert (s + t)[i] == s[i] && s[i] in s;
        assert (s + t)[j] == t[j - |s|] && t[j - |s|] in t;
      } else {
        assert (s + t)[i] == t[i - |s|] && t[i - |s|] in t;
        assert (s + t)[j] == t[j - |s|] && t[j - |s|] in t;
      }
    }
  }

  /** No simulated route has zero length and no simulated product zero demand, so every ratio is defined. */
  lemma ShippedListsDivisible()
    ensures NonzeroDistances(InefficientRoutes) && NonzeroDemands(Products)
  {
    assert InefficientRoutes[0].currentDistance != 0 && InefficientRoutes[1].currentDistance != 0;
    assert Products[0].dailyDemand != 0 && Products[1].dailyDemand != 0;
  }

  /** The six checks' alerts, concatenated in check order, are in stage order whatever their inputs. */
  lemma {:induction false} ChecksInStageOrder(cities: seq<string>, draws: seq<WeatherDraw>, demand: int,
                                              offers: seq<VendorOffer>, forecast: int,
                                              routes: seq<RouteCandidate>, products: seq<Product>, now: int)
    requires |draws| == |cities| && NonzeroDistances(routes) && NonzeroDemands(products)
    ensures InStageOrder(WeatherAlerts(cities, draws, now) + DemandAlerts(demand, now) +
      VendorAlerts(offers, now) + CapacityAlerts(forecast, now) +
      RouteAlerts(routes, now) + InventoryAlerts(products, now))
  {
    var w := WeatherAlerts(cities, draws, now);
    var de := DemandAlerts(demand, now);
    var v := VendorAlerts(offers, now);
    var c := CapacityAlerts(forecast, now);
    var r := RouteAlerts(routes, now);
    var inv := InventoryAlerts(products, now);
    StagesInOrder(w, de, v, c, r, inv);
  }

  predicate AllOfStage(s: seq<Alert>, k: nat) {
    forall a :: a in s ==> Stage(a.kind) == k
  }

  /** Six runs of alerts, each of one stage, concatenated in stage order. */
  lemma {:induction false} StagesInOrder(w: seq<Alert>, de: seq<Alert>, v: seq<Alert>,
                                         c: seq<Alert>, r: seq<Alert>, inv: seq<Alert>)
    requires AllOfStage(w, 0) && AllOfStage(de, 1) && AllOfStage(v, 2)
    requires AllOfStage(c, 3) && AllOfStage(r, 4) && AllOfStage(inv, 5)
    ensures InStageOrder(w + de + v + c + r + inv)
  {
    AppendStage([], w, 0);
    assert [] + w == w;
    AppendStage(w, de, 1);
    AppendStage(w + de, v, 2);
    AppendStage(w + de + v, c, 3);
    AppendStage(w + de + v + c, r, 4);
    AppendStage(w + de + v + c + r, inv, 5);
  }

  /** Every alert of a round comes no earlier than the alerts of the checks run before its own. */
  lemma {:induction false} NewAlertsInCheckOrder(d: Draws, now: int)
    requires DrawsFit(d)
    ensures InStageOrder(NewAlerts(d, now))
  {
    ShippedListsDivisible();
    ChecksInStageOrder(Cities, d.weather, d.currentDemand, Vendors, d.tomorrowForecast, InefficientRoutes, Products, now);
  }

  function Count(b: bool): nat {
    if b then 1 else 0
  }

  /**
   * With the simulated offers, routes and products, every round raises two
   * vendor, two route and two inventory alerts, plus the weather alerts, a
   * demand alert above 1300 orders and a capacity alert above 1080.
   */
  lemma NewAlertsCount(d: Draws, now: int)
    requires DrawsFit(d)
    ensures |NewAlerts(d, now)| ==
      |WeatherAlerts(Cities, d.weather, now)| + Count(d.currentDemand > 1300) + Count(d.tomorrowForecast > 1080) + 6
    ensures 6 <= |NewAlerts(d, now)| <= 13
  {
    ShippedVendorDeals(now);
    ShippedRoutesAlerted(now);
    ShippedProductsAtRisk(now);
  }

  // ---------------------------------------------------------------------
  // The monitor
  // ---------------------------------------------------------------------

  class RealTimeMonitor {
    var alerts: seq<Alert>
    var monitoringActive: bool
    var lastCheck: int
    var checkInterval: int

    /** A new monitor has no alerts, is not monitoring and was last checked at creation. */
    constructor(now: int)
      ensures alerts == [] && !monitoringActive && lastCheck == now && checkInterval == CheckInterval
    {
      alerts := [];
      monitoringActive := false;
      lastCheck := now;
      checkInterval := CheckInterval;
    }

    method StartMonitoring()
      modifies this`monitoringActive
      ensures monitoringActive
    {
      monitoringActive := true;
    }

    method StopMonitoring()
      modifies this`monitoringActive
      ensures !monitoringActive
    {
      monitoringActive := false;
    }

    /** `_check_weather_conditions`: one reading per simulated city. */
    method CheckWeatherConditions(draws: seq<WeatherDraw>, now: int) returns (found: seq<Alert>)
      requires |draws| == |Cities|
      ensures found == WeatherAlerts(Cities, draws, now)
    {
      found := [];
      var i := 0;
      while i < |Cities|
        invariant 0 <= i <= |Cities|
        invariant found == WeatherAlerts(Cities[..i], draws[..i], now)
      {
        if draws[i].riskScore > WeatherRiskThreshold {
          found := found + [WeatherAlert(Cities[i], draws[i], now)];
        }
        assert Cities[..i + 1][..i] == Cities[..i] && draws[..i + 1][..i] == draws[..i];
        i := i + 1;
      }
      assert Cities[..i] == Cities && draws[..i] == draws;
    }

    /** `_check_vendor_prices`. */
    method CheckVendorPrices(now: int) returns (found: seq<Alert>)
      ensures found == VendorAlerts(Vendors, now)
    {
      found := [];
      var i := 0;
      while i < |Vendors|
        invariant 0 <= i <= |Vendors|
        invariant found == VendorAlerts(Vendors[..i], now)
      {
        if Vendors[i].discount >= DealDiscount {
          found := found + [VendorAlert(Vendors[i], now)];
        }
        assert Vendors[..i + 1][..i] == Vendors[..i];
        i := i + 1;
      }
      assert Vendors[..i] == Vendors;
    }

    /** `_check_route_optimization`. */
    method CheckRouteOptimization(now: int) returns (found: seq<Alert>)
      ensures NonzeroDistances(InefficientRoutes)
      ensures found == RouteAlerts(InefficientRoutes, now)
    {
      ShippedRoutesAlerted(now);
      found := [];
      var i := 0;
      while i < |InefficientRoutes|
        invariant 0 <= i <= |InefficientRoutes|
        invariant NonzeroDistances(InefficientRoutes[..i])
        invariant found == RouteAlerts(InefficientRoutes[..i], now)
      {
        var route := InefficientRoutes[i];
        var savings := (1.0 - route.optimalDistance as real / route.currentDistance as real) * 100.0;
        if savings > RouteSavingsThreshold {
          found := found + [RouteAlert(route, now)];
        }
        assert InefficientRoutes[..i + 1][..i] == InefficientRoutes[..i];
        assert InefficientRoutes[..i + 1] == InefficientRoutes[..i] + [route];
        i := i + 1;
      }
      assert InefficientRoutes[..i] == InefficientRoutes;
    }

    /** `_check_inventory_levels`. */
    method CheckInventoryLevels(now: int) returns (found: seq<Alert>)
      ensures NonzeroDemands(Products)
      ensures found == InventoryAlerts(Products, now)
    {
      ShippedProductsAtRisk(now);
      found := [];
      var i := 0;
      while i < |Products|
        invariant 0 <= i <= |Products|
        invariant NonzeroDemands(Products[..i])
        invariant found == InventoryAlerts(Products[..i], now)
      {
        var product := Products[i];
        var daysOfStock := product.currentStock as real / product.dailyDemand as real;
        if daysOfStock < product.leadTimeDays as real {
          found := found + [InventoryAlert(product, now)];
        }
        assert Products[..i + 1][..i] == Products[..i];
        assert Products[..i + 1] == Products[..i] + [product];
        i := i + 1;
      }
      assert Products[..i] == Products;
    }

    /**
     * `check_all_conditions`: runs the six checks in order, appends exactly
     * their alerts to the stored ones and records the time of the check.
     */
    method CheckAllConditions(d: Draws, now: int) returns (newAlerts: seq<Alert>)
      requires DrawsFit(d)
      modifies this`alerts, this`lastCheck
      ensures newAlerts == NewAlerts(d, now)
      ensures alerts == old(alerts) + newAlerts
      ensures lastCheck == now
    {
      var weather := CheckWeatherConditions(d.weather, now);
      newAlerts := weather;
      newAlerts := newAlerts + DemandAlerts(d.currentDemand, now);
      var vendors := CheckVendorPrices(now);
      newAlerts := newAlerts + vendors;
      newAlerts := newAlerts + CapacityAlerts(d.tomorrowForecast, now);
      var routes := CheckRouteOptimization(now);
      newAlerts := newAlerts + routes;
      var inventory := CheckInventoryLevels(now);
      newAlerts := newAlerts + inventory;
      alerts := alerts + newAlerts;
      lastCheck := now;
    }
  }

  // ---------------------------------------------------------------------
  // Display order
  // ---------------------------------------------------------------------

  /** The dashboard's `priority_order`. */
  function Rank(p: Priority): (n: nat)
    ensures n <= 4
  {
    match p
    case Critical => 0
    case High => 1
    case Medium => 2
    case Low => 3
    case Info => 4
  }

  /** The sort key `(priority_order[priority], -timestamp)` of `a` is at most that of `b`. */
  predicate ShownBefore(a: Alert, b: Alert) {
    Rank(a.priority) < Rank(b.priority) ||
    (Rank(a.priority) == Rank(b.priority) && a.timestamp >= b.timestamp)
  }

  /** Places `x` in front of the first alert whose key is not smaller, so equal keys keep `x` first. */
  function InsertAlert(x: Alert, t: seq<Alert>): seq<Alert>
    decreases |t|
  {
    if t == [] || ShownBefore(x, t[0]) then [x] + t
    else [t[0]] + InsertAlert(x, t[1..])
  }

  /** `list.sort` with the display key: a stable sort. */
  function SortAlerts(s: seq<Alert>): seq<Alert>
    decreases |s|
  {
    if s == [] then [] else InsertAlert(s[0], SortAlerts(s[1..]))
  }

  lemma {:induction false} InsertAlertPermutes(x: Alert, t: seq<Alert>)
    ensures multiset(InsertAlert(x, t)) == multiset(t) + multiset{x}
    decreases |t|
  {
    if t != [] && !ShownBefore(x, t[0]) {
      InsertAlertPermutes(x, t[1..]);
      assert t == [t[0]] + t[1..];
    }
  }

  lemma {:induction false} SortAlertsPermutes(s: seq<Alert>)
    ensures multiset(SortAlerts(s)) == multiset(s)
    decreases |s|
  {
    if s != [] {
      SortAlertsPermutes(s[1..]);
      InsertAlertPermutes(s[0], SortAlerts(s[1..]));
      assert s == [s[0]] + s[1..];
    }
  }

  predicate InDisplayOrder(s: seq<Alert>) {
    forall i, j :: 0 <= i < j < |s| ==> ShownBefore(s[i], s[j])
  }

  lemma {:induction false} InsertAlertOrdered(x: Alert, t: seq<Alert>)
    requires InDisplayOrder(t)
    ensures InDisplayOrder(InsertAlert(x, t))
    decreases |t|
  {
    if t != [] {
      if ShownBefore(x, t[0]) {
        var r := [x] + t;
        forall i, j | 0 <= i < j < |r| ensures ShownBefore(r[i], r[j]) {
          if i == 0 {
            assert r[j] == t[j - 1];
            assert ShownBefore(t[0], t[j - 1]) || j == 1;
          }
        }
      } else {
        InsertAlertOrdered(x, t[1..]);
        InsertAlertPermutes(x, t[1..]);
        var rest := InsertAlert(x, t[1..]);
        forall k | 0 <= k < |rest| ensures ShownBefore(t[0], rest[k]) {
          assert rest[k] in multiset(rest);
          if rest[k] != x {
            assert rest[k] in multiset(t[1..]);
            var m :| 0 <= m < |t[1..]| && t[1..][m] == rest[k];
            assert t[1..][m] == t[m + 1];
          }
        }
      }
    }
  }

  lemma {:induction false} SortAlertsOrdered(s: seq<Alert>)
    ensures InDisplayOrder(SortAlerts(s))
    decreases |s|
  {
    if s != [] {
      SortAlertsOrdered(s[1..]);
      InsertAlertOrdered(s[0], SortAlerts(s[1..]));
    }
  }

  /** The alerts of `s` whose display key is that of priority `p` stamped `t`, in their order in `s`. */
  function SameKey(s: seq<Alert>, p: Priority, t: int): seq<Alert>
    decreases |s|
  {
    if s == [] then []
    else (if s[0].priority == p && s[0].timestamp == t then [s[0]] else []) + SameKey(s[1..], p, t)
  }

  /** Inserting `x` passes only alerts with a strictly smaller key, so it lands after nothing of its own key. */
  lemma {:induction false} InsertAlertStable(x: Alert, t: seq<Alert>, p: Priority, ts: int)
    ensures SameKey(InsertAlert(x, t), p, ts) ==
      (if x.priority == p && x.timestamp == ts then [x] else []) + SameKey(t, p, ts)
    decreases |t|
  {
    if t == [] || ShownBefore(x, t[0]) {
      assert ([x] + t)[1..] == t;
    } else {
      InsertAlertStable(x, t[1..], p, ts);
      assert ([t[0]] + InsertAlert(x, t[1..]))[1..] == InsertAlert(x, t[1..]);
    }
  }

  /** `list.sort` is stable: alerts with equal keys come out in the order they went in. */
  lemma {:induction false} SortAlertsStable(s: seq<Alert>, p: Priority, t: int)
    ensures SameKey(SortAlerts(s), p, t) == SameKey(s, p, t)
    decreases |s|
  {
    if s != [] {
      SortAlertsStable(s[1..], p, t);
      InsertAlertStable(s[0], SortAlerts(s[1..]), p, t);
    }
  }

  const DisplayLimit: nat := 10

  /** The alerts the dashboard shows: sorted by the display key, the first ten. */
  function Displayed(all: seq<Alert>): seq<Alert> {
    SortAlertsPermutes(all);
    var sorted := SortAlerts(all);
    assert |sorted| == |multiset(sorted)|;
    if |sorted| <= DisplayLimit then sorted else sorted[..DisplayLimit]
  }

  /**
   * What is shown is in display order, at most ten long, drawn from the
   * stored alerts, and shows all of them when there are at most ten; every
   * alert left out comes after every alert shown, so the ten shown are the
   * first ten by the display key.
   */
  lemma {:induction false} DisplayedShape(all: seq<Alert>)
    ensures InDisplayOrder(Displayed(all))
    ensures |Displayed(all)| == if |all| <= DisplayLimit then |all| else DisplayLimit
    ensures multiset(Displayed(all)) <= multiset(all)
    ensures |all| <= DisplayLimit ==> multiset(Displayed(all)) == multiset(all)
    ensures forall a, b :: a in multiset(all) - multiset(Displayed(all)) && b in Displayed(all) ==> ShownBefore(b, a)
  {
    SortAlertsPermutes(all);
    SortAlertsOrdered(all);
    var sorted := SortAlerts(all);
    assert |sorted| == |multiset(sorted)| == |multiset(all)| == |all|;
    if |sorted| > DisplayLimit {
      var shown, hidden := sorted[..DisplayLimit], sorted[DisplayLimit..];
      assert sorted == shown + hidden;
      assert multiset(sorted) == multiset(shown) + multiset(hidden);
      assert multiset(all) - multiset(shown) == multiset(hidden);
      ShownPrecedeHidden(sorted, DisplayLimit);
    } else {
      assert multiset(all) - multiset(sorted) == multiset{};
    }
  }

  /** In a list in display order, every alert of a prefix comes before every alert of the rest. */
  lemma ShownPrecedeHidden(sorted: seq<Alert>, n: nat)
    requires InDisplayOrder(sorted) && n <= |sorted|
    ensures forall a, b :: a in multiset(sorted[n..]) && b in sorted[..n] ==> ShownBefore(b, a)
  {
    forall a, b | a in multiset(sorted[n..]) && b in sorted[..n] ensures ShownBefore(b, a) {
      var m :| 0 <= m < |sorted[n..]| && sorted[n..][m] == a;
      var i :| 0 <= i < n && sorted[..n][i] == b;
      assert sorted[i] == b && sorted[n + m] == a;
    }
  }

  /** The first alert shown is as urgent as any stored alert, and the newest among the most urgent. */
  lemma {:induction false} MostUrgentShownFirst(all: seq<Alert>, a: Alert)
    requires a in all
    ensures |Displayed(all)| > 0
    ensures ShownBefore(Displayed(all)[0], a)
  {
    SortAlertsPermutes(all);
    SortAlertsOrdered(all);
    DisplayedShape(all);
    var sorted := SortAlerts(all);
    assert a in multiset(sorted);
    var m :| 0 <= m < |sorted| && sorted[m] == a;
    assert Displayed(all)[0] == sorted[0];
    if m > 0 {
      assert ShownBefore(sorted[0], sorted[m]);
    }
  }
}
