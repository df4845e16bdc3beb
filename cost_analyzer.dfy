/**
 * Vendor comparison of the cost analyser: the vendor table and its
 * validation, the per-route analysis (total cost, CO2, min-max efficiency
 * scores on a 0-10 scale, capacity feasibility with the overweight surcharge),
 * the priority-weighted composite score, the choice of the best vendor and the
 * ranked table, the premium-rate fallback, and the sustainability report.
 */
module CostAnalyzer {
  import opened Wrappers
  import opened Stats
  import opened ForecastData

  /** One vendor row after validation. */
  datatype Vendor = Vendor(
    name: string,
    costPerKm: real,
    emissionPerKm: real,
    reliabilityScore: real,
    deliverySpeed: string,
    serviceQuality: real,
    maxCapacityKg: real,
    insuranceCoverage: Option<real>)

  /** The eight vendors used when no usable vendor file exists. */
  const SampleVendors: seq<Vendor> := [
    Vendor("LogiTech Express", 2.5, 0.8, 8.5, "Standard", 8.0, 5000.0, Some(1000000.0)),
    Vendor("GreenShip Co", 3.2, 0.3, 9.2, "Eco", 9.0, 3000.0, Some(800000.0)),
    Vendor("FastTrack Logistics", 2.8, 0.6, 7.8, "Fast", 7.5, 8000.0, Some(1200000.0)),
    Vendor("EcoFreight Solutions", 3.5, 0.2, 9.5, "Eco+", 9.2, 4000.0, Some(900000.0)),
    Vendor("SpeedyDelivery", 2.3, 0.9, 7.2, "Express", 6.8, 6000.0, Some(600000.0)),
    Vendor("CargoMaster", 2.9, 0.7, 8.1, "Standard", 8.3, 7000.0, Some(1100000.0)),
    Vendor("BlueOcean Shipping", 2.7, 0.4, 8.8, "Eco", 8.7, 4500.0, Some(1000000.0)),
    Vendor("RailLink Express", 2.1, 0.15, 9.0, "Rail", 8.9, 10000.0, Some(1500000.0))
  ]

  // ---------------------------------------------------------------- validation

  /**
   * One row of a loaded vendor file: the vendor name (absent when blank), the
   * three numeric columns after numeric coercion, and the optional columns as
   * read (used only when their column exists).
   */
  datatype RawVendor = RawVendor(
    name: Option<string>,
    costPerKm: Cell,
    emissionPerKm: Cell,
    reliabilityScore: Cell,
    deliverySpeed: string,
    serviceQuality: real,
    maxCapacityKg: real,
    insuranceCoverage: Option<real>)

  datatype VendorTable = VendorTable(columns: set<string>, rows: seq<RawVendor>)

  const RequiredColumns: seq<string> := ["vendor", "cost_per_km", "emission_per_km", "reliability_score"]

  /** A row with every required field present. */
  predicate Complete(row: RawVendor) {
    row.name.Some? && row.costPerKm.Num? && row.emissionPerKm.Num? && row.reliabilityScore.Num?
  }

  /** A complete row with the defaults for absent optional columns: Standard speed, quality 8.0, capacity 5000 kg. */
  function Cleaned(row: RawVendor, columns: set<string>): Vendor
    requires Complete(row)
  {
    Vendor(
      row.name.value, row.costPerKm.value, row.emissionPerKm.value, row.reliabilityScore.value,
      if "delivery_speed" in columns then row.deliverySpeed else "Standard",
      if "service_quality" in columns then row.serviceQuality else 8.0,
      if "max_capacity_kg" in columns then row.maxCapacityKg else 5000.0,
      if "insurance_coverage" in columns then row.insuranceCoverage else None)
  }

  /** The complete rows, cleaned, in file order. */
  function CompleteRows(rows: seq<RawVendor>, columns: set<string>): (r: seq<Vendor>)
    ensures |r| <= |rows|
    decreases |rows|
  {
    if rows == [] then []
    else
      var last := rows[|rows| - 1];
      CompleteRows(rows[..|rows| - 1], columns) + (if Complete(last) then [Cleaned(last, columns)] else [])
  }

  /** `_validate_vendor_data`: the sample vendors when a required column is missing, else the complete rows with defaults. */
  function ValidateVendorData(t: VendorTable): (r: seq<Vendor>)
    ensures (exists c :: c in RequiredColumns && c !in t.columns) ==> r == SampleVendors
    ensures (forall c :: c in RequiredColumns ==> c in t.columns) ==> |r| <= |t.rows|
  {
    if exists c :: c in RequiredColumns && c !in t.columns then SampleVendors
    else CompleteRows(t.rows, t.columns)
  }

  /** A vendor survives validation exactly when it comes from a row with all required fields. */
  lemma {:induction false} CompleteRowsIff(rows: seq<RawVendor>, columns: set<string>)
    ensures forall v :: v in CompleteRows(rows, columns) <==>
      exists i :: 0 <= i < |rows| && Complete(rows[i]) && v == Cleaned(rows[i], columns)
    decreases |rows|
  {
    if rows != [] {
      var front := rows[..|rows| - 1];
      CompleteRowsIff(front, columns);
      forall v ensures v in CompleteRows(rows, columns) <==>
        exists i :: 0 <= i < |rows| && Complete(rows[i]) && v == Cleaned(rows[i], columns)
      {
        if v in CompleteRows(front, columns) {
          var i :| 0 <= i < |front| && Complete(front[i]) && v == Cleaned(front[i], columns);
          assert rows[i] == front[i];
        }
        if exists i :: 0 <= i < |rows| && Complete(rows[i]) && v == Cleaned(rows[i], columns) {
          var i :| 0 <= i < |rows| && Complete(rows[i]) && v == Cleaned(rows[i], columns);
          if i < |front| {
            assert front[i] == rows[i];
          }
        }
      }
    }
  }

  /** An absent optional column gives every surviving vendor its default. */
  lemma {:induction false} DefaultsApplied(rows: seq<RawVendor>, columns: set<string>)
    ensures "delivery_speed" !in columns ==>
      forall i :: 0 <= i < |CompleteRows(rows, columns)| ==> CompleteRows(rows, columns)[i].deliverySpeed == "Standard"
    ensures "service_quality" !in columns ==>
      forall i :: 0 <= i < |CompleteRows(rows, columns)| ==> CompleteRows(rows, columns)[i].serviceQuality == 8.0
    ensures "max_capacity_kg" !in columns ==>
      forall i :: 0 <= i < |CompleteRows(rows, columns)| ==> CompleteRows(rows, columns)[i].maxCapacityKg == 5000.0
    decreases |rows|
  {
    if rows != [] {
      DefaultsApplied(rows[..|rows| - 1], columns);
    }
  }

  // ------------------------------------------------------ efficiency and weights

  /** `d` with the invalid-distance fallback: a distance that is not positive becomes 1000 km. */
  function EffectiveDistance(d: real): (r: real)
    ensures r > 0.0
    ensures d > 0.0 ==> r == d
  {
    if d <= 0.0 then 1000.0 else d
  }

  /** One inverted min-max score: `(hi - x) / (hi - lo) * 10`. */
  function EfficiencyValue(x: real, lo: real, hi: real): (e: real)
    requires lo <= x <= hi && lo < hi
    ensures 0.0 <= e <= 10.0
  {
    DivideBounds(hi - x, hi - lo, 0.0, 1.0);
    (hi - x) / (hi - lo) * 10.0
  }

  /**
   * `_calculate_cost_efficiency` / `_calculate_eco_efficiency`: every score is
   * 10 when all values are equal, otherwise the inverted min-max score on 0-10.
   */
  function Efficiency(values: seq<real>): (r: seq<real>)
    ensures |r| == |values|
    ensures forall i :: 0 <= i < |r| ==> 0.0 <= r[i] <= 10.0
  {
    if values == [] then []
    else
      var lo, hi := Min(values), Max(values);
      if hi == lo then seq(|values|, i => 10.0)
      else seq(|values|, i requires 0 <= i < |values| => EfficiencyValue(values[i], lo, hi))
  }

  lemma {:induction false} DivideMonotone(a: real, b: real, n: real)
    requires n > 0.0 && b <= a
    ensures b / n <= a / n
  {
    DivideBounds(a - b, n, 0.0, (a - b) / n);
    assert a / n - b / n == (a - b) / n;
  }

  /** The inverted score maps the minimum to 10, the maximum to 0, and never rises with the value. */
  lemma {:induction false} EfficiencyValueOrder(x: real, y: real, lo: real, hi: real)
    requires lo <= x <= hi && lo <= y <= hi && lo < hi
    ensures EfficiencyValue(lo, lo, hi) == 10.0 && EfficiencyValue(hi, lo, hi) == 0.0
    ensures x <= y ==> EfficiencyValue(x, lo, hi) >= EfficiencyValue(y, lo, hi)
  {
    assert (hi - lo) / (hi - lo) == 1.0;
    if x <= y {
      DivideMonotone(hi - x, hi - y, hi - lo);
    }
  }

  /** The cheapest (cleanest) vendor scores 10, the dearest (dirtiest) 0 unless all are equal, and a lower value never scores lower. */
  lemma {:induction false} EfficiencyOrder(values: seq<real>, i: nat, j: nat)
    requires i < |values| && j < |values|
    ensures values[i] == Min(values) ==> Efficiency(values)[i] == 10.0
    ensures values[i] == Max(values) && Max(values) != Min(values) ==> Efficiency(values)[i] == 0.0
    ensures values[i] <= values[j] ==> Efficiency(values)[i] >= Efficiency(values)[j]
  {
    var lo, hi := Min(values), Max(values);
    if hi != lo {
      assert Efficiency(values)[i] == EfficiencyValue(values[i], lo, hi);
      assert Efficiency(values)[j] == EfficiencyValue(values[j], lo, hi);
      EfficiencyValueOrder(values[i], values[j], lo, hi);
    }
  }

  /** The weights of the four sub-scores under one priority. */
  datatype WeightSet = WeightSet(cost: real, service: real, eco: real, reliability: real)

  /** The weighting scheme of a priority; an unknown priority is weighted as `balanced`. */
  function Weights(priority: string): (w: WeightSet)
    ensures w.cost + w.service + w.eco + w.reliability == 1.0
    ensures w.cost >= 0.0 && w.service >= 0.0 && w.eco >= 0.0 && w.reliability >= 0.0
    ensures priority !in {"cost", "speed", "eco"} ==> w == WeightSet(0.3, 0.25, 0.25, 0.2)
  {
    if priority == "cost" then WeightSet(0.6, 0.2, 0.1, 0.1)
    else if priority == "speed" then WeightSet(0.2, 0.4, 0.1, 0.3)
    else if priority == "eco" then WeightSet(0.1, 0.2, 0.5, 0.2)
    else WeightSet(0.3, 0.25, 0.25, 0.2)
  }

  /** One vendor's analysis row before the composite score. */
  datatype Row = Row(
    vendor: Vendor,
    totalCost: real,
    co2Emission: real,
    weightFeasible: bool,
    costEfficiency: real,
    ecoEfficiency: real,
    serviceScore: real)

  /** A row of the returned table. */
  datatype RankedRow = RankedRow(row: Row, overweightSurcharge: bool, compositeScore: real, rank: real)

  /** `_calculate_composite_score` for one row. */
  function Composite(w: WeightSet, r: Row): real {
    w.cost * r.costEfficiency + w.service * r.serviceScore + w.eco * r.ecoEfficiency
      + w.reliability * r.vendor.reliabilityScore
  }

  /** With every sub-score on the 0-10 scale, so is the composite score, under every priority. */
  lemma {:induction false} CompositeBounds(priority: string, r: Row)
    requires 0.0 <= r.costEfficiency <= 10.0 && 0.0 <= r.ecoEfficiency <= 10.0
    requires 0.0 <= r.serviceScore <= 10.0 && 0.0 <= r.vendor.reliabilityScore <= 10.0
    ensures 0.0 <= Composite(Weights(priority), r) <= 10.0
  {
    var w := Weights(priority);
    assert w.cost * r.costEfficiency <= w.cost * 10.0;
    assert w.service * r.serviceScore <= w.service * 10.0;
    assert w.eco * r.ecoEfficiency <= w.eco * 10.0;
    assert w.reliability * r.vendor.reliabilityScore <= w.reliability * 10.0;
  }

  /** Each vendor's total cost over the route. */
  function RouteCosts(vendors: seq<Vendor>, d: real): (costs: seq<real>)
    ensures |costs| == |vendors| && forall i :: 0 <= i < |vendors| ==> costs[i] == vendors[i].costPerKm * d
  {
    seq(|vendors|, i requires 0 <= i < |vendors| => vendors[i].costPerKm * d)
  }

  /** One analysis row from the vendor, its route cost and CO2, and its two efficiency scores. */
  function AnalyseRow(v: Vendor, cost: real, co2: real, weight: real, costEff: real, ecoEff: real): Row {
    Row(v, cost, co2, v.maxCapacityKg >= weight, costEff, ecoEff, (v.reliabilityScore + v.serviceQuality) / 2.0)
  }

  /** The analysis rows: cost and CO2 for the distance, capacity feasibility, efficiencies over all vendors, and service score. */
  function Analyse(vendors: seq<Vendor>, d: real, weight: real): (rows: seq<Row>)
    ensures |rows| == |vendors|
    ensures forall i :: 0 <= i < |rows| ==>
      rows[i].vendor == vendors[i] && rows[i].totalCost == vendors[i].costPerKm * d
      && rows[i].co2Emission == vendors[i].emissionPerKm * d
      && (rows[i].weightFeasible <==> vendors[i].maxCapacityKg >= weight)
      && 0.0 <= rows[i].costEfficiency <= 10.0 && 0.0 <= rows[i].ecoEfficiency <= 10.0
  {
    var costs := RouteCosts(vendors, d);
    var co2 := Emissions(vendors, d);
    var costEff := Efficiency(costs);
    var ecoEff := Efficiency(co2);
    var rows := seq(|vendors|, i requires 0 <= i < |vendors| =>
      AnalyseRow(vendors[i], costs[i], co2[i], weight, costEff[i], ecoEff[i]));
    assert forall i :: 0 <= i < |vendors| ==> rows[i] == AnalyseRow(vendors[i], costs[i], co2[i], weight, costEff[i], ecoEff[i]);
    rows
  }

  /** The rows that can carry the cargo, in table order. */
  function Feasible(rows: seq<Row>): (f: seq<Row>)
    ensures |f| <= |rows|
    ensures forall i :: 0 <= i < |f| ==> f[i].weightFeasible && f[i] in rows
    decreases |rows|
  {
    if rows == [] then []
    else Feasible(rows[..|rows| - 1]) + (if rows[|rows| - 1].weightFeasible then [rows[|rows| - 1]] else [])
  }

  /** Feasible rows are exactly the rows that can carry the cargo. */
  lemma {:induction false} FeasibleIff(rows: seq<Row>)
    ensures forall r :: r in Feasible(rows) <==> r in rows && r.weightFeasible
    decreases |rows|
  {
    if rows != [] {
      FeasibleIff(rows[..|rows| - 1]);
      assert rows == rows[..|rows| - 1] + [rows[|rows| - 1]];
    }
  }

  /** The 25% overweight surcharge applied to every row. */
  function Surcharged(rows: seq<Row>): (s: seq<Row>)
    ensures |s| == |rows|
    ensures forall i :: 0 <= i < |s| ==> s[i] == rows[i].(totalCost := rows[i].totalCost * 1.25)
  {
    seq(|rows|, i requires 0 <= i < |rows| => rows[i].(totalCost := rows[i].totalCost * 1.25))
  }

  // ---------------------------------------------------------- choice and ranks

  /** `idxmax`: the first position of the largest value. */
  function FirstMaxIndex(s: seq<real>): (k: nat)
    requires |s| > 0
    ensures k < |s|
    ensures forall i :: 0 <= i < |s| ==> s[i] <= s[k]
    ensures forall i :: 0 <= i < k ==> s[i] < s[k]
    decreases |s|
  {
    if |s| == 1 then 0
    else
      var k := FirstMaxIndex(s[..|s| - 1]);
      assert forall i :: 0 <= i < |s| - 1 ==> s[..|s| - 1][i] == s[i];
      if s[|s| - 1] > s[k] then |s| - 1 else k
  }

  /** `idxmin`: the first position of the smallest value. */
  function FirstMinIndex(s: seq<real>): (k: nat)
    requires |s| > 0
    ensures k < |s|
    ensures forall i :: 0 <= i < |s| ==> s[k] <= s[i]
    ensures forall i :: 0 <= i < k ==> s[k] < s[i]
    decreases |s|
  {
    if |s| == 1 then 0
    else
      var k := FirstMinIndex(s[..|s| - 1]);
      assert forall i :: 0 <= i < |s| - 1 ==> s[..|s| - 1][i] == s[i];
      if s[|s| - 1] < s[k] then |s| - 1 else k
  }

  function CountAbove(s: seq<real>, x: real): (n: nat)
    ensures n <= |s|
    decreases |s|
  {
    if s == [] then 0 else CountAbove(s[..|s| - 1], x) + (if s[|s| - 1] > x then 1 else 0)
  }

  function CountEqual(s: seq<real>, x: real): (n: nat)
    decreases |s|
  {
    if s == [] then 0 else CountEqual(s[..|s| - 1], x) + (if s[|s| - 1] == x then 1 else 0)
  }

  lemma {:induction false} CountsBounded(s: seq<real>, i: nat)
    requires i < |s|
    ensures 1 <= CountEqual(s, s[i])
    ensures CountAbove(s, s[i]) + CountEqual(s, s[i]) <= |s|
    decreases |s|
  {
    var front := s[..|s| - 1];
    if i < |s| - 1 {
      CountsBounded(front, i);
    } else {
      CountsNoMore(front, s[i]);
    }
  }

  lemma {:induction false} CountsNoMore(s: seq<real>, x: real)
    ensures CountAbove(s, x) + CountEqual(s, x) <= |s|
    decreases |s|
  {
    if s != [] {
      CountsNoMore(s[..|s| - 1], x);
    }
  }

  /** Everything at or above `x` is above any `y < x`. */
  lemma {:induction false} CountAboveLower(s: seq<real>, x: real, y: real)
    requires y < x
    ensures CountAbove(s, y) >= CountAbove(s, x) + CountEqual(s, x)
    decreases |s|
  {
    if s != [] {
      CountAboveLower(s[..|s| - 1], x, y);
    }
  }

  /**
   * `rank(ascending=False)` with pandas' default `average` method: the
   * number of larger scores plus the mean of the positions shared by ties.
   */
  function Rank(scores: seq<real>, i: nat): (r: real)
    requires i < |scores|
    ensures 1.0 <= r <= |scores| as real
  {
    CountsBounded(scores, i);
    CountAbove(scores, scores[i]) as real + (CountEqual(scores, scores[i]) as real + 1.0) / 2.0
  }

  /** A strictly higher composite score gets a strictly better (smaller) rank; equal scores share a rank. */
  lemma {:induction false} RankOrder(scores: seq<real>, i: nat, j: nat)
    requires i < |scores| && j < |scores|
    ensures scores[i] > scores[j] ==> Rank(scores, i) < Rank(scores, j)
    ensures scores[i] == scores[j] ==> Rank(scores, i) == Rank(scores, j)
  {
    if scores[i] > scores[j] {
      CountAboveLower(scores, scores[i], scores[j]);
      CountsBounded(scores, i);
    }
  }

  /** Inserts `x` before the first row of equal or greater rank, so equal ranks keep their order. */
  function InsertByRank(x: RankedRow, t: seq<RankedRow>): seq<RankedRow>
    decreases |t|
  {
    if t == [] || x.rank <= t[0].rank then [x] + t
    else [t[0]] + InsertByRank(x, t[1..])
  }

  /** `sort_values('rank')`. */
  function SortByRank(s: seq<RankedRow>): seq<RankedRow>
    decreases |s|
  {
    if s == [] then [] else InsertByRank(s[0], SortByRank(s[1..]))
  }

  predicate SortedByRank(s: seq<RankedRow>) {
    forall i, j :: 0 <= i < j < |s| ==> s[i].rank <= s[j].rank
  }

  lemma {:induction false} InsertByRankPermutes(x: RankedRow, t: seq<RankedRow>)
    ensures multiset(InsertByRank(x, t)) == multiset(t) + multiset{x}
    decreases |t|
  {
    if t != [] && x.rank > t[0].rank {
      InsertByRankPermutes(x, t[1..]);
      assert t == [t[0]] + t[1..];
    }
  }

  lemma {:induction false} InsertByRankSorted(x: RankedRow, t: seq<RankedRow>)
    requires SortedByRank(t)
    ensures SortedByRank(InsertByRank(x, t))
    decreases |t|
  {
    if t != [] && x.rank > t[0].rank {
      InsertByRankSorted(x, t[1..]);
      InsertByRankPermutes(x, t[1..]);
      var rest := InsertByRank(x, t[1..]);
      forall k | 0 <= k < |rest| ensures t[0].rank <= rest[k].rank {
        assert rest[k] in multiset(rest);
        if rest[k] != x {
          assert rest[k] in multiset(t[1..]);
          var m :| 0 <= m < |t[1..]| && t[1..][m] == rest[k];
          assert t[1..][m] == t[m + 1];
        }
      }
    }
  }

  /** The ranked table is a reordering of its rows, by non-decreasing rank. */
  lemma {:induction false} SortByRankCorrect(s: seq<RankedRow>)
    ensures SortedByRank(SortByRank(s))
    ensures multiset(SortByRank(s)) == multiset(s)
    decreases |s|
  {
    if s != [] {
      SortByRankCorrect(s[1..]);
      InsertByRankSorted(s[0], SortByRank(s[1..]));
      InsertByRankPermutes(s[0], SortByRank(s[1..]));
      assert s == [s[0]] + s[1..];
    }
  }

  // ---------------------------------------------------------------- comparison

  /** The one row of `_get_fallback_vendor`'s table. */
  datatype FallbackRow = FallbackRow(
    vendor: string, totalCost: real, costPerKm: real, emissionPerKm: real, reliabilityScore: real,
    deliverySpeed: string, serviceQuality: real, compositeScore: real, rank: nat, fallbackMode: bool)

  /** What `compare_vendors` returns: the analysis, or the premium-rate emergency vendor when the analysis raises. */
  datatype Comparison =
    | Compared(bestVendor: string, bestPrice: real, table: seq<RankedRow>)
    | Emergency(bestVendor: string, bestPrice: real, fallbackTable: seq<FallbackRow>)

  /** `_get_fallback_vendor(d)`: Emergency Logistics at the premium 3.5 per km, with its one-row table. */
  function FallbackVendor(d: real): (r: Comparison)
    ensures r.Emergency? && |r.fallbackTable| == 1
    ensures r.bestVendor == r.fallbackTable[0].vendor == "Emergency Logistics"
    ensures r.bestPrice == r.fallbackTable[0].totalCost == r.fallbackTable[0].costPerKm * d
    ensures r.fallbackTable[0].rank == 1 && r.fallbackTable[0].fallbackMode
  {
    var cost := d * 3.5;
    Emergency("Emergency Logistics", cost,
              [FallbackRow("Emergency Logistics", cost, 3.5, 0.8, 6.0, "Standard", 6.0, 6.0, 1, true)])
  }

  /** The rows the composite score is computed on, and whether the overweight surcharge was applied. */
  function Candidates(rows: seq<Row>): (c: (seq<Row>, bool))
    ensures c.1 <==> Feasible(rows) == []
    ensures !c.1 ==> c.0 == Feasible(rows)
    ensures c.1 ==> c.0 == Surcharged(rows)
  {
    var feasible := Feasible(rows);
    if feasible == [] then (Surcharged(rows), true) else (feasible, false)
  }

  function Scores(w: WeightSet, rows: seq<Row>): (s: seq<real>)
    ensures |s| == |rows| && forall i :: 0 <= i < |rows| ==> s[i] == Composite(w, rows[i])
  {
    seq(|rows|, i requires 0 <= i < |rows| => Composite(w, rows[i]))
  }

  function RankRows(rows: seq<Row>, surcharge: bool, scores: seq<real>): (r: seq<RankedRow>)
    requires |scores| == |rows|
    ensures |r| == |rows|
    ensures forall i :: 0 <= i < |r| ==> r[i] == RankedRow(rows[i], surcharge, scores[i], Rank(scores, i))
  {
    seq(|rows|, i requires 0 <= i < |rows| => RankedRow(rows[i], surcharge, scores[i], Rank(scores, i)))
  }

  /** Scores the candidate rows, picks the first best one, and ranks the table. */
  function RankCandidates(chosen: seq<Row>, surcharge: bool, priority: string): (r: Comparison)
    requires |chosen| > 0
    ensures r.Compared?
  {
    var scores := Scores(Weights(priority), chosen);
    var best := FirstMaxIndex(scores);
    Compared(chosen[best].vendor.name, chosen[best].totalCost, SortByRank(RankRows(chosen, surcharge, scores)))
  }

  /** `compare_vendors(distance_km, weight_kg, priority)`. */
  function CompareVendors(vendors: seq<Vendor>, distance: real, weight: real, priority: string): (r: Comparison)
    ensures r.Emergency? <==> vendors == []
    ensures r.Emergency? ==> r.bestVendor == "Emergency Logistics" && r.bestPrice == EffectiveDistance(distance) * 3.5
    ensures r.Emergency? ==>
      r.fallbackTable == [FallbackRow("Emergency Logistics", EffectiveDistance(distance) * 3.5, 3.5, 0.8, 6.0, "Standard", 6.0, 6.0, 1, true)]
  {
    var d := EffectiveDistance(distance);
    if vendors == [] then FallbackVendor(d)
    else
      var rows := Analyse(vendors, d, weight);
      var c := Candidates(rows);
      assert |c.0| > 0 by {
        if !c.1 {
          assert Feasible(rows) != [];
        }
      }
      RankCandidates(c.0, c.1, priority)
  }

  /** The candidates are never empty when there are vendors. */
  lemma {:induction false} CandidatesNonEmpty(rows: seq<Row>)
    requires rows != []
    ensures |Candidates(rows).0| > 0
  {
    if !Candidates(rows).1 {
      assert Feasible(rows) != [];
    }
  }

  /** The pick is the first candidate with the highest composite score, at its total cost. */
  lemma {:induction false} RankCandidatesBest(chosen: seq<Row>, surcharge: bool, priority: string)
    requires |chosen| > 0
    ensures var scores := Scores(Weights(priority), chosen);
      var r := RankCandidates(chosen, surcharge, priority);
      exists k :: 0 <= k < |chosen|
        && r.bestVendor == chosen[k].vendor.name && r.bestPrice == chosen[k].totalCost
        && (forall i :: 0 <= i < |chosen| ==> scores[i] <= scores[k])
        && (forall i :: 0 <= i < k ==> scores[i] < scores[k])
  {
    var scores := Scores(Weights(priority), chosen);
    var k := FirstMaxIndex(scores);
    assert RankCandidates(chosen, surcharge, priority).bestVendor == chosen[k].vendor.name;
  }

  /** A candidate's total cost is its rate times the distance, with the 25% surcharge when it applies. */
  lemma {:induction false} CandidateCosts(rows: seq<Row>, d: real)
    requires forall i :: 0 <= i < |rows| ==> rows[i].totalCost == rows[i].vendor.costPerKm * d
    ensures var c := Candidates(rows);
      forall i :: 0 <= i < |c.0| ==> c.0[i].totalCost == c.0[i].vendor.costPerKm * d * (if c.1 then 1.25 else 1.0)
  {
    var c := Candidates(rows);
    forall i | 0 <= i < |c.0|
      ensures c.0[i].totalCost == c.0[i].vendor.costPerKm * d * (if c.1 then 1.25 else 1.0)
    {
      if c.1 {
        assert c.0[i] == rows[i].(totalCost := rows[i].totalCost * 1.25);
      } else {
        assert c.0[i] in rows;
        var m :| 0 <= m < |rows| && rows[m] == c.0[i];
      }
    }
  }

  /**
   * The chosen vendor is the first one with the highest composite score among
   * the vendors that can carry the cargo (among all vendors, with the 25%
   * surcharge, when none can), and the price is that vendor's total cost.
   */
  lemma {:induction false} BestVendorIsFirstMaximal(vendors: seq<Vendor>, distance: real, weight: real, priority: string)
    requires vendors != []
    ensures var c := Candidates(Analyse(vendors, EffectiveDistance(distance), weight));
      var scores := Scores(Weights(priority), c.0);
      var r := CompareVendors(vendors, distance, weight, priority);
      exists k :: 0 <= k < |c.0|
        && r.bestVendor == c.0[k].vendor.name && r.bestPrice == c.0[k].totalCost
        && (forall i :: 0 <= i < |c.0| ==> scores[i] <= scores[k])
        && (forall i :: 0 <= i < k ==> scores[i] < scores[k])
  {
    var rows := Analyse(vendors, EffectiveDistance(distance), weight);
    var c := Candidates(rows);
    CandidatesNonEmpty(rows);
    RankCandidatesBest(c.0, c.1, priority);
    assert CompareVendors(vendors, distance, weight, priority) == RankCandidates(c.0, c.1, priority);
  }

  /** Every table row carries the same surcharge flag; without it, every row can carry the cargo. */
  lemma {:induction false} RankCandidatesRows(chosen: seq<Row>, surcharge: bool, priority: string)
    requires |chosen| > 0
    ensures var t := RankCandidates(chosen, surcharge, priority).table;
      |t| == |chosen|
      && (forall i :: 0 <= i < |t| ==> t[i].overweightSurcharge == surcharge && t[i].row in chosen)
  {
    var scores := Scores(Weights(priority), chosen);
    var ranked := RankRows(chosen, surcharge, scores);
    var t := SortByRank(ranked);
    SortByRankCorrect(ranked);
    assert |t| == |multiset(t)| == |multiset(ranked)| == |ranked|;
    forall i | 0 <= i < |t| ensures t[i].overweightSurcharge == surcharge && t[i].row in chosen {
      assert t[i] in multiset(ranked);
      var m :| 0 <= m < |ranked| && ranked[m] == t[i];
    }
  }

  /** The surcharge is applied exactly when no vendor can carry the cargo; without it, every listed vendor can. */
  lemma {:induction false} SurchargeIff(vendors: seq<Vendor>, distance: real, weight: real, priority: string)
    requires vendors != []
    ensures var r := CompareVendors(vendors, distance, weight, priority);
      r.Compared? && |r.table| > 0
      && (r.table[0].overweightSurcharge <==> forall i :: 0 <= i < |vendors| ==> vendors[i].maxCapacityKg < weight)
      && (forall i :: 0 <= i < |r.table| ==> r.table[i].overweightSurcharge == r.table[0].overweightSurcharge)
      && (!r.table[0].overweightSurcharge ==> forall i :: 0 <= i < |r.table| ==> r.table[i].row.weightFeasible)
  {
    var d := EffectiveDistance(distance);
    var rows := Analyse(vendors, d, weight);
    var c := Candidates(rows);
    CandidatesNonEmpty(rows);
    RankCandidatesRows(c.0, c.1, priority);
    assert CompareVendors(vendors, distance, weight, priority) == RankCandidates(c.0, c.1, priority);
    NoneFeasibleIff(vendors, d, weight);
  }

  /** No analysis row is feasible exactly when every vendor's capacity is below the weight. */
  lemma NoneFeasibleIff(vendors: seq<Vendor>, d: real, weight: real)
    ensures Feasible(Analyse(vendors, d, weight)) == [] <==> forall i :: 0 <= i < |vendors| ==> vendors[i].maxCapacityKg < weight
  {
    var rows := Analyse(vendors, d, weight);
    FeasibleIff(rows);
    if Feasible(rows) == [] {
      forall i | 0 <= i < |vendors| ensures vendors[i].maxCapacityKg < weight {
        assert rows[i] in rows;
      }
    } else {
      var r0 := Feasible(rows)[0];
      assert r0 in rows;
      var m :| 0 <= m < |rows| && rows[m] == r0;
    }
  }

  /** The ranked table lists the candidates by rank, so by non-increasing composite score. */
  lemma {:induction false} RankCandidatesOrdered(chosen: seq<Row>, surcharge: bool, priority: string)
    requires |chosen| > 0
    ensures var t := RankCandidates(chosen, surcharge, priority).table;
      SortedByRank(t) && forall i, j :: 0 <= i < j < |t| ==> t[i].compositeScore >= t[j].compositeScore
  {
    var scores := Scores(Weights(priority), chosen);
    var ranked := RankRows(chosen, surcharge, scores);
    var table := SortByRank(ranked);
    SortByRankCorrect(ranked);
    forall i, j | 0 <= i < j < |table| ensures table[i].compositeScore >= table[j].compositeScore {
      assert table[i] in multiset(ranked) && table[j] in multiset(ranked);
      var a :| 0 <= a < |ranked| && ranked[a] == table[i];
      var b :| 0 <= b < |ranked| && ranked[b] == table[j];
      RankOrder(scores, b, a);
    }
  }

  /** The table of `compare_vendors` is ordered by rank, so by non-increasing composite score. */
  lemma {:induction false} TableOrdered(vendors: seq<Vendor>, distance: real, weight: real, priority: string)
    requires vendors != []
    ensures var r := CompareVendors(vendors, distance, weight, priority);
      r.Compared?
      && SortedByRank(r.table)
      && (forall i, j :: 0 <= i < j < |r.table| ==> r.table[i].compositeScore >= r.table[j].compositeScore)
  {
    var rows := Analyse(vendors, EffectiveDistance(distance), weight);
    var c := Candidates(rows);
    CandidatesNonEmpty(rows);
    RankCandidatesOrdered(c.0, c.1, priority);
    assert CompareVendors(vendors, distance, weight, priority) == RankCandidates(c.0, c.1, priority);
  }

  // ------------------------------------------------------------ sustainability

  /** The environmental advice of `_get_eco_recommendations`. */
  datatype EcoAdvice =
    | ChooseVendor(vendor: string)
    | LowCarbonVendors(count: nat)
    | ConsiderRail

  datatype SustainabilityReport =
    | Report(
        totalRouteDistance: real,
        averageCo2Emission: real,
        bestEcoVendor: string,
        worstEcoVendor: string,
        lowCarbonOptions: nat,
        mediumCarbonOptions: nat,
        highCarbonOptions: nat,
        carbonSavingsPotential: real,
        ecoRecommendations: seq<EcoAdvice>)
    | ReportError

  function LowCarbon(vendors: seq<Vendor>): nat
    decreases |vendors|
  {
    if vendors == [] then 0
    else LowCarbon(vendors[..|vendors| - 1]) + (if vendors[|vendors| - 1].emissionPerKm < 0.4 then 1 else 0)
  }

  function MediumCarbon(vendors: seq<Vendor>): nat
    decreases |vendors|
  {
    if vendors == [] then 0
    else
      var e := vendors[|vendors| - 1].emissionPerKm;
      MediumCarbon(vendors[..|vendors| - 1]) + (if 0.4 <= e < 0.7 then 1 else 0)
  }

  function HighCarbon(vendors: seq<Vendor>): nat
    decreases |vendors|
  {
    if vendors == [] then 0
    else HighCarbon(vendors[..|vendors| - 1]) + (if vendors[|vendors| - 1].emissionPerKm >= 0.7 then 1 else 0)
  }

  /** The three carbon categories partition the vendors. */
  lemma {:induction false} CarbonCategoriesPartition(vendors: seq<Vendor>)
    ensures LowCarbon(vendors) + MediumCarbon(vendors) + HighCarbon(vendors) == |vendors|
    decreases |vendors|
  {
    if vendors != [] {
      CarbonCategoriesPartition(vendors[..|vendors| - 1]);
    }
  }

  function Emissions(vendors: seq<Vendor>, d: real): (co2: seq<real>)
    ensures |co2| == |vendors| && forall i :: 0 <= i < |vendors| ==> co2[i] == vendors[i].emissionPerKm * d
  {
    seq(|vendors|, i requires 0 <= i < |vendors| => vendors[i].emissionPerKm * d)
  }

  /** `_get_eco_recommendations`: the cleanest vendor when it beats the average by 30%, the count of low-carbon vendors when more than one, else rail. */
  function EcoRecommendations(vendors: seq<Vendor>, d: real): (r: seq<EcoAdvice>)
    requires vendors != []
    ensures 1 <= |r| <= 2
    ensures (r == [ConsiderRail]) <==>
      (Emissions(vendors, d)[FirstMinIndex(Emissions(vendors, d))] >= Mean(Emissions(vendors, d)) * 0.7
       && LowCarbon(vendors) <= 1)
  {
    var co2 := Emissions(vendors, d);
    var best := FirstMinIndex(co2);
    var recs := (if co2[best] < Mean(co2) * 0.7 then [ChooseVendor(vendors[best].name)] else [])
      + (if LowCarbon(vendors) > 1 then [LowCarbonVendors(LowCarbon(vendors))] else []);
    if recs == [] then [ConsiderRail]
    else
      assert recs[0] != ConsiderRail;
      recs
  }

  /** `get_sustainability_report(distance_km)`: an error report when there are no vendors to rank. */
  function GetSustainabilityReport(vendors: seq<Vendor>, d: real): (r: SustainabilityReport)
    ensures r.ReportError? <==> vendors == []
    ensures r.Report? ==>
      r.lowCarbonOptions + r.mediumCarbonOptions + r.highCarbonOptions == |vendors|
      && r.carbonSavingsPotential >= 0.0
      && |r.ecoRecommendations| >= 1
  {
    if vendors == [] then ReportError
    else
      var co2 := Emissions(vendors, d);
      CarbonCategoriesPartition(vendors);
      Report(d, Mean(co2), vendors[FirstMinIndex(co2)].name, vendors[FirstMaxIndex(co2)].name,
        LowCarbon(vendors), MediumCarbon(vendors), HighCarbon(vendors),
        Max(co2) - Min(co2), EcoRecommendations(vendors, d))
  }

  /** The best eco vendor emits least on the route, the worst most, and the average lies between them. */
  lemma {:induction false} EcoVendorsExtreme(vendors: seq<Vendor>, d: real)
    requires vendors != []
    ensures var r := GetSustainabilityReport(vendors, d);
      var co2 := Emissions(vendors, d);
      (exists b :: 0 <= b < |vendors| && r.bestEcoVendor == vendors[b].name && co2[b] == Min(co2))
      && (exists w :: 0 <= w < |vendors| && r.worstEcoVendor == vendors[w].name && co2[w] == Max(co2))
      && Min(co2) <= r.averageCo2Emission <= Max(co2)
  {
    var co2 := Emissions(vendors, d);
    var b := FirstMinIndex(co2);
    var w := FirstMaxIndex(co2);
    assert co2[b] == Min(co2) by {
      var m :| 0 <= m < |co2| && co2[m] == Min(co2);
    }
    assert co2[w] == Max(co2) by {
      var m :| 0 <= m < |co2| && co2[m] == Max(co2);
    }
    MeanBetweenMinMax(co2);
  }
}
