/**
 * The in-memory route store `RouteVectorDB`: a list of route records seeded
 * with two sample routes, a list of delivery-performance records, the
 * either-direction history filter, the shared-city similarity search (which
 * writes its score into the stored records, sorts stably and truncates), and
 * the route-intelligence summary built from both.
 */
module VectorDb {
  import opened Wrappers
  import opened Text
  import opened Stats

  /** One stored route; `similarityScore` is absent until a similarity search scores the record. */
  datatype RouteRecord = RouteRecord(
    origin: string,
    destination: string,
    distanceKm: real,
    durationHours: real,
    cost: real,
    weather: string,
    trafficFactor: real,
    reliability: real,
    timestamp: string,
    similarityScore: Option<real>)

  datatype PerformanceRecord = PerformanceRecord(
    origin: string,
    destination: string,
    performanceScore: real,
    actualCost: real,
    timestamp: string)

  /** The route averages reported when the pair has a direct history. */
  datatype Averages = Averages(distance: real, duration: real, cost: real, reliability: real, weatherPatterns: seq<string>)

  datatype Intelligence = Intelligence(
    directRoutes: nat,
    similarRoutes: seq<RouteRecord>,
    hasHistoricalData: bool,
    averages: Option<Averages>)

  /** The two routes every new store starts with. */
  const SampleRoutes: seq<RouteRecord> := [
    RouteRecord("mumbai", "delhi", 1400.0, 18.5, 3500.0, "clear", 1.1, 8.5, "2024-01-15T10:00:00", None),
    RouteRecord("bangalore", "chennai", 350.0, 6.2, 875.0, "partly_cloudy", 1.0, 9.1, "2024-01-20T14:30:00", None)
  ]

  /** A record joins the two (normalised) cities, in either direction. */
  predicate Matches(r: RouteRecord, o: string, d: string) {
    (r.origin == o && r.destination == d) || (r.origin == d && r.destination == o)
  }

  /** The records of `routes` that join `o` and `d`, in stored order. */
  function History(routes: seq<RouteRecord>, o: string, d: string): seq<RouteRecord>
    decreases |routes|
  {
    if routes == [] then []
    else History(routes[..|routes| - 1], o, d) + (if Matches(routes[|routes| - 1], o, d) then [routes[|routes| - 1]] else [])
  }

  /** The history holds exactly the stored records that join the pair. */
  lemma {:induction false} HistoryIff(routes: seq<RouteRecord>, o: string, d: string)
    ensures forall r :: r in History(routes, o, d) <==> r in routes && Matches(r, o, d)
    decreases |routes|
  {
    if routes != [] {
      var front := routes[..|routes| - 1];
      HistoryIff(front, o, d);
      assert routes == front + [routes[|routes| - 1]];
    }
  }

  /** Asking for `d -> o` gives the same records, in the same order, as asking for `o -> d`. */
  lemma {:induction false} HistorySymmetric(routes: seq<RouteRecord>, o: string, d: string)
    ensures History(routes, o, d) == History(routes, d, o)
    decreases |routes|
  {
    if routes != [] {
      HistorySymmetric(routes[..|routes| - 1], o, d);
    }
  }

  /** The new record is the only one an append can add to any history. */
  lemma HistoryAfterAppend(routes: seq<RouteRecord>, r: RouteRecord, o: string, d: string)
    ensures History(routes + [r], o, d) == History(routes, o, d) + (if Matches(r, o, d) then [r] else [])
  {
    assert (routes + [r])[..|routes|] == routes;
  }

  /** +0.5 when the record touches the origin, +0.5 when it touches the destination. */
  function Similarity(r: RouteRecord, o: string, d: string): (score: real)
    ensures score == 0.0 || score == 0.5 || score == 1.0
  {
    (if r.origin == o || r.destination == o then 0.5 else 0.0)
      + (if r.origin == d || r.destination == d then 0.5 else 0.0)
  }

  /** The full score goes to records touching both cities, no score to records touching neither; a record joining the pair scores 1.0. */
  lemma SimilarityIff(r: RouteRecord, o: string, d: string)
    ensures Similarity(r, o, d) == 1.0 <==> (r.origin == o || r.destination == o) && (r.origin == d || r.destination == d)
    ensures Similarity(r, o, d) == 0.0 <==> r.origin != o && r.destination != o && r.origin != d && r.destination != d
    ensures Matches(r, o, d) ==> Similarity(r, o, d) == 1.0
  {
  }

  /** The record as a search leaves it: scored when it shares a city, untouched otherwise. */
  function Tag(r: RouteRecord, o: string, d: string): RouteRecord {
    if Similarity(r, o, d) > 0.0 then r.(similarityScore := Some(Similarity(r, o, d))) else r
  }

  /** The stored list after a search has written its scores. */
  function Tagged(routes: seq<RouteRecord>, o: string, d: string): (t: seq<RouteRecord>)
    ensures |t| == |routes|
    decreases |routes|
  {
    if routes == [] then [] else Tagged(routes[..|routes| - 1], o, d) + [Tag(routes[|routes| - 1], o, d)]
  }

  /** A search changes nothing in a record but its similarity score. */
  lemma {:induction false} TaggedKeepsFields(routes: seq<RouteRecord>, o: string, d: string)
    ensures forall i :: 0 <= i < |routes| ==>
      Tagged(routes, o, d)[i] == routes[i].(similarityScore := Tagged(routes, o, d)[i].similarityScore)
    decreases |routes|
  {
    if routes != [] {
      TaggedKeepsFields(routes[..|routes| - 1], o, d);
    }
  }

  /** The scored records of a search, in stored order, before sorting. */
  function Scored(routes: seq<RouteRecord>, o: string, d: string): seq<RouteRecord>
    decreases |routes|
  {
    if routes == [] then []
    else
      var last := routes[|routes| - 1];
      Scored(routes[..|routes| - 1], o, d) + (if Similarity(last, o, d) > 0.0 then [Tag(last, o, d)] else [])
  }

  /** The sort key `x.get('similarity_score', 0)`. */
  function Key(r: RouteRecord): real {
    if r.similarityScore.Some? then r.similarityScore.value else 0.0
  }

  /**
   * Every scored record carries the score 0.5 or 1.0 of a record that shares
   * a city with the pair, and every stored record that shares a city is scored.
   */
  lemma {:induction false} ScoredKeys(routes: seq<RouteRecord>, o: string, d: string)
    ensures forall i :: 0 <= i < |Scored(routes, o, d)| ==>
      (Key(Scored(routes, o, d)[i]) == 0.5 || Key(Scored(routes, o, d)[i]) == 1.0)
    ensures forall r :: r in Scored(routes, o, d) ==>
      exists k :: 0 <= k < |routes| && r == routes[k].(similarityScore := Some(Similarity(routes[k], o, d)))
    ensures forall k :: 0 <= k < |routes| && Similarity(routes[k], o, d) > 0.0 ==> Tag(routes[k], o, d) in Scored(routes, o, d)
    decreases |routes|
  {
    if routes != [] {
      var front := routes[..|routes| - 1];
      ScoredKeys(front, o, d);
      forall k | 0 <= k < |routes| && Similarity(routes[k], o, d) > 0.0 ensures Tag(routes[k], o, d) in Scored(routes, o, d) {
        if k < |front| {
          assert routes[k] == front[k];
          assert Tag(front[k], o, d) in Scored(front, o, d);
        }
      }
      forall r | r in Scored(routes, o, d)
        ensures exists k :: 0 <= k < |routes| && r == routes[k].(similarityScore := Some(Similarity(routes[k], o, d)))
      {
        if r in Scored(front, o, d) {
          var k :| 0 <= k < |front| && r == front[k].(similarityScore := Some(Similarity(front[k], o, d)));
          assert routes[k] == front[k];
        } else {
          assert r == routes[|routes| - 1].(similarityScore := Some(Similarity(routes[|routes| - 1], o, d)));
        }
      }
    }
  }

  /** Inserts `x` in front of the first element whose key is not larger: equal keys keep `x` first. */
  function InsertByKey(x: RouteRecord, t: seq<RouteRecord>): (r: seq<RouteRecord>)
    decreases |t|
  {
    if t == [] || Key(x) >= Key(t[0]) then [x] + t
    else [t[0]] + InsertByKey(x, t[1..])
  }

  lemma {:induction false} InsertPermutes(x: RouteRecord, t: seq<RouteRecord>)
    ensures multiset(InsertByKey(x, t)) == multiset(t) + multiset{x}
    decreases |t|
  {
    if t != [] && Key(x) < Key(t[0]) {
      InsertPermutes(x, t[1..]);
      assert t == [t[0]] + t[1..];
    }
  }

  /** `list.sort(key=..., reverse=True)`: a stable sort by non-increasing key. */
  function SortByKey(s: seq<RouteRecord>): seq<RouteRecord>
    decreases |s|
  {
    if s == [] then [] else InsertByKey(s[0], SortByKey(s[1..]))
  }

  /** The sort neither loses nor invents records. */
  lemma {:induction false} SortPermutes(s: seq<RouteRecord>)
    ensures multiset(SortByKey(s)) == multiset(s)
    decreases |s|
  {
    if s != [] {
      SortPermutes(s[1..]);
      InsertPermutes(s[0], SortByKey(s[1..]));
      assert s == [s[0]] + s[1..];
    }
  }

  predicate SortedByKey(s: seq<RouteRecord>) {
    forall i, j :: 0 <= i < j < |s| ==> Key(s[i]) >= Key(s[j])
  }

  lemma {:induction false} InsertKeepsSorted(x: RouteRecord, t: seq<RouteRecord>)
    requires SortedByKey(t)
    ensures SortedByKey(InsertByKey(x, t))
    decreases |t|
  {
    if t != [] && Key(x) < Key(t[0]) {
      InsertKeepsSorted(x, t[1..]);
      InsertPermutes(x, t[1..]);
      var rest := InsertByKey(x, t[1..]);
      forall k | 0 <= k < |rest| ensures Key(t[0]) >= Key(rest[k]) {
        assert rest[k] in multiset(rest);
        if rest[k] != x {
          assert rest[k] in multiset(t[1..]);
          var m :| 0 <= m < |t[1..]| && t[1..][m] == rest[k];
          assert t[1..][m] == t[m + 1];
        }
      }
    }
  }

  /** The search result is ordered by non-increasing score. */
  lemma {:induction false} SortByKeySorted(s: seq<RouteRecord>)
    ensures SortedByKey(SortByKey(s))
    decreases |s|
  {
    if s != [] {
      SortByKeySorted(s[1..]);
      InsertKeepsSorted(s[0], SortByKey(s[1..]));
    }
  }

  /** The records of `s` with the given key, in order. */
  function WithKey(s: seq<RouteRecord>, k: real): seq<RouteRecord>
    decreases |s|
  {
    if s == [] then [] else (if Key(s[0]) == k then [s[0]] else []) + WithKey(s[1..], k)
  }

  lemma {:induction false} WithKeyKeys(s: seq<RouteRecord>, k: real)
    ensures forall i :: 0 <= i < |WithKey(s, k)| ==> Key(WithKey(s, k)[i]) == k
    decreases |s|
  {
    if s != [] {
      WithKeyKeys(s[1..], k);
    }
  }

  lemma {:induction false} InsertBelowHigher(x: RouteRecord, high: seq<RouteRecord>, low: seq<RouteRecord>)
    requires Key(x) == 0.5
    requires forall i :: 0 <= i < |high| ==> Key(high[i]) == 1.0
    requires forall i :: 0 <= i < |low| ==> Key(low[i]) == 0.5
    ensures InsertByKey(x, high + low) == high + [x] + low
    decreases |high|
  {
    if high != [] {
      assert (high + low)[0] == high[0];
      assert (high + low)[1..] == high[1..] + low;
      InsertBelowHigher(x, high[1..], low);
    }
  }

  /**
   * Stability: with the scores a search produces (0.5 and 1.0), the sorted list is
   * the full-score records in stored order followed by the half-score records in stored order.
   */
  lemma {:induction false} SortIsStable(s: seq<RouteRecord>)
    requires forall i :: 0 <= i < |s| ==> Key(s[i]) == 0.5 || Key(s[i]) == 1.0
    ensures SortByKey(s) == WithKey(s, 1.0) + WithKey(s, 0.5)
    decreases |s|
  {
    if s != [] {
      var rest := s[1..];
      assert forall i :: 0 <= i < |rest| ==> rest[i] == s[i + 1];
      SortIsStable(rest);
      if Key(s[0]) == 0.5 {
        StableStepLow(s);
      } else {
        StableStepHigh(s);
      }
    }
  }

  lemma {:induction false} StableStepLow(s: seq<RouteRecord>)
    requires |s| > 0 && Key(s[0]) == 0.5
    requires forall i :: 0 <= i < |s| ==> Key(s[i]) == 0.5 || Key(s[i]) == 1.0
    requires SortByKey(s[1..]) == WithKey(s[1..], 1.0) + WithKey(s[1..], 0.5)
    ensures SortByKey(s) == WithKey(s, 1.0) + WithKey(s, 0.5)
  {
    var high, low := WithKey(s[1..], 1.0), WithKey(s[1..], 0.5);
    WithKeyKeys(s[1..], 1.0);
    WithKeyKeys(s[1..], 0.5);
    InsertBelowHigher(s[0], high, low);
    assert SortByKey(s) == InsertByKey(s[0], high + low);
    assert WithKey(s, 1.0) == high;
    assert WithKey(s, 0.5) == [s[0]] + low;
    assert high + [s[0]] + low == high + ([s[0]] + low);
  }

  lemma {:induction false} StableStepHigh(s: seq<RouteRecord>)
    requires |s| > 0 && Key(s[0]) == 1.0
    requires SortByKey(s[1..]) == WithKey(s[1..], 1.0) + WithKey(s[1..], 0.5)
    ensures SortByKey(s) == WithKey(s, 1.0) + WithKey(s, 0.5)
  {
    var high, low := WithKey(s[1..], 1.0), WithKey(s[1..], 0.5);
    var t := high + low;
    assert t == [] || Key(t[0]) <= 1.0 by {
      if high != [] {
        WithKeyKeys(s[1..], 1.0);
        assert t[0] == high[0];
      } else if low != [] {
        WithKeyKeys(s[1..], 0.5);
        assert t[0] == low[0];
      }
    }
    assert SortByKey(s) == [s[0]] + t;
    assert WithKey(s, 1.0) == [s[0]] + high;
    assert WithKey(s, 0.5) == low;
    assert [s[0]] + t == ([s[0]] + high) + low;
  }

  /** Python's `s[:limit]`, where a negative limit drops that many records from the end. */
  function SliceTo(s: seq<RouteRecord>, limit: int): (r: seq<RouteRecord>)
    ensures |r| <= |s| && r == s[..|r|]
    ensures limit >= 0 ==> |r| == if limit < |s| then limit else |s|
    ensures limit < 0 ==> |r| == if -limit < |s| then |s| + limit else 0
  {
    if limit >= 0 then (if limit < |s| then s[..limit] else s)
    else if -limit < |s| then s[..|s| + limit]
    else []
  }

  /** What a search returns: the scored records, sorted by score, cut at `limit`. */
  function SimilarRoutes(routes: seq<RouteRecord>, o: string, d: string, limit: int): seq<RouteRecord> {
    SliceTo(SortByKey(Scored(routes, o, d)), limit)
  }

  /**
   * A search returns at most `limit` records, ordered by non-increasing score,
   * each scored 0.5 or 1.0; when the limit does not cut, it returns every
   * stored record that shares a city with the pair.
   */
  lemma SimilarRoutesShape(routes: seq<RouteRecord>, o: string, d: string, limit: int)
    ensures limit >= 0 ==> |SimilarRoutes(routes, o, d, limit)| <= limit
    ensures SortedByKey(SimilarRoutes(routes, o, d, limit))
    ensures forall i :: 0 <= i < |SimilarRoutes(routes, o, d, limit)| ==>
      Key(SimilarRoutes(routes, o, d, limit)[i]) == 0.5 || Key(SimilarRoutes(routes, o, d, limit)[i]) == 1.0
    ensures limit >= |Scored(routes, o, d)| ==> forall k :: 0 <= k < |routes| && Similarity(routes[k], o, d) > 0.0 ==>
      Tag(routes[k], o, d) in SimilarRoutes(routes, o, d, limit)
  {
    var scored := Scored(routes, o, d);
    var sorted := SortByKey(scored);
    SortByKeySorted(scored);
    SortPermutes(scored);
    ScoredKeys(routes, o, d);
    forall i | 0 <= i < |sorted| ensures Key(sorted[i]) == 0.5 || Key(sorted[i]) == 1.0 {
      assert sorted[i] in multiset(scored);
      var k :| 0 <= k < |scored| && scored[k] == sorted[i];
    }
    if limit >= |scored| {
      assert |sorted| == |multiset(sorted)| == |scored|;
      assert SimilarRoutes(routes, o, d, limit) == sorted;
      forall k | 0 <= k < |routes| && Similarity(routes[k], o, d) > 0.0 ensures Tag(routes[k], o, d) in sorted {
        assert Tag(routes[k], o, d) in multiset(scored);
      }
    }
  }

  /** The values of one numeric field over a list of routes. */
  function Distances(rs: seq<RouteRecord>): (v: seq<real>)
    ensures |v| == |rs| && forall i :: 0 <= i < |rs| ==> v[i] == rs[i].distanceKm
  {
    seq(|rs|, i requires 0 <= i < |rs| => rs[i].distanceKm)
  }

  function Durations(rs: seq<RouteRecord>): (v: seq<real>)
    ensures |v| == |rs| && forall i :: 0 <= i < |rs| ==> v[i] == rs[i].durationHours
  {
    seq(|rs|, i requires 0 <= i < |rs| => rs[i].durationHours)
  }

  function Costs(rs: seq<RouteRecord>): (v: seq<real>)
    ensures |v| == |rs| && forall i :: 0 <= i < |rs| ==> v[i] == rs[i].cost
  {
    seq(|rs|, i requires 0 <= i < |rs| => rs[i].cost)
  }

  function Reliabilities(rs: seq<RouteRecord>): (v: seq<real>)
    ensures |v| == |rs| && forall i :: 0 <= i < |rs| ==> v[i] == rs[i].reliability
  {
    seq(|rs|, i requires 0 <= i < |rs| => rs[i].reliability)
  }

  function Weathers(rs: seq<RouteRecord>): (v: seq<string>)
    ensures |v| == |rs| && forall i :: 0 <= i < |rs| ==> v[i] == rs[i].weather
  {
    seq(|rs|, i requires 0 <= i < |rs| => rs[i].weather)
  }

  /**
   * The intelligence dictionary: the count of direct routes, the similar routes,
   * and, only when there is a direct history, the averages of its fields, each
   * between that field's smallest and largest value.
   */
  function Summarize(direct: seq<RouteRecord>, similar: seq<RouteRecord>): (r: Intelligence)
    ensures r.directRoutes == |direct| && r.similarRoutes == similar
    ensures r.hasHistoricalData <==> |direct| > 0
    ensures r.averages.Some? <==> |direct| > 0
    ensures r.averages.Some? ==>
      (Min(Distances(direct)) <= r.averages.value.distance <= Max(Distances(direct))
      && Min(Durations(direct)) <= r.averages.value.duration <= Max(Durations(direct))
      && Min(Costs(direct)) <= r.averages.value.cost <= Max(Costs(direct))
      && Min(Reliabilities(direct)) <= r.averages.value.reliability <= Max(Reliabilities(direct))
      && r.averages.value.weatherPatterns == Weathers(direct))
  {
    if direct == [] then Intelligence(0, similar, false, None)
    else
      MeanBetweenMinMax(Distances(direct));
      MeanBetweenMinMax(Durations(direct));
      MeanBetweenMinMax(Costs(direct));
      MeanBetweenMinMax(Reliabilities(direct));
      Intelligence(|direct|, similar, true, Some(Averages(
        Mean(Distances(direct)), Mean(Durations(direct)), Mean(Costs(direct)),
        Mean(Reliabilities(direct)), Weathers(direct))))
  }

  /** The store reports historical data for a pair exactly when some stored record joins it. */
  lemma HasHistoryIff(routes: seq<RouteRecord>, similar: seq<RouteRecord>, o: string, d: string)
    ensures Summarize(History(routes, o, d), similar).hasHistoricalData <==>
      exists i :: 0 <= i < |routes| && Matches(routes[i], o, d)
  {
    HistoryIff(routes, o, d);
    var h := History(routes, o, d);
    if h != [] {
      assert h[0] in h;
    } else if exists i :: 0 <= i < |routes| && Matches(routes[i], o, d) {
      var i :| 0 <= i < |routes| && Matches(routes[i], o, d);
      assert routes[i] in routes;
    }
  }

  /** A search scores records but never adds, drops or reorders them, so it leaves every history as it was. */
  lemma {:induction false} TaggedKeepsHistory(routes: seq<RouteRecord>, o: string, d: string, a: string, b: string)
    ensures |History(Tagged(routes, o, d), a, b)| == |History(routes, a, b)|
    decreases |routes|
  {
    if routes != [] {
      var front := routes[..|routes| - 1];
      TaggedKeepsHistory(front, o, d, a, b);
      var t := Tagged(routes, o, d);
      assert t[..|t| - 1] == Tagged(front, o, d);
    }
  }

  /** One step of the search loop: the record at `i` is read untouched, then replaced by its tagged form. */
  lemma TaggedStep(original: seq<RouteRecord>, i: nat, o: string, d: string)
    requires i < |original|
    ensures (Tagged(original[..i], o, d) + original[i..])[i] == original[i]
    ensures (Tagged(original[..i], o, d) + original[i..])[i := Tag(original[i], o, d)]
      == Tagged(original[..i + 1], o, d) + original[i + 1..]
  {
    var front := original[..i + 1];
    assert front[..i] == original[..i] && front[i] == original[i];
    assert Tagged(front, o, d) == Tagged(original[..i], o, d) + [Tag(original[i], o, d)];
  }

  /** One step of the search loop: the scored list grows by the record at `i` exactly when it shares a city. */
  lemma ScoredStep(original: seq<RouteRecord>, i: nat, o: string, d: string)
    requires i < |original|
    ensures Scored(original[..i + 1], o, d)
      == Scored(original[..i], o, d) + (if Similarity(original[i], o, d) > 0.0 then [Tag(original[i], o, d)] else [])
  {
    var front := original[..i + 1];
    assert front[..i] == original[..i] && front[i] == original[i];
  }

  class RouteVectorDB {
    var routes: seq<RouteRecord>
    var performanceHistory: seq<PerformanceRecord>

    /** A new store holds the two sample routes and no performance records. */
    constructor()
      ensures routes == SampleRoutes && performanceHistory == []
    {
      routes := SampleRoutes;
      performanceHistory := [];
    }

    /** `add_route`: appends one record with normalised city names; earlier records are untouched. */
    method AddRoute(origin: string, destination: string, distanceKm: real, durationHours: real, cost: real,
                    weather: string, trafficFactor: real, reliability: real, now: string)
      modifies this`routes
      ensures routes == old(routes) + [RouteRecord(Normalize(origin), Normalize(destination), distanceKm,
        durationHours, cost, weather, trafficFactor, reliability, now, None)]
    {
      var record := RouteRecord(Normalize(origin), Normalize(destination), distanceKm,
        durationHours, cost, weather, trafficFactor, reliability, now, None);
      routes := routes + [record];
    }

    /** `get_route_history`: the stored records joining the two cities, in either direction, in stored order. */
    method GetRouteHistory(origin: string, destination: string) returns (matching: seq<RouteRecord>)
      ensures matching == History(routes, Normalize(origin), Normalize(destination))
    {
      matching := MatchingRoutes(Normalize(origin), Normalize(destination));
    }

    /** The filter loop of `get_route_history`, over already normalised city names. */
    method MatchingRoutes(o: string, d: string) returns (matching: seq<RouteRecord>)
      ensures matching == History(routes, o, d)
    {
      matching := [];
      var i := 0;
      while i < |routes|
        invariant 0 <= i <= |routes|
        invariant matching == History(routes[..i], o, d)
      {
        var route := routes[i];
        assert routes[..i + 1][..i] == routes[..i] && routes[..i + 1][i] == route;
        assert History(routes[..i + 1], o, d) == History(routes[..i], o, d) + (if Matches(route, o, d) then [route] else []);
        if (route.origin == o && route.destination == d) || (route.origin == d && route.destination == o) {
          matching := matching + [route];
        }
        i := i + 1;
      }
      assert routes[..i] == routes;
    }

    /**
     * `get_similar_routes`: scores every record against the pair, writes the score
     * into each record that shares a city, and returns those records sorted by
     * score and cut at `limit`.
     */
    method GetSimilarRoutes(origin: string, destination: string, limit: int) returns (similar: seq<RouteRecord>)
      modifies this`routes
      ensures routes == Tagged(old(routes), Normalize(origin), Normalize(destination))
      ensures similar == SimilarRoutes(old(routes), Normalize(origin), Normalize(destination), limit)
    {
      similar := ScoreRoutes(Normalize(origin), Normalize(destination), limit);
    }

    /** The scoring loop, sort and cut of `get_similar_routes`, over already normalised city names. */
    method ScoreRoutes(o: string, d: string, limit: int) returns (similar: seq<RouteRecord>)
      modifies this`routes
      ensures routes == Tagged(old(routes), o, d)
      ensures similar == SimilarRoutes(old(routes), o, d, limit)
    {
      ghost var original := routes;
      var stored := routes;
      similar := [];
      var i := 0;
      while i < |stored|
        invariant 0 <= i <= |stored| && |stored| == |original|
        invariant stored == Tagged(original[..i], o, d) + original[i..]
        invariant similar == Scored(original[..i], o, d)
      {
        TaggedStep(original, i, o, d);
        ScoredStep(original, i, o, d);
        var route := stored[i];
        var score := 0.0;
        if route.origin == o || route.destination == o {
          score := score + 0.5;
        }
        if route.origin == d || route.destination == d {
          score := score + 0.5;
        }
        if score > 0.0 {
          stored := stored[i := route.(similarityScore := Some(score))];
          similar := similar + [stored[i]];
        }
        i := i + 1;
      }
      assert original[..i] == original && original[i..] == [];
      routes := stored;
      similar := SortByKey(similar);
      similar := SliceTo(similar, limit);
    }

    /** `record_performance`: appends one record with normalised city names; the frame leaves the routes untouched. */
    method RecordPerformance(origin: string, destination: string, performanceScore: real, actualCost: real, now: string)
      modifies this`performanceHistory
      ensures performanceHistory == old(performanceHistory) +
        [PerformanceRecord(Normalize(origin), Normalize(destination), performanceScore, actualCost, now)]
    {
      performanceHistory := performanceHistory +
        [PerformanceRecord(Normalize(origin), Normalize(destination), performanceScore, actualCost, now)];
    }

    /** `get_route_intelligence`: the direct history, then a similarity search (five records), summarised. */
    method GetRouteIntelligence(origin: string, destination: string) returns (intel: Intelligence)
      modifies this`routes
      ensures intel == Summarize(History(old(routes), Normalize(origin), Normalize(destination)),
        SimilarRoutes(old(routes), Normalize(origin), Normalize(destination), 5))
      ensures routes == Tagged(old(routes), Normalize(origin), Normalize(destination))
    {
      var direct := GetRouteHistory(origin, destination);
      var similar := GetSimilarRoutes(origin, destination, 5);
      intel := Summarize(direct, similar);
    }
  }
}
