/** The transport network analyser: a proximity graph over a sample of the
    stops, a three-level load per stop from its connection count against
    its number of lines, the results sorted by load, and the summary counts.
    The distance between two stops is a parameter. */
module Transport {

  import opened Common
  import opened Sorting

  /** A stop as loaded: identifier, name, type, coordinates and the number
      of lines serving it. */
  datatype Station = Station(id: string, name: string, kind: string, lat: real, lon: real, numLines: nat)

  /** An edge of the graph: the target stop's identifier and the weight. */
  type Edge = (string, real)

  type Graph = map<string, seq<Edge>>

  /** The defaults of `build_fast_graph`. */
  const MaxDistance: real := 1.0
  const SampleSize: nat := 5000

  /** Distances are never negative (the source computes a square root). */
  ghost predicate NonNegativeDistance(distance: (Station, Station) -> real)
  {
    forall a, b :: distance(a, b) >= 0.0
  }

  // ---------------------------------------------------------------------------
  // Load of a stop

  /** The load of a stop with `connections` > 0 neighbours and `numLines`
      lines: the ratio of connections to twice the lines, capped at 20 and
      at least 1, gives 0.3 below 0.5, 0.8 above 2 and 0.5 in between. */
  function RatioLoad(connections: nat, numLines: nat): (oe: real)
    ensures oe == 0.3 || oe == 0.5 || oe == 0.8
  {
    var ratio := connections as real / Capacity(numLines) as real;
    if ratio < 0.5 then 0.3 else if ratio > 2.0 then 0.8 else 0.5
  }

  /** The divisor of the ratio: twice the lines, capped at 20, at least 1. */
  function Capacity(numLines: nat): (c: nat)
    ensures 1 <= c <= 20
  {
    var optimal := MinN(numLines * 2, 20);
    if optimal >= 1 then optimal else 1
  }

  /** The thresholds in whole numbers: underloaded exactly when twice the
      connections are below the capacity, overloaded exactly when the
      connections exceed twice the capacity. With no lines the capacity is
      1 and nothing is divided by zero. */
  lemma RatioLoadThresholds(connections: nat, numLines: nat)
    ensures RatioLoad(connections, numLines) == 0.3 <==> 2 * connections < Capacity(numLines)
    ensures RatioLoad(connections, numLines) == 0.8 <==> connections > 2 * Capacity(numLines)
    ensures RatioLoad(connections, numLines) == 0.5 <==>
              Capacity(numLines) <= 2 * connections && connections <= 2 * Capacity(numLines)
  {
    var c := Capacity(numLines) as real;
    var n := connections as real;
    RatioCompare(n, c);
    assert (2 * connections) as real == 2.0 * n;
    assert (2 * Capacity(numLines)) as real == 2.0 * c;
  }

  /** The ratio n / c against the two thresholds, without division. */
  lemma RatioCompare(n: real, c: real)
    requires c > 0.0
    ensures n / c < 0.5 <==> 2.0 * n < c
    ensures n / c > 2.0 <==> n > 2.0 * c
  {
    var ratio := n / c;
    assert ratio * c == n;
    ScaleCompare(ratio, c, 0.5);
    ScaleCompare(ratio, c, 2.0);
  }

  lemma ScaleCompare(ratio: real, c: real, t: real)
    requires c > 0.0
    ensures ratio < t <==> ratio * c < t * c
    ensures ratio > t <==> ratio * c > t * c
  {
  }

  /** For a fixed number of lines, more connections never lower the load. */
  lemma RatioLoadMonotone(a: nat, b: nat, numLines: nat)
    requires a <= b
    ensures RatioLoad(a, numLines) <= RatioLoad(b, numLines)
  {
    RatioLoadThresholds(a, numLines);
    RatioLoadThresholds(b, numLines);
  }

  /** The neighbours the graph records for a stop, none when absent. */
  function NeighboursIn(graph: Graph, id: string): seq<Edge>
  {
    if id in graph then graph[id] else []
  }

  /** `calculate_O_E`: 0.5 for a stop without neighbours, otherwise the
      ratio load; always one of 0.3, 0.5 and 0.8. */
  function StationLoad(s: Station, graph: Graph): (oe: real)
    ensures oe == 0.3 || oe == 0.5 || oe == 0.8
    ensures NeighboursIn(graph, s.id) == [] ==> oe == 0.5
  {
    var neighbours := NeighboursIn(graph, s.id);
    if neighbours == [] then 0.5 else RatioLoad(|neighbours|, s.numLines)
  }

  // ---------------------------------------------------------------------------
  // The graph

  /** The stops the graph is built on: the first `sampleSize` of them. */
  function Working(stations: seq<Station>, sampleSize: nat): (w: seq<Station>)
    ensures |w| == MinN(|stations|, sampleSize) && w == stations[..|w|]
  {
    if |stations| > sampleSize then stations[..sampleSize] else stations
  }

  /** Stop j is a neighbour of stop i: a different position, a position
      divisible by 10, and closer than `maxDistance`. */
  predicate IsEdge(working: seq<Station>, i: nat, j: nat, maxDistance: real,
                   distance: (Station, Station) -> real)
    requires i < |working| && j < |working|
  {
    i != j && j % 10 == 0 && distance(working[i], working[j]) < maxDistance
  }

  /** The weight of an edge of length d. */
  function Weight(d: real): (w: real)
    requires d >= 0.0
    ensures 0.0 < w <= 1.0
  {
    WeightBounds(d);
    1.0 / (1.0 + d)
  }

  lemma WeightBounds(d: real)
    requires d >= 0.0
    ensures 0.0 < 1.0 / (1.0 + d) <= 1.0
  {
    var w := 1.0 / (1.0 + d);
    assert w * (1.0 + d) == 1.0;
  }

  /** The edges of stop i towards the stops at positions below m, in
      position order. */
  function Edges(working: seq<Station>, i: nat, m: nat, maxDistance: real,
                 distance: (Station, Station) -> real): seq<Edge>
    requires i < |working| && m <= |working| && NonNegativeDistance(distance)
  {
    if m == 0 then []
    else
      var j := m - 1;
      Edges(working, i, j, maxDistance, distance)
      + if IsEdge(working, i, j, maxDistance, distance)
        then [(working[j].id, Weight(distance(working[i], working[j])))]
        else []
  }

  /** An edge is recorded exactly for every neighbouring position, with
      the weight of its distance; so there is no edge from a position to
      itself, and every weight lies in (0, 1]. */
  lemma {:induction false} EdgesExactly(working: seq<Station>, i: nat, m: nat, maxDistance: real,
                                        distance: (Station, Station) -> real)
    requires i < |working| && m <= |working| && NonNegativeDistance(distance)
    ensures forall e :: e in Edges(working, i, m, maxDistance, distance) <==>
              exists j :: 0 <= j < m && IsEdge(working, i, j, maxDistance, distance)
                          && e == (working[j].id, Weight(distance(working[i], working[j])))
    ensures forall e :: e in Edges(working, i, m, maxDistance, distance) ==> 0.0 < e.1 <= 1.0
  {
    if m > 0 {
      EdgesExactly(working, i, m - 1, maxDistance, distance);
    }
  }

  /** The graph after the first k stops: each stop's identifier mapped to
      its edges, a later stop with the same identifier replacing an earlier
      one's entry. */
  function GraphUpTo(working: seq<Station>, k: nat, maxDistance: real,
                     distance: (Station, Station) -> real): Graph
    requires k <= |working| && NonNegativeDistance(distance)
  {
    if k == 0 then map[]
    else
      GraphUpTo(working, k - 1, maxDistance, distance)
      [working[k - 1].id := Edges(working, k - 1, |working|, maxDistance, distance)]
  }

  /** Every stop of the sample has an entry and nothing else does. */
  lemma {:induction false} GraphUpToKeys(working: seq<Station>, k: nat, maxDistance: real,
                                         distance: (Station, Station) -> real)
    requires k <= |working| && NonNegativeDistance(distance)
    ensures forall id :: id in GraphUpTo(working, k, maxDistance, distance) <==>
              exists i :: 0 <= i < k && working[i].id == id
  {
    if k > 0 {
      GraphUpToKeys(working, k - 1, maxDistance, distance);
      assert working[k - 1].id in GraphUpTo(working, k, maxDistance, distance);
    }
  }

  /** The entry of a stop whose identifier no later stop of the first k
      repeats is exactly its edges. */
  lemma {:induction false} GraphUpToEntry(working: seq<Station>, k: nat, i: nat, maxDistance: real,
                                          distance: (Station, Station) -> real)
    requires i < k <= |working| && NonNegativeDistance(distance)
    requires forall l :: i < l < k ==> working[l].id != working[i].id
    ensures working[i].id in GraphUpTo(working, k, maxDistance, distance)
    ensures GraphUpTo(working, k, maxDistance, distance)[working[i].id]
            == Edges(working, i, |working|, maxDistance, distance)
  {
    if i < k - 1 {
      GraphUpToEntry(working, k - 1, i, maxDistance, distance);
    }
  }

  /** `build_fast_graph`: the nested loop over the sample filling each
      stop's list of edges. */
  method BuildFastGraph(stations: seq<Station>, maxDistance: real, sampleSize: nat,
                        distance: (Station, Station) -> real)
    returns (graph: Graph, working: seq<Station>)
    requires NonNegativeDistance(distance)
    ensures working == Working(stations, sampleSize)
    ensures graph == GraphUpTo(working, |working|, maxDistance, distance)
  {
    working := if |stations| > sampleSize then stations[..sampleSize] else stations;
    graph := map[];
    for i := 0 to |working|
      invariant graph == GraphUpTo(working, i, maxDistance, distance)
    {
      ghost var before := graph;
      var id := working[i].id;
      graph := graph[id := []];
      for j := 0 to |working|
        invariant graph == before[id := Edges(working, i, j, maxDistance, distance)]
      {
        if i != j && j % 10 == 0 {
          var d := distance(working[i], working[j]);
          if d < maxDistance {
            assert IsEdge(working, i, j, maxDistance, distance);
            assert Edges(working, i, j + 1, maxDistance, distance)
                == Edges(working, i, j, maxDistance, distance) + [(working[j].id, Weight(d))];
            graph := graph[id := graph[id] + [(working[j].id, 1.0 / (1.0 + d))]];
          } else {
            assert !IsEdge(working, i, j, maxDistance, distance);
            assert Edges(working, i, j + 1, maxDistance, distance) == Edges(working, i, j, maxDistance, distance);
          }
        } else {
          assert !IsEdge(working, i, j, maxDistance, distance);
          assert Edges(working, i, j + 1, maxDistance, distance) == Edges(working, i, j, maxDistance, distance);
        }
      }
    }
  }

  // ---------------------------------------------------------------------------
  // Results

  /** One row of the analysis. */
  datatype StationResult = StationResult(stopId: string, stopName: string, kind: string, numLines: nat,
                                         lat: real, lon: real, oe: real, connections: nat)

  function ResultOf(s: Station, graph: Graph): (r: StationResult)
    ensures r.stopId == s.id && r.connections == |NeighboursIn(graph, s.id)|
    ensures r.oe == StationLoad(s, graph)
  {
    StationResult(s.id, s.name, s.kind, s.numLines, s.lat, s.lon, StationLoad(s, graph),
                  |NeighboursIn(graph, s.id)|)
  }

  /** The rows of the stops, in stop order. */
  function ResultsOf(stations: seq<Station>, graph: Graph): (r: seq<StationResult>)
    ensures |r| == |stations|
    ensures forall i :: 0 <= i < |r| ==> r[i] == ResultOf(stations[i], graph)
  {
    if stations == [] then []
    else ResultsOf(stations[..|stations| - 1], graph) + [ResultOf(stations[|stations| - 1], graph)]
  }

  /** The sort key of the results. */
  function OeOf(r: StationResult): real
  {
    r.oe
  }

  /** The rows of the sample, sorted by load. */
  function Analysis(stations: seq<Station>, distance: (Station, Station) -> real): seq<StationResult>
    requires NonNegativeDistance(distance)
  {
    var working := Working(stations, SampleSize);
    SortBy(ResultsOf(working, GraphUpTo(working, |working|, MaxDistance, distance)), OeOf)
  }

  /** `analyze_network` after loading: the graph with the default distance
      and sample, one row per stop of the sample, sorted by load. The rows
      are those of the sample, each once, in ascending order of load. */
  method AnalyzeNetwork(stations: seq<Station>, distance: (Station, Station) -> real)
    returns (results: seq<StationResult>)
    requires NonNegativeDistance(distance)
    ensures results == Analysis(stations, distance)
    ensures |results| == MinN(|stations|, SampleSize)
    ensures SortedBy(results, OeOf)
    ensures forall r :: r in results <==>
              exists s :: s in Working(stations, SampleSize) && r == ResultOf(s, GraphUpTo(
                Working(stations, SampleSize), |Working(stations, SampleSize)|, MaxDistance, distance))
  {
    var graph, working := BuildFastGraph(stations, MaxDistance, SampleSize, distance);
    var rows: seq<StationResult> := [];
    for i := 0 to |working|
      invariant rows == ResultsOf(working[..i], graph)
    {
      assert working[..i + 1][..i] == working[..i];
      rows := rows + [ResultOf(working[i], graph)];
    }
    assert working[..|working|] == working;
    results := SortBy(rows, OeOf);
    AnalysisProperties(stations, distance);
  }

  /** The analysis has one row per stop of the sample, each row that of a
      stop of the sample and every such row present, in ascending order of
      load. */
  lemma AnalysisProperties(stations: seq<Station>, distance: (Station, Station) -> real)
    requires NonNegativeDistance(distance)
    ensures |Analysis(stations, distance)| == MinN(|stations|, SampleSize)
    ensures SortedBy(Analysis(stations, distance), OeOf)
    ensures forall r :: r in Analysis(stations, distance) <==>
              exists s :: s in Working(stations, SampleSize) && r == ResultOf(s, GraphUpTo(
                Working(stations, SampleSize), |Working(stations, SampleSize)|, MaxDistance, distance))
  {
    var working := Working(stations, SampleSize);
    var graph := GraphUpTo(working, |working|, MaxDistance, distance);
    var rows := ResultsOf(working, graph);
    SortByProperties(rows, OeOf);
    ResultsMembers(working, graph);
    var results := SortBy(rows, OeOf);
    forall r ensures r in results <==> r in rows {
      assert r in results <==> r in multiset(results);
      assert r in rows <==> r in multiset(rows);
    }
  }

  /** The rows are exactly the rows of the stops. */
  lemma ResultsMembers(stations: seq<Station>, graph: Graph)
    ensures forall r :: r in ResultsOf(stations, graph) <==> exists s :: s in stations && r == ResultOf(s, graph)
  {
    var rows := ResultsOf(stations, graph);
    forall r ensures r in rows <==> exists s :: s in stations && r == ResultOf(s, graph) {
      if r in rows {
        var i :| 0 <= i < |rows| && rows[i] == r;
        assert stations[i] in stations;
      }
      if s :| s in stations && r == ResultOf(s, graph) {
        var i :| 0 <= i < |stations| && stations[i] == s;
        assert rows[i] == r;
      }
    }
  }

  // ---------------------------------------------------------------------------
  // Statistics

  function CountAtMost(results: seq<StationResult>, bound: real): (n: nat)
    ensures n <= |results|
  {
    if results == [] then 0
    else CountAtMost(results[..|results| - 1], bound) + (if results[|results| - 1].oe <= bound then 1 else 0)
  }

  function CountAtLeast(results: seq<StationResult>, bound: real): (n: nat)
    ensures n <= |results|
  {
    if results == [] then 0
    else CountAtLeast(results[..|results| - 1], bound) + (if results[|results| - 1].oe >= bound then 1 else 0)
  }

  /** The optimal stops (load at most 0.35), the problematic ones (at
      least 0.7) and the share of optimal stops in percent, None when there
      are no results and the division fails. */
  datatype Statistics = Statistics(optimal: nat, problematic: nat, optimality: Option<real>)

  const OptimalBound: real := 0.35
  const ProblematicBound: real := 0.7

  function StatisticsOf(results: seq<StationResult>): (s: Statistics)
    ensures s.optimality.Some? <==> results != []
    ensures s.optimality.Some? ==> 0.0 <= s.optimality.value <= 100.0
    ensures s.optimal + s.problematic <= |results|
  {
    var optimal := CountAtMost(results, OptimalBound);
    var problematic := CountAtLeast(results, ProblematicBound);
    DisjointCounts(results);
    if results == [] then Statistics(optimal, problematic, None)
    else
      RatioBounds(optimal, |results|);
      Statistics(optimal, problematic, Some(optimal as real / |results| as real * 100.0))
  }

  /** No load is both at most 0.35 and at least 0.7, so the two counts
      together never exceed the number of stops. */
  lemma {:induction false} DisjointCounts(results: seq<StationResult>)
    ensures CountAtMost(results, OptimalBound) + CountAtLeast(results, ProblematicBound) <= |results|
  {
    if results != [] {
      DisjointCounts(results[..|results| - 1]);
    }
  }

  /** The ten stops listed first and the ten listed last. */
  function Listed(results: seq<StationResult>): (seq<StationResult>, seq<StationResult>)
  {
    (Slice(results, 0, 10), if |results| > 10 then results[|results| - 10..] else results)
  }

  /** With sorted results and at least 20 stops, no stop of the first list
      has a higher load than a stop of the second. */
  lemma ListedSeparated(results: seq<StationResult>)
    requires SortedBy(results, OeOf) && |results| >= 20
    ensures forall a, b :: a in Listed(results).0 && b in Listed(results).1 ==> a.oe <= b.oe
  {
    var (top, bottom) := Listed(results);
    forall a, b | a in top && b in bottom ensures a.oe <= b.oe {
      var i :| 0 <= i < |top| && top[i] == a;
      var j :| 0 <= j < |bottom| && bottom[j] == b;
      assert results[i] == a && results[|results| - 10 + j] == b;
      assert OeOf(results[i]) <= OeOf(results[|results| - 10 + j]);
    }
  }
}
