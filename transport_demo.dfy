/** The transport demonstration: a stop's load from its lines and
    connections alone, its status, and the four example stops. */
module TransportDemo {

  import Transport

  /** A demonstration stop. */
  datatype Stop = Stop(name: string, lines: nat, connections: nat, kind: string)

  /** The four stops of the demonstration, in order. */
  const Stops: seq<Stop> := [
    Stop("Bhf. Zoo", 10, 7, "straßenbahn"),
    Stop("Ostkreuz", 7, 3, "s-bahn"),
    Stop("Alexanderplatz", 3, 14, "omnibus"),
    Stop("Hermannplatz", 5, 1, "straßenbahn")
  ]

  /** The divisor: twice the lines, at least 1 (no cap). */
  function Divisor(lines: nat): (d: nat)
    ensures d >= 1 && (lines >= 1 ==> d == 2 * lines)
  {
    if lines * 2 >= 1 then lines * 2 else 1
  }

  /** The demonstration's `calculate_O_E`: the efficiency connections per
      divisor gives 0.3 below 0.5, 0.8 above 2 and 0.5 otherwise. */
  function DemoLoad(lines: nat, connections: nat): (oe: real)
    ensures oe == 0.3 || oe == 0.5 || oe == 0.8
  {
    var efficiency := connections as real / Divisor(lines) as real;
    if efficiency < 0.5 then 0.3 else if efficiency > 2.0 then 0.8 else 0.5
  }

  /** The thresholds in whole numbers. */
  lemma DemoLoadThresholds(lines: nat, connections: nat)
    ensures DemoLoad(lines, connections) == 0.3 <==> 2 * connections < Divisor(lines)
    ensures DemoLoad(lines, connections) == 0.8 <==> connections > 2 * Divisor(lines)
  {
    var n := connections as real;
    var d := Divisor(lines) as real;
    Transport.RatioCompare(n, d);
    assert (2 * connections) as real == 2.0 * n;
    assert (2 * Divisor(lines)) as real == 2.0 * d;
  }

  /** For fixed lines, more connections never lower the load. */
  lemma DemoLoadMonotone(lines: nat, a: nat, b: nat)
    requires a <= b
    ensures DemoLoad(lines, a) <= DemoLoad(lines, b)
  {
    DemoLoadThresholds(lines, a);
    DemoLoadThresholds(lines, b);
  }

  /** Up to 10 lines the demonstration's divisor equals the analyser's
      capped one, so the two loads agree; for a stop of the analyser with at
      least one neighbour this is its load. With no connection the two
      differ: the analyser gives 0.5, the demonstration 0.3. */
  lemma AgreesWithAnalyser(lines: nat, connections: nat)
    requires lines <= 10
    ensures DemoLoad(lines, connections) == Transport.RatioLoad(connections, lines)
    ensures connections == 0 ==> DemoLoad(lines, connections) == 0.3
  {
    assert Transport.Capacity(lines) == Divisor(lines);
  }

  lemma AgreesWithStationLoad(s: Transport.Station, graph: Transport.Graph)
    requires s.numLines <= 10 && Transport.NeighboursIn(graph, s.id) != []
    ensures Transport.StationLoad(s, graph) == DemoLoad(s.numLines, |Transport.NeighboursIn(graph, s.id)|)
  {
    AgreesWithAnalyser(s.numLines, |Transport.NeighboursIn(graph, s.id)|);
  }

  datatype Status = Optimal | Moderate | Problematic

  /** Optimal at most 0.35, problematic from 0.7. */
  function StatusOf(oe: real): (s: Status)
    ensures s == Optimal <==> oe <= 0.35
    ensures s == Problematic <==> oe > 0.35 && oe >= 0.7
  {
    if oe <= 0.35 then Optimal else if oe >= 0.7 then Problematic else Moderate
  }

  /** The three loads map to the three statuses, one to one. */
  lemma StatusOfLoads(lines: nat, connections: nat)
    ensures var oe := DemoLoad(lines, connections);
            (StatusOf(oe) == Optimal <==> oe == 0.3)
            && (StatusOf(oe) == Moderate <==> oe == 0.5)
            && (StatusOf(oe) == Problematic <==> oe == 0.8)
  {
  }

  /** Of the four stops only Alexanderplatz is overloaded; the other three
      score 0.3. */
  lemma DemoStops()
    ensures forall s :: s in Stops ==>
              (DemoLoad(s.lines, s.connections) == 0.8 <==> s.name == "Alexanderplatz")
    ensures forall s :: s in Stops && s.name != "Alexanderplatz" ==> DemoLoad(s.lines, s.connections) == 0.3
  {
    DemoLoadThresholds(10, 7);
    DemoLoadThresholds(7, 3);
    DemoLoadThresholds(3, 14);
    DemoLoadThresholds(5, 1);
  }
}
