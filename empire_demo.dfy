/** The historical demonstration: a simplified load of four empires from
    territory, complexity, communication time and centralisation, the
    prediction it gives and how many predictions match history. */
module EmpireDemo {

  import opened Common

  datatype System = System(name: string, territory: int, complexity: int, commTime: int, centralization: real)

  /** The four systems, in order. */
  const Systems: seq<System> := [
    System("Venetian Republic 1797", 6, 7, 3, 0.7),
    System("Ottoman Empire 1922", 8, 9, 5, 0.9),
    System("Austro-Hungary 1918", 7, 10, 4, 0.8),
    System("Japanese Empire 1945", 7, 8, 4, 0.85)
  ]

  /** The risk of centralisation: ten times the excess over 0.8, none up
      to 0.8. */
  function CentralizationRisk(centralization: real): (r: real)
    ensures r >= 0.0
    ensures r > 0.0 <==> centralization > 0.8
  {
    if centralization > 0.8 then (centralization - 0.8) * 10.0 else 0.0
  }

  /** The demonstration's `calculate_O_E`. */
  function Load(territory: int, complexity: int, commTime: int, centralization: real): real
  {
    (territory * complexity) as real * 0.1 + (commTime * commTime) as real + CentralizationRisk(centralization)
  }

  /** The load is never negative when territory and complexity are not. */
  lemma LoadNonNegative(territory: int, complexity: int, commTime: int, centralization: real)
    requires territory >= 0 && complexity >= 0
    ensures Load(territory, complexity, commTime, centralization) >= 0.0
  {
    assert territory * complexity >= 0;
    assert commTime * commTime >= 0;
  }

  /** The load grows with the product of territory and complexity, with a
      non-negative communication time and with centralisation. */
  lemma LoadMonotone(t1: int, c1: int, m1: int, z1: real, t2: int, c2: int, m2: int, z2: real)
    requires t1 * c1 <= t2 * c2
    requires 0 <= m1 <= m2
    requires z1 <= z2
    ensures Load(t1, c1, m1, z1) <= Load(t2, c2, m2, z2)
  {
    assert m1 * m1 <= m1 * m2 <= m2 * m2;
  }

  datatype Prediction = Collapse | Crisis | Stable

  /** Collapse above 25, crisis above 20 up to 25, stable otherwise. */
  function PredictionOf(oe: real): (p: Prediction)
    ensures p == Collapse <==> oe > 25.0
    ensures p == Crisis <==> 20.0 < oe <= 25.0
    ensures p == Stable <==> oe <= 20.0
  {
    if oe > 25.0 then Collapse else if oe > 20.0 then Crisis else Stable
  }

  /** What happened to each system. */
  const Reality: map<string, Prediction> := map[
    "Venetian Republic 1797" := Collapse,
    "Ottoman Empire 1922" := Collapse,
    "Austro-Hungary 1918" := Collapse,
    "Japanese Empire 1945" := Crisis
  ]

  function SystemLoad(s: System): real
  {
    Load(s.territory, s.complexity, s.commTime, s.centralization)
  }

  predicate Known(systems: seq<System>)
  {
    forall s :: s in systems ==> s.name in Reality
  }

  /** The number of systems whose prediction matches history. */
  function CorrectCount(systems: seq<System>): (n: nat)
    requires Known(systems)
    ensures n <= |systems|
  {
    if systems == [] then 0
    else
      var s := systems[|systems| - 1];
      CorrectCount(systems[..|systems| - 1]) + (if PredictionOf(SystemLoad(s)) == Reality[s.name] then 1 else 0)
  }

  /** `run_demo_analysis`: counts the matching predictions and divides by
      the number of systems (which must be non-empty, as the division
      otherwise fails, and whose names must be known). */
  method RunDemoAnalysis(systems: seq<System>) returns (correct: nat, accuracy: real)
    requires Known(systems) && systems != []
    ensures correct == CorrectCount(systems)
    ensures accuracy == correct as real / |systems| as real
    ensures 0.0 <= accuracy <= 1.0
  {
    correct := 0;
    for i := 0 to |systems|
      invariant correct == CorrectCount(systems[..i])
    {
      assert systems[..i + 1][..i] == systems[..i];
      var oe := Load(systems[i].territory, systems[i].complexity, systems[i].commTime, systems[i].centralization);
      var prediction := if oe > 25.0 then Collapse else if oe > 20.0 then Crisis else Stable;
      if prediction == Reality[systems[i].name] {
        correct := correct + 1;
      }
    }
    assert systems[..|systems|] == systems;
    accuracy := correct as real / |systems| as real;
    RatioBounds(correct, |systems|);
  }

  /** The four systems score 13.2, 33.2, 23.0 and 22.1; Ottoman and
      Japanese are predicted right, Venetian and Austro-Hungarian wrong. */
  lemma DemoOutcome()
    ensures SystemLoad(Systems[0]) == 13.2 && SystemLoad(Systems[1]) == 33.2
    ensures SystemLoad(Systems[2]) == 23.0 && SystemLoad(Systems[3]) == 22.1
    ensures Known(Systems) && CorrectCount(Systems) == 2
  {
    var s := Systems;
    assert s[..1][..0] == [] && s[..2][..1] == s[..1] && s[..3][..2] == s[..2] && s[..4] == s && s[..4][..3] == s[..3];
    assert PredictionOf(SystemLoad(s[0])) == Stable && Reality[s[0].name] == Collapse;
    assert CorrectCount(s[..1]) == 0;
    assert PredictionOf(SystemLoad(s[1])) == Collapse && Reality[s[1].name] == Collapse;
    assert CorrectCount(s[..2]) == 1;
    assert PredictionOf(SystemLoad(s[2])) == Crisis && Reality[s[2].name] == Collapse;
    assert CorrectCount(s[..3]) == 1;
    assert PredictionOf(SystemLoad(s[3])) == Crisis && Reality[s[3].name] == Crisis;
  }
}
