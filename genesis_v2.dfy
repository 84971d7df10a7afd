/** The cosmogenesis engine with "optimised embedding". A graph of nodes and
    constraints carries an ontological load; when the load exceeds the
    collapse threshold TAU = 1.8 (with at least three nodes), the Phi
    operator moves to the dimension of the best attractor (1D, 2D or 3D),
    lays the nodes out in that space and rebuilds the relations from the
    geometry.

    The measured parts of the load (log1p of the node count, the Shannon
    entropy of the degree distribution, the uniformity of the layout) are a
    parameter `Measures`; the layout itself (evenly spaced, circle packing,
    Fibonacci sphere, then the cluster shifts) is a parameter giving each
    node's point, and the geometric test "distance below the adaptive
    threshold" is a parameter on pairs of node indices. */
module GenesisV2 {

  import opened Common
  import opened Pairs

  /** A node: its id, its complexity and the coordinates it has been given. */
  datatype Node = Node(id: nat, complexity: real, coordinates: map<string, real>)

  /** A constraint of the pre-geometric description. */
  datatype Constraint = Constraint(kind: string, strength: real, complexity: real)

  /** The coordinates a layout assigns to one node. */
  datatype Point = Point(x: real, y: real, z: real)

  /** The measured inputs of the load for one state: `log1p(nodes)`, the
      Shannon entropy of the degree counts and the layout uniformity. */
  datatype Measures = Measures(log1pNodes: real, entropy: real, uniformity: real)
  {
    predicate Valid()
    {
      log1pNodes >= 0.0 && entropy >= 0.0
    }
  }

  /** A dimension candidate with its depth and width. */
  datatype Attractor = Attractor(name: string, depth: real, width: real)

  /** The collapse threshold and the minimum attractor depth. */
  const Tau: real := 1.8
  const AttractorDepthThreshold: real := 0.3

  // ---------------------------------------------------------------------------
  // Load

  /** The graph entropy term: 0.3 with fewer than two relations, otherwise
      the entropy capped at 1.5. */
  function EntropyTerm(relationCount: nat, entropy: real): (r: real)
    ensures relationCount < 2 ==> r == 0.3
    ensures relationCount >= 2 ==> r <= 1.5 && (r == entropy || r == 1.5)
  {
    if relationCount < 2 then 0.3 else MinR(1.5, entropy)
  }

  /** The embedding penalty: 1.0 in 0D or without nodes, otherwise
      1 - uniformity, but never below 0.1. */
  function EmbeddingPenalty(d: nat, nodeCount: nat, uniformity: real): (r: real)
    ensures 0.1 <= r
    ensures d == 0 || nodeCount == 0 ==> r == 1.0
    ensures uniformity >= 0.0 ==> r <= 1.0
  {
    if d == 0 || nodeCount == 0 then 1.0 else MaxR(0.1, 1.0 - uniformity)
  }

  /** The ontological load: 0.0 without nodes, otherwise the weighted sum
      of log1p(nodes), the constraint count, the entropy term and the
      penalty, capped at 3.0. */
  function Load(nodeCount: nat, constraintCount: nat, relationCount: nat, d: nat, m: Measures): (r: real)
    ensures nodeCount == 0 ==> r == 0.0
    ensures r <= 3.0
    ensures m.Valid() ==> 0.0 <= r
  {
    if nodeCount == 0 then 0.0
    else MinR(3.0, m.log1pNodes * 0.3 + constraintCount as real * 0.15
                   + EntropyTerm(relationCount, m.entropy) * 0.5
                   + EmbeddingPenalty(d, nodeCount, m.uniformity) * 0.4)
  }

  // ---------------------------------------------------------------------------
  // Attractors

  function Score(a: Attractor): real
  {
    a.depth * a.width
  }

  /** The three candidates in d dimensions: 1D deepens as d falls, 2D is
      deepest at d = 2, 3D at d = 3. */
  function Attractors(d: nat): seq<Attractor>
  {
    [Attractor("1D", 1.2 - d as real * 0.4, 0.6),
     Attractor("2D", 1.5 - Abs(d as real - 2.0) * 0.5, 0.7),
     Attractor("3D", 2.0 - Abs(d as real - 3.0) * 0.6, 0.8)]
  }

  /** Python's `max(s, key=Score)`: the index of the first entry with the
      highest score. */
  function FirstBest(s: seq<Attractor>): (k: nat)
    requires |s| > 0
    ensures k < |s|
    ensures forall j :: 0 <= j < |s| ==> Score(s[j]) <= Score(s[k])
    ensures forall j :: 0 <= j < k ==> Score(s[j]) < Score(s[k])
  {
    if |s| == 1 then 0
    else
      var b := FirstBest(s[..|s| - 1]);
      if Score(s[|s| - 1]) > Score(s[b]) then |s| - 1 else b
  }

  /** The name of the best attractor, or None when its depth is not above
      the threshold. */
  function EvaluateAttractors(d: nat): (r: Option<string>)
    ensures r.Some? ==> r.value in {"1D", "2D", "3D"}
  {
    var s := Attractors(d);
    var best := s[FirstBest(s)];
    if best.depth > AttractorDepthThreshold then Some(best.name) else None
  }

  /** The attractor ladder: 0D aims at 1D, 1D at 2D, and 2D and 3D at 3D;
      there is always a dominant attractor. */
  lemma AttractorLadder(d: nat)
    requires d <= 3
    ensures EvaluateAttractors(d) == Some(if d == 0 then "1D" else if d == 1 then "2D" else "3D")
  {
    var s := Attractors(d);
    var k := FirstBest(s);
    if d == 0 {
      assert Score(s[0]) > Score(s[1]) && Score(s[0]) > Score(s[2]);
    } else if d == 1 {
      assert Score(s[1]) > Score(s[0]) && Score(s[1]) > Score(s[2]);
    } else {
      assert Score(s[2]) > Score(s[0]) && Score(s[2]) > Score(s[1]);
    }
  }

  /** Following the ladder, the target's dimension is one step up, at most 3. */
  lemma NextDimension(d: nat)
    requires d <= 3
    ensures EvaluateAttractors(d).Some?
    ensures TargetDimension(EvaluateAttractors(d).value) == if d < 3 then d + 1 else 3
  {
    AttractorLadder(d);
  }

  /** The dimension the Phi operator moves to: the digit of the target name. */
  function TargetDimension(name: string): (d: nat)
    requires name in {"1D", "2D", "3D"}
    ensures 1 <= d <= 3
  {
    DigitValue(name[0])
  }

  // ---------------------------------------------------------------------------
  // Embedding and relations

  /** A node laid out in d dimensions: "x" is set when d >= 1, "y" when
      d >= 2, "z" when d >= 3; other coordinates are kept. */
  function EmbedNode(n: Node, d: nat, p: Point): (m: Node)
    ensures m.id == n.id && m.complexity == n.complexity
    ensures m.coordinates.Keys == n.coordinates.Keys
      + (if d >= 1 then {"x"} else {}) + (if d >= 2 then {"y"} else {}) + (if d >= 3 then {"z"} else {})
  {
    var c1 := if d >= 1 then n.coordinates["x" := p.x] else n.coordinates;
    var c2 := if d >= 2 then c1["y" := p.y] else c1;
    var c3 := if d >= 3 then c2["z" := p.z] else c2;
    n.(coordinates := c3)
  }

  function Embedded(ns: seq<Node>, d: nat, layout: nat -> Point): (r: seq<Node>)
    ensures |r| == |ns|
    ensures forall i :: 0 <= i < |ns| ==> r[i] == EmbedNode(ns[i], d, layout(i))
  {
    seq(|ns|, i requires 0 <= i < |ns| => EmbedNode(ns[i], d, layout(i)))
  }

  predicate IdsArePositions(ns: seq<Node>)
  {
    forall i :: 0 <= i < |ns| ==> ns[i].id == i
  }

  lemma EmbeddedKeepsIds(ns: seq<Node>, d: nat, layout: nat -> Point)
    requires IdsArePositions(ns)
    ensures IdsArePositions(Embedded(ns, d, layout))
  {
  }

  predicate RelationsWithin(rs: seq<Pair>, n: nat)
  {
    forall p :: p in rs ==> p.0 < p.1 < n
  }

  // ---------------------------------------------------------------------------
  // Stub measures of the principles

  /** The response variability is the constant 0.3: neither below the 0.2
      that stabilisation needs nor above the 0.6 that reconfiguration
      needs. */
  function ResponseVariability(): (r: real)
    ensures 0.2 <= r <= 0.6
  {
    0.3
  }

  /** The velocity of change: 0.1 with fewer than two recorded loads,
      otherwise the size of the last change. */
  function Velocity(history: seq<real>): (v: real)
    ensures v >= 0.0
    ensures |history| < 2 ==> v == 0.1
  {
    if |history| < 2 then 0.1 else Abs(history[|history| - 1] - history[|history| - 2])
  }

  /** The phase diagnosis from velocity, variability and coherence. */
  function Diagnose(v: real, variability: real, c: real): (r: (string, string))
    ensures r.0 in {"STABILIZATION", "RECONFIGURATION", "DECOMPRESSION"}
    ensures r.0 == "STABILIZATION" <==> v < 0.1 && variability < 0.2 && c > 0.8
    ensures r.0 == "RECONFIGURATION" <==> !(v < 0.1 && variability < 0.2 && c > 0.8)
                                          && v > 0.3 && variability > 0.6 && c < 0.5
  {
    if v < 0.1 && variability < 0.2 && c > 0.8 then ("STABILIZATION", "Optimize in current paradigm")
    else if v > 0.3 && variability > 0.6 && c < 0.5 then ("RECONFIGURATION", "Execute transformation")
    else ("DECOMPRESSION", "Prepare for ontological jump")
  }

  /** The scaling exponent is 0.75; the fractal dimension is 1.8 once a
      dimension exists and 1.0 in 0D, so it lies in the optimal band
      (1.5, 2.5) exactly when a dimension exists. */
  function FractalDimension(d: nat): (r: real)
    ensures 1.5 < r < 2.5 <==> d > 0
  {
    if d > 0 then 1.8 else 1.0
  }

  function FractalEconomy(alpha: real, df: real): (r: string)
    ensures r == "OPTIMAL_FRACTAL" <==> 0.6 < alpha < 0.9 && 1.5 < df < 2.5
    ensures r == "OPTIMAL_FRACTAL" || r == "NEEDS_REDESIGN"
  {
    if 0.6 < alpha < 0.9 && 1.5 < df < 2.5 then "OPTIMAL_FRACTAL" else "NEEDS_REDESIGN"
  }

  /** The structural coherence: 0.5 without relations or with fewer than two
      nodes, otherwise the share of the n(n-1)/2 possible relations present. */
  function Coherence(relationCount: nat, nodeCount: nat): (r: real)
    ensures relationCount == 0 || nodeCount < 2 ==> r == 0.5
    ensures 0.0 < r
  {
    if relationCount == 0 || nodeCount < 2 then 0.5
    else
      var pairs := nodeCount * (nodeCount - 1);
      assert pairs >= nodeCount;
      assert nodeCount as real * (nodeCount as real - 1.0) == pairs as real;
      PositiveShare(relationCount as real, pairs as real / 2.0);
      relationCount as real / (nodeCount as real * (nodeCount as real - 1.0) / 2.0)
  }

  /** A positive amount over a positive whole is positive. */
  lemma PositiveShare(a: real, d: real)
    requires 0.0 < a && 0.0 < d
    ensures 0.0 < a / d
  {
  }

  /** For a duplicate-free list of pairs i < j < n the coherence is a share
      in [0, 1], and it is 1 exactly when every pair is present. */
  lemma CoherenceBounds(rs: seq<Pair>, n: nat)
    requires NoDuplicates(rs) && RelationsWithin(rs, n)
    ensures 0.0 <= Coherence(|rs|, n) <= 1.0
    ensures rs != [] && n >= 2 ==> (Coherence(|rs|, n) == 1.0 <==> 2 * |rs| == n * (n - 1))
  {
    DupFreePairsBound(rs, n);
    if rs != [] && n >= 2 {
      CoherenceShare(|rs|, n);
    }
  }

  /** With k of the n(n-1)/2 possible relations present, k > 0, the
      coherence is k over that number. */
  lemma CoherenceShare(k: nat, n: nat)
    requires k > 0 && n >= 2 && 2 * k <= n * (n - 1)
    ensures 0.0 <= Coherence(k, n) <= 1.0
    ensures Coherence(k, n) == 1.0 <==> 2 * k == n * (n - 1)
  {
    var m := n * (n - 1);
    var d := n as real * (n as real - 1.0) / 2.0;
    assert n as real * (n as real - 1.0) == m as real;
    assert (2 * k) as real == 2.0 * k as real;
    ShareOfWhole(k as real, d);
  }

  /** A positive part of a whole is a share in (0, 1], and the whole share
      exactly when it is the whole. */
  lemma ShareOfWhole(a: real, d: real)
    requires 0.0 < a <= d
    ensures 0.0 < a / d <= 1.0
    ensures a / d == 1.0 <==> a == d
  {
  }

  // ---------------------------------------------------------------------------
  // The engine

  class OptimizedMol {
    var nodes: seq<Node>
    var relations: seq<Pair>
    var constraints: seq<Constraint>
    var dimensions: nat
    var history: seq<real>

    /** Ids are positions, at most three dimensions, and the relations are
        distinct pairs i < j of existing nodes. */
    predicate Valid()
      reads this
    {
      IdsArePositions(nodes) && dimensions <= 3
      && RelationsWithin(relations, |nodes|) && NoDuplicates(relations)
    }

    constructor()
      ensures Valid()
      ensures nodes == [] && relations == [] && constraints == [] && dimensions == 0 && history == []
    {
      nodes := [];
      relations := [];
      constraints := [];
      dimensions := 0;
      history := [];
    }

    /** Appends a node whose id is its position, with no coordinates. */
    method AddNode(complexity: real)
      requires Valid()
      modifies this
      ensures Valid()
      ensures nodes == old(nodes) + [Node(old(|nodes|), complexity, map[])]
      ensures relations == old(relations) && constraints == old(constraints)
      ensures dimensions == old(dimensions) && history == old(history)
    {
      nodes := nodes + [Node(|nodes|, complexity, map[])];
    }

    method AddConstraint(kind: string, strength: real)
      requires Valid()
      modifies this
      ensures Valid()
      ensures constraints == old(constraints) + [Constraint(kind, strength, 1.0)]
      ensures nodes == old(nodes) && relations == old(relations)
      ensures dimensions == old(dimensions) && history == old(history)
    {
      constraints := constraints + [Constraint(kind, strength, 1.0)];
    }

    /** Replaces the relations with every pair i < j of the nodes, in the
        order of the nested loops: n(n-1)/2 of them. */
    method InitializeRelations()
      requires Valid()
      modifies this
      ensures Valid()
      ensures relations == AllPairs(|nodes|)
      ensures 2 * |relations| == |nodes| * (|nodes| - 1)
      ensures nodes == old(nodes) && constraints == old(constraints)
      ensures dimensions == old(dimensions) && history == old(history)
    {
      var rels := AppendKeptPairs([], KeepAll, |nodes|);
      KeptPairsMembers(KeepAll, |nodes|);
      AllPairsLength(|nodes|);
      relations := rels;
    }

    /** Rebuilds the relations from the geometry: nothing in 0D; otherwise
        the pairs i < j whose distance is below the threshold, which are
        among all pairs of the nodes. */
    method RebuildGeometricRelations(close: (nat, nat) -> bool)
      requires Valid()
      modifies this
      ensures Valid()
      ensures dimensions == 0 ==> relations == old(relations)
      ensures dimensions > 0 ==> relations == KeptPairs(close, |nodes|)
      ensures forall p :: p in relations ==> p in old(relations) || p in AllPairs(|nodes|)
      ensures nodes == old(nodes) && constraints == old(constraints)
      ensures dimensions == old(dimensions) && history == old(history)
    {
      if dimensions == 0 {
        return;
      }
      var rels := AppendKeptPairs([], close, |nodes|);
      KeptPairsMembers(close, |nodes|);
      KeptPairsWithinAll(close, |nodes|);
      relations := rels;
    }

    /** The current ontological load for the given measures. */
    function OntologicalLoad(m: Measures): (r: real)
      reads this
      ensures |nodes| == 0 ==> r == 0.0
      ensures r <= 3.0
      ensures m.Valid() ==> 0.0 <= r
    {
      Load(|nodes|, |constraints|, |relations|, dimensions, m)
    }

    /** The collapse check: the load exceeds TAU and there are at least three
        nodes. */
    predicate CheckCollapseThreshold(m: Measures)
      reads this
      ensures |nodes| < 3 ==> !CheckCollapseThreshold(m)
      ensures m.Valid() && |nodes| >= 3 && |constraints| > 12 ==> CheckCollapseThreshold(m)
    {
      OntologicalLoad(m) > Tau && |nodes| >= 3
    }

    /** The coherence of the engine's relations: a positive share of at
        most 1 while the engine is valid, and 1 exactly when every pair of
        nodes is related. */
    function StructuralCoherence(): (c: real)
      reads this
      ensures Valid() ==> 0.0 < c <= 1.0
      ensures Valid() && relations != [] && |nodes| >= 2 ==>
        (c == 1.0 <==> 2 * |relations| == |nodes| * (|nodes| - 1))
    {
      if Valid() then
        CoherenceBounds(relations, |nodes|);
        Coherence(|relations|, |nodes|)
      else
        Coherence(|relations|, |nodes|)
    }

    /** The phase diagnosis of the current state. The variability is the
        constant 0.3, below 0.6 and not below 0.2, so the answer is always
        DECOMPRESSION. */
    function DiagnosePhase(): (r: (string, string))
      reads this
      ensures r == ("DECOMPRESSION", "Prepare for ontological jump")
    {
      Diagnose(Velocity(history), ResponseVariability(), StructuralCoherence())
    }

    /** OPTIMAL_FRACTAL exactly when a dimension exists. */
    function ApplyFractalEconomy(): (r: string)
      reads this
      ensures r == "OPTIMAL_FRACTAL" <==> dimensions > 0
    {
      FractalEconomy(0.75, FractalDimension(dimensions))
    }

    /** The dynamic economy is the constant 1.8, above 1.5: the symmetry is
        always broken. */
    function BreakSymmetry(): (r: bool)
      ensures r
    {
      1.8 > 1.5
    }

    /** The optimised Phi operator. Below the collapse threshold nothing
        changes and it reports false. Otherwise it moves to the dimension of
        the best attractor, one step up from 0D, 1D or 2D and staying at 3D,
        lays the nodes out in that space and rebuilds the relations from the
        geometry, and reports true. */
    method OptimizedPhiOperator(before: Measures, layout: nat -> Point, close: (nat, nat) -> bool)
      returns (success: bool)
      requires Valid()
      modifies this
      ensures Valid()
      ensures success == old(CheckCollapseThreshold(before))
      ensures success ==>
        && dimensions == (if old(dimensions) < 3 then old(dimensions) + 1 else 3)
        && nodes == Embedded(old(nodes), dimensions, layout)
        && relations == KeptPairs(close, |nodes|)
        && constraints == old(constraints) && history == old(history)
      ensures !success ==>
        && nodes == old(nodes) && relations == old(relations) && constraints == old(constraints)
        && dimensions == old(dimensions) && history == old(history)
    {
      if !CheckCollapseThreshold(before) {
        return false;
      }
      var target := EvaluateAttractors(dimensions);
      if target.None? {
        return false;
      }
      NextDimension(dimensions);
      dimensions := TargetDimension(target.value);
      EmbeddedKeepsIds(nodes, dimensions, layout);
      nodes := Embedded(nodes, dimensions, layout);
      RebuildGeometricRelations(close);
      return true;
    }
  }

  /** Right after the relations are initialised, with two or more nodes the
      coherence is exactly 1. */
  lemma CoherenceAfterInitialize(n: nat)
    requires n >= 2
    ensures Coherence(|AllPairs(n)|, n) == 1.0
  {
    KeptPairsMembers(KeepAll, n);
    AllPairsLength(n);
    assert |AllPairs(n)| > 0 by {
      assert (0, 1) in AllPairs(n);
    }
    CoherenceBounds(AllPairs(n), n);
  }
}
