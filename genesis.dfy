/** The cosmogenesis "dimension ladder", first version. Nodes and descriptive
    constraints raise an ontological load; when it exceeds 2.5 the Phi
    operator adds one spatial dimension (up to three), gives every node
    coordinates for the dimensions that exist, drops the constraints about
    "proximity" and relieves the load.

    The uniform coordinate draws are a parameter `coords` (one triple per
    node index, each coordinate in [0, 10]); the distance between two
    embedded nodes (|dx|, hypot or the 3D Euclidean norm) is a parameter
    `dist`. */
module Genesis {

  import opened Common
  import opened Pairs

  /** A node: its id, and the coordinates it has been given so far. */
  datatype Node = Node(id: nat, x: Option<real>, y: Option<real>, z: Option<real>)

  /** One draw of `random.uniform(0, 10)` per axis. */
  datatype Coord = Coord(x: real, y: real, z: real)

  predicate InBox(c: Coord)
  {
    0.0 <= c.x <= 10.0 && 0.0 <= c.y <= 10.0 && 0.0 <= c.z <= 10.0
  }

  predicate CoordInRange(v: Option<real>)
  {
    v.Some? ==> 0.0 <= v.value <= 10.0
  }

  /** Every node has the coordinates a d-dimensional distance reads. */
  predicate HasCoords(ns: seq<Node>, d: nat)
  {
    forall i :: 0 <= i < |ns| ==>
      (d >= 1 ==> ns[i].x.Some?) && (d >= 2 ==> ns[i].y.Some?) && (d >= 3 ==> ns[i].z.Some?)
  }

  /** `min(5.0, 0.1 * nodes + 0.3 * constraints)`. */
  function LoadFor(nodes: nat, constraints: nat): (oe: real)
    ensures 0.0 <= oe <= 5.0
    ensures oe == 5.0 || oe == 0.1 * nodes as real + 0.3 * constraints as real
  {
    MinR(5.0, 0.1 * nodes as real + 0.3 * constraints as real)
  }

  /** More nodes or more constraints never lower the load. */
  lemma LoadForMonotone(n1: nat, c1: nat, n2: nat, c2: nat)
    requires n1 <= n2 && c1 <= c2
    ensures LoadFor(n1, c1) <= LoadFor(n2, c2)
  {
  }

  /** The load after the geometry absorbs part of it. */
  function Relieved(oe: real): (r: real)
    requires 0.0 <= oe <= 5.0
    ensures 0.1 <= r <= 2.0
    ensures r < 2.5
    ensures oe >= 0.25 ==> r == 0.4 * oe
  {
    MaxR(0.1, oe * 0.4)
  }

  /** Python's `"proximity" in c`. */
  predicate MentionsProximity(c: string)
  {
    IsSubstring("proximity", c)
  }

  /** The constraints that do not mention "proximity", in their order. */
  function WithoutProximity(cs: seq<string>): (r: seq<string>)
    ensures |r| <= |cs|
    ensures forall c :: c in r <==> c in cs && !MentionsProximity(c)
  {
    if cs == [] then []
    else WithoutProximity(cs[..|cs| - 1])
         + (if MentionsProximity(cs[|cs| - 1]) then [] else [cs[|cs| - 1]])
  }

  /** Relieving keeps the surviving constraints in their original order and
      with their multiplicity: it works constraint by constraint, a list of
      one constraint keeps it exactly when it does not mention "proximity",
      and relieving a concatenation relieves each part. */
  lemma {:induction false} WithoutProximityAppend(a: seq<string>, b: seq<string>)
    ensures WithoutProximity(a + b) == WithoutProximity(a) + WithoutProximity(b)
  {
    if b == [] {
      assert a + b == a;
    } else {
      var init := b[..|b| - 1];
      var last := b[|b| - 1];
      assert a + b == (a + init) + [last];
      assert b == init + [last];
      calc {
        WithoutProximity(a + b);
        WithoutProximity((a + init) + [last]);
        { WithoutProximitySnoc(a + init, last); }
        WithoutProximity(a + init) + WithoutProximity([last]);
        { WithoutProximityAppend(a, init); }
        WithoutProximity(a) + WithoutProximity(init) + WithoutProximity([last]);
        { WithoutProximitySnoc(init, last); }
        WithoutProximity(a) + WithoutProximity(b);
      }
    }
  }

  /** A single constraint is kept exactly when it does not mention
      "proximity". */
  lemma WithoutProximitySingle(c: string)
    ensures MentionsProximity(c) ==> WithoutProximity([c]) == []
    ensures !MentionsProximity(c) ==> WithoutProximity([c]) == [c]
  {
    assert [c][..0] == [];
  }

  /** Relieving a list with one more constraint relieves the list and then
      that constraint on its own. */
  lemma WithoutProximitySnoc(init: seq<string>, last: string)
    ensures WithoutProximity(init + [last]) == WithoutProximity(init) + WithoutProximity([last])
  {
    assert (init + [last])[..|init|] == init;
    assert [last][..0] == [];
  }

  /** A node after embedding into d dimensions: x is (re)drawn when d >= 1,
      y when d >= 2, z when d >= 3, and the others are left as they were. */
  function EmbedNode(n: Node, d: nat, c: Coord): (m: Node)
    ensures m.id == n.id
    ensures m.x.Some? <==> d >= 1 || n.x.Some?
    ensures m.y.Some? <==> d >= 2 || n.y.Some?
    ensures m.z.Some? <==> d >= 3 || n.z.Some?
    ensures InBox(c) && CoordInRange(n.x) && CoordInRange(n.y) && CoordInRange(n.z) ==>
              CoordInRange(m.x) && CoordInRange(m.y) && CoordInRange(m.z)
  {
    Node(n.id,
         if d >= 1 then Some(c.x) else n.x,
         if d >= 2 then Some(c.y) else n.y,
         if d >= 3 then Some(c.z) else n.z)
  }

  function Embedded(ns: seq<Node>, d: nat, coords: nat -> Coord): (r: seq<Node>)
    ensures |r| == |ns|
    ensures forall i :: 0 <= i < |ns| ==> r[i] == EmbedNode(ns[i], d, coords(i))
    ensures HasCoords(r, d)
  {
    seq(|ns|, i requires 0 <= i < |ns| => EmbedNode(ns[i], d, coords(i)))
  }

  /** The geometric neighbourhood test: two nodes are related when their
      distance is below 5.0. */
  function Near(ns: seq<Node>, dist: (Node, Node) -> real): (nat, nat) -> bool
  {
    (i: nat, j: nat) => i < |ns| && j < |ns| && dist(ns[i], ns[j]) < 5.0
  }

  predicate IdsArePositions(ns: seq<Node>)
  {
    forall i :: 0 <= i < |ns| ==> ns[i].id == i
  }

  predicate RelationsWithin(rs: seq<Pair>, n: nat)
  {
    forall p :: p in rs ==> p.0 < p.1 < n
  }

  /** The coordinate draws of one phase. */
  function PhaseCoords(draws: (nat, nat) -> Coord, phase: nat): (coords: nat -> Coord)
    ensures forall i :: coords(i) == draws(phase, i)
  {
    (i: nat) => draws(phase, i)
  }

  const InitialConstraints: seq<string> :=
    ["all nodes equivalent", "full connectivity required", "no positional distinctions"]

  class MolGenesisEngine {
    var nodes: seq<Node>
    var relations: seq<Pair>
    var constraints: seq<string>
    var dimensions: nat
    var oe: real

    /** Ids are positions, at most three dimensions, the load in [0, 5], and
        every relation joins two existing nodes i < j. */
    predicate Valid()
      reads this
    {
      IdsArePositions(nodes) && dimensions <= 3 && 0.0 <= oe <= 5.0
      && RelationsWithin(relations, |nodes|)
    }

    constructor()
      ensures Valid()
      ensures nodes == [] && relations == [] && constraints == [] && dimensions == 0 && oe == 0.0
    {
      nodes := [];
      relations := [];
      constraints := [];
      dimensions := 0;
      oe := 0.0;
    }

    method UpdateOE()
      requires Valid()
      modifies this
      ensures Valid()
      ensures oe == LoadFor(|nodes|, |constraints|)
      ensures nodes == old(nodes) && relations == old(relations) && constraints == old(constraints)
      ensures dimensions == old(dimensions)
    {
      oe := LoadFor(|nodes|, |constraints|);
    }

    /** Appends a node with id = the number of nodes and no coordinates. */
    method AddNode()
      requires Valid()
      modifies this
      ensures Valid()
      ensures nodes == old(nodes) + [Node(old(|nodes|), None, None, None)]
      ensures oe == LoadFor(|nodes|, |constraints|)
      ensures relations == old(relations) && constraints == old(constraints) && dimensions == old(dimensions)
    {
      nodes := nodes + [Node(|nodes|, None, None, None)];
      UpdateOE();
    }

    method AddConstraint(rule: string)
      requires Valid()
      modifies this
      ensures Valid()
      ensures constraints == old(constraints) + [rule]
      ensures oe == LoadFor(|nodes|, |constraints|)
      ensures nodes == old(nodes) && relations == old(relations) && dimensions == old(dimensions)
    {
      constraints := constraints + [rule];
      UpdateOE();
    }

    /** Gives every node the coordinates of the current dimension count. */
    method EmbedNodes(coords: nat -> Coord)
      requires Valid()
      modifies this
      ensures Valid()
      ensures nodes == Embedded(old(nodes), dimensions, coords)
      ensures relations == old(relations) && constraints == old(constraints)
      ensures dimensions == old(dimensions) && oe == old(oe)
    {
      ghost var original := nodes;
      for i := 0 to |nodes|
        invariant |nodes| == |original|
        invariant forall j :: 0 <= j < |nodes| ==>
          nodes[j] == if j < i then EmbedNode(original[j], dimensions, coords(j)) else original[j]
        invariant relations == old(relations) && constraints == old(constraints)
        invariant dimensions == old(dimensions) && oe == old(oe)
      {
        nodes := nodes[i := EmbedNode(nodes[i], dimensions, coords(i))];
      }
      assert nodes == Embedded(original, dimensions, coords);
    }

    /** Drops the "proximity" constraints and relieves the load. */
    method RelieveLoad()
      requires Valid()
      modifies this
      ensures Valid()
      ensures constraints == WithoutProximity(old(constraints))
      ensures oe == Relieved(old(oe))
      ensures nodes == old(nodes) && relations == old(relations) && dimensions == old(dimensions)
    {
      constraints := WithoutProximity(constraints);
      oe := MaxR(0.1, oe * 0.4);
    }

    /** The Phi operator: fires exactly when the load exceeds 2.5 with fewer
        than three dimensions; it then adds one dimension, embeds the nodes
        and relieves the load to at most 2.0, below the firing threshold, so
        an immediately repeated call does not fire. */
    method PhiOperator(coords: nat -> Coord) returns (fired: bool)
      requires Valid()
      modifies this
      ensures Valid()
      ensures fired <==> old(oe) > 2.5 && old(dimensions) < 3
      ensures fired ==>
        && dimensions == old(dimensions) + 1
        && nodes == Embedded(old(nodes), dimensions, coords)
        && constraints == WithoutProximity(old(constraints))
        && oe == Relieved(old(oe)) && oe <= 2.0
        && relations == old(relations)
      ensures !fired ==>
        nodes == old(nodes) && relations == old(relations) && constraints == old(constraints)
        && dimensions == old(dimensions) && oe == old(oe)
    {
      if oe > 2.5 && dimensions < 3 {
        dimensions := dimensions + 1;
        EmbedNodes(coords);
        RelieveLoad();
        return true;
      }
      return false;
    }

    /** Builds the relations. With no dimensions every pair i < j is appended
        to the existing list, in the order of the nested loops, n(n-1)/2 of
        them; otherwise the list is rebuilt from the pairs whose distance is
        below 5.0. The distance reads the coordinates of the current
        dimensions, which every node must have. */
    method CreateRelations(dist: (Node, Node) -> real)
      requires Valid()
      requires HasCoords(nodes, dimensions)
      modifies this
      ensures Valid()
      ensures dimensions == 0 ==>
        && |relations| >= |old(relations)| && relations[..|old(relations)|] == old(relations)
        && ListsPairs(relations[|old(relations)|..], KeepAll, |nodes|)
        && 2 * (|relations| - |old(relations)|) == |nodes| * (|nodes| - 1)
      ensures dimensions > 0 ==> relations == KeptPairs(Near(nodes, dist), |nodes|)
      ensures nodes == old(nodes) && constraints == old(constraints)
      ensures dimensions == old(dimensions) && oe == old(oe)
    {
      var n := |nodes|;
      var keep := if dimensions == 0 then KeepAll else Near(nodes, dist);
      var rels := AppendKeptPairs(if dimensions == 0 then relations else [], keep, n);
      KeptPairsMembers(keep, n);
      AllPairsLength(n);
      relations := rels;
    }

    /** The state at the start of a phase of the genesis run: three
        constraints, none about "proximity", and the node count and load of
        PhaseLoad. */
    predicate PhaseStart()
      reads this
    {
      |constraints| == 3 && WithoutProximity(constraints) == constraints
      && PhaseLoad(dimensions, |nodes|, oe)
    }

    /** One phase of the genesis run: while the Phi operator does not fire,
        add a node, and stop early once the load exceeds 4.9. The loop always
        ends. When the operator fires it has added one dimension and embedded
        every node, and the load it relieved is the first one above 2.5: the
        load on entry, or else that of the grown node list, one node fewer
        having stayed at or below 2.5. When it does not fire, the phase
        stopped on a load above 4.9 with nothing but the nodes changed. */
    method BuildDescriptiveBurden(coords: nat -> Coord) returns (fired: bool)
      requires Valid() && dimensions < 3
      modifies this
      ensures Valid()
      ensures |nodes| >= old(|nodes|) && relations == old(relations)
      ensures |nodes| > old(|nodes|) ==> old(oe) <= 2.5
      ensures |nodes| > old(|nodes|) + 1 ==> LoadFor(|nodes| - 1, |old(constraints)|) <= 2.5
      ensures fired ==>
        && dimensions == old(dimensions) + 1
        && HasCoords(nodes, dimensions)
        && constraints == WithoutProximity(old(constraints))
        && (if |nodes| == old(|nodes|) then old(oe) > 2.5 && oe == Relieved(old(oe))
            else LoadFor(|nodes|, |old(constraints)|) > 2.5
                 && oe == Relieved(LoadFor(|nodes|, |old(constraints)|)))
      ensures !fired ==>
        && dimensions == old(dimensions) && constraints == old(constraints)
        && |nodes| > old(|nodes|) && oe == LoadFor(|nodes|, |constraints|) && oe > 4.9
    {
      ghost var n0, c0, oe0, d0 := |nodes|, constraints, oe, dimensions;
      fired := PhiOperator(coords);
      if fired {
        return;
      }
      while !fired
        invariant Valid() && relations == old(relations) && oe0 <= 2.5
        invariant n0 <= |nodes| <= n0 + 26
        invariant |nodes| > n0 + 1 ==> LoadFor(|nodes| - 1, |c0|) <= 2.5
        invariant !fired ==>
          && dimensions == d0 && constraints == c0 && oe <= 2.5
          && (|nodes| > n0 ==> oe == LoadFor(|nodes|, |c0|))
        invariant fired ==>
          && |nodes| > n0
          && dimensions == d0 + 1
          && HasCoords(nodes, dimensions)
          && constraints == WithoutProximity(c0)
          && LoadFor(|nodes|, |c0|) > 2.5 && oe == Relieved(LoadFor(|nodes|, |c0|))
        decreases n0 + 26 - |nodes|
      {
        AddNode();
        UpdateOE();
        if oe > 4.9 {
          break;
        }
        fired := PhiOperator(coords);
      }
    }

    /** Phase 0 of the genesis run on a new engine: the three opening
        constraints and ten nodes, load 1.9. */
    method PreGeometricPhase()
      requires nodes == [] && relations == [] && constraints == [] && dimensions == 0 && oe == 0.0
      modifies this
      ensures Valid() && PhaseStart() && dimensions == 0 && relations == [] && HasCoords(nodes, 0)
      ensures constraints == InitialConstraints
    {
      NoProximityInitially();
      AddConstraint("all nodes equivalent");
      AddConstraint("full connectivity required");
      AddConstraint("no positional distinctions");
      for k := 0 to 10
        invariant Valid() && |nodes| == k && relations == [] && dimensions == 0
        invariant constraints == InitialConstraints
        invariant oe == LoadFor(k, 3)
      {
        AddNode();
      }
    }

    /** One iteration of the genesis run's phase loop, from the start of a
        phase: build the descriptive burden, then the geometric relations.
        The Phi operator fires after exactly one more node (17 in the first
        phase), so the next phase starts with one more dimension. */
    method DimensionPhase(coords: nat -> Coord, dist: (Node, Node) -> real)
      requires Valid() && PhaseStart() && dimensions < 3
      modifies this
      ensures Valid() && PhaseStart() && constraints == old(constraints)
      ensures dimensions == old(dimensions) + 1 && HasCoords(nodes, dimensions)
      ensures relations == KeptPairs(Near(nodes, dist), |nodes|)
    {
      ghost var d0, n0, oe0 := dimensions, |nodes|, oe;
      PhaseLoadBelowThreshold(d0, n0, oe0);
      var fired := BuildDescriptiveBurden(coords);
      PhaseCrossing(d0, n0, oe0, |nodes|);
      assert |nodes| > n0 && fired;
      assert PhaseLoad(d0 + 1, |nodes|, oe);
      CreateRelations(dist);
    }

    /** Phases 1 to 3 of the genesis run, from the end of phase 0: one
        phase per dimension until there are three. Phase p, which is always
        one more than the dimension count, draws its coordinates from
        `draws(p, _)`. The run ends in 3D with 19 embedded nodes, load 1.12,
        the constraints unchanged and the geometric relations of the final
        embedding. */
    method DimensionalEmergence(draws: (nat, nat) -> Coord, dist: (Node, Node) -> real)
      requires Valid() && PhaseStart() && dimensions == 0
      modifies this
      ensures Valid()
      ensures dimensions == 3 && |nodes| == 19 && HasCoords(nodes, 3)
      ensures constraints == old(constraints)
      ensures oe == 1.12
      ensures relations == KeptPairs(Near(nodes, dist), 19)
    {
      while dimensions < 3
        invariant Valid() && PhaseStart() && constraints == old(constraints)
        invariant HasCoords(nodes, dimensions)
        invariant dimensions > 0 ==> relations == KeptPairs(Near(nodes, dist), |nodes|)
        decreases 3 - dimensions
      {
        DimensionPhase(PhaseCoords(draws, dimensions + 1), dist);
      }
    }

    /** The genesis run on a new engine: three constraints and ten nodes in
        0D, then one phase per dimension. The Phi operator fires at 17, 18
        and 19 nodes, the early break at load 4.9 is never taken, and the run
        ends in 3D with 19 embedded nodes, the three opening constraints,
        load 1.12 and the geometric relations of the final embedding. */
    method RunGenesis(draws: (nat, nat) -> Coord, dist: (Node, Node) -> real)
      requires nodes == [] && relations == [] && constraints == [] && dimensions == 0 && oe == 0.0
      modifies this
      ensures Valid()
      ensures dimensions == 3 && |nodes| == 19 && HasCoords(nodes, 3)
      ensures constraints == InitialConstraints
      ensures oe == 1.12
      ensures relations == KeptPairs(Near(nodes, dist), 19)
    {
      PreGeometricPhase();
      CreateRelations(dist);
      DimensionalEmergence(draws, dist);
    }
  }

  /** The node count and load at the start of a phase of the genesis run:
      ten nodes and load 1.9 in 0D; 16 + d nodes and the load relieved from
      0.1 * nodes + 0.9 in d dimensions. */
  predicate PhaseLoad(d: nat, n: nat, oe: real)
  {
    if d == 0 then n == 10 && oe == 1.9
    else n == 16 + d && oe == 0.4 * (0.1 * n as real + 0.9)
  }

  /** A phase starts with at most 18 nodes and a load of at most 2.5, so the
      Phi operator does not fire before a node is added. */
  lemma PhaseLoadBelowThreshold(d: nat, n: nat, oe: real)
    requires d < 3 && PhaseLoad(d, n, oe)
    ensures n <= 18 && oe <= 2.5
  {
  }

  /** From the start of phase d, growing the node list with the three
      constraints, the load 0.1 * nodes + 0.9 first exceeds 2.5 at 17 + d
      nodes, never exceeds 4.9 on the way, and relieving it gives the start
      of phase d + 1. */
  lemma PhaseCrossing(d: nat, n0: nat, oe0: real, n: nat)
    requires d < 3 && PhaseLoad(d, n0, oe0)
    requires n > n0 + 1 ==> LoadFor(n - 1, 3) <= 2.5
    ensures n > n0 ==> LoadFor(n, 3) <= 4.9
    ensures n > n0 && LoadFor(n, 3) > 2.5 ==>
      n == 17 + d && PhaseLoad(d + 1, n, Relieved(LoadFor(n, 3)))
  {
  }

  /** None of the three opening constraints mentions "proximity". */
  lemma NoProximityInitially()
    ensures WithoutProximity(InitialConstraints) == InitialConstraints
  {
    forall c | c in InitialConstraints ensures !MentionsProximity(c) {
      NoProximityIn(c);
    }
    WithoutProximityKeepsAll(InitialConstraints);
  }

  /** Relieving a list none of whose entries mentions "proximity" keeps it. */
  lemma {:induction false} WithoutProximityKeepsAll(cs: seq<string>)
    requires forall c :: c in cs ==> !MentionsProximity(c)
    ensures WithoutProximity(cs) == cs
  {
    if cs != [] {
      var init, last := cs[..|cs| - 1], cs[|cs| - 1];
      assert cs == init + [last];
      WithoutProximityKeepsAll(init);
      WithoutProximityKeepsLast(init, last);
    }
  }

  /** A last constraint that does not mention "proximity" is kept. */
  lemma WithoutProximityKeepsLast(init: seq<string>, last: string)
    requires !MentionsProximity(last)
    ensures WithoutProximity(init + [last]) == WithoutProximity(init) + [last]
  {
    assert (init + [last])[..|init|] == init;
  }

  lemma NoProximityIn(s: string)
    requires s in ["all nodes equivalent", "full connectivity required", "no positional distinctions"]
    ensures !MentionsProximity(s)
  {
    forall k | 0 <= k < |s| - 1 ensures s[k] != 'p' || s[k + 1] != 'r' {
    }
    NotSubstringByPair("proximity", s);
  }

  /** A word whose first two letters never occur side by side in a text is
      no substring of it. */
  lemma NotSubstringByPair(p: string, s: string)
    requires |p| >= 2
    requires forall k :: 0 <= k < |s| - 1 ==> s[k] != p[0] || s[k + 1] != p[1]
    ensures !IsSubstring(p, s)
  {
    forall k: nat | k + |p| <= |s| ensures !OccursAt(p, s, k) {
      assert s[k..k + |p|][0] == s[k] && s[k..k + |p|][1] == s[k + 1];
    }
  }
}
