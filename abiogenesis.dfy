/** The abiogenesis reaction network: an append-only list of molecules, an
    append-only list of reactions between them, a catalytic core, and the
    stabilisers (replication kernel, membrane, mineral matrix) that the
    Phi operator applies once the ontological load crosses tau = 0.70.

    Random draws (reactant, product and catalyst picks, coin flips, molecule
    kinds, reaction energies) are parameters. The graph entropy, the gzip
    description-length proxy and the instability penalty are given as
    `Metrics`, three numbers in [0, 1] as their definitions guarantee. */
module Abiogenesis {

  import opened Common

  datatype MolKind = Acid | Base | Hydrocarbon | PolymerFragment

  datatype Molecule = Molecule(id: nat, complexity: real, catalyticPotential: real, kind: MolKind)

  /** A reaction r1 + r2 -> product, optionally catalysed, with its energy. */
  datatype Reaction = Reaction(r1: nat, r2: nat, product: nat, catalyst: Option<nat>, energy: real)

  datatype Stabilizer = Replication | Membrane | Matrix

  /** Normalised graph entropy, gzip proxy and instability penalty. */
  datatype Metrics = Metrics(entropy: real, mdl: real, instability: real)
  {
    predicate Valid()
    {
      0.0 <= entropy <= 1.0 && 0.0 <= mdl <= 1.0 && 0.0 <= instability <= 1.0
    }
  }

  /** The random inputs one application of the Phi operator consumes. */
  datatype PhiDraws = PhiDraws(
    template: nat,
    complementKind: MolKind,
    lipidKinds: (MolKind, MolKind),
    mineralKind: MolKind,
    matrixCoins: seq<bool>)

  /** Every molecule a reaction mentions is below n. */
  predicate ReactionWithin(r: Reaction, n: nat)
  {
    r.r1 < n && r.r2 < n && r.product < n && (r.catalyst.Some? ==> r.catalyst.value < n)
  }

  predicate ReactionsWithin(rs: seq<Reaction>, n: nat)
  {
    forall i :: 0 <= i < |rs| ==> ReactionWithin(rs[i], n)
  }

  // ---------------------------------------------------------------------------
  // RAF closure

  /** A reaction fires for a set when both reactants and a catalyst are in it. */
  predicate Fires(r: Reaction, s: set<nat>)
  {
    r.r1 in s && r.r2 in s && r.catalyst.Some? && r.catalyst.value in s
  }

  function Catalysts(rs: seq<Reaction>): set<nat>
  {
    set r | r in rs && r.catalyst.Some? :: r.catalyst.value
  }

  predicate Closed(s: set<nat>, rs: seq<Reaction>)
  {
    forall r :: r in rs && Fires(r, s) ==> r.product in s
  }

  function FiredProducts(rs: seq<Reaction>, s: set<nat>): set<nat>
  {
    set r | r in rs && Fires(r, s) :: r.product
  }

  /** Adds the products of firing reactions to s until nothing changes. */
  function Saturate(rs: seq<Reaction>, s: set<nat>, n: nat): set<nat>
    requires ReactionsWithin(rs, n)
    requires forall x :: x in s ==> x < n
    decreases Ids(n) - s
  {
    var next := s + FiredProducts(rs, s);
    if next == s then s else Saturate(rs, next, n)
  }

  /** The catalytic core a RAF-style detection finds: the least set that holds
      every catalyst and is closed under firing reactions. */
  function RafCore(rs: seq<Reaction>, n: nat): set<nat>
    requires ReactionsWithin(rs, n)
  {
    Saturate(rs, Catalysts(rs), n)
  }

  lemma {:induction false} SaturateIsLeastClosed(rs: seq<Reaction>, s: set<nat>, n: nat)
    requires ReactionsWithin(rs, n)
    requires forall x :: x in s ==> x < n
    ensures s <= Saturate(rs, s, n)
    ensures forall x :: x in Saturate(rs, s, n) ==> x < n
    ensures Closed(Saturate(rs, s, n), rs)
    ensures forall t :: s <= t && Closed(t, rs) ==> Saturate(rs, s, n) <= t
    decreases Ids(n) - s
  {
    var next := s + FiredProducts(rs, s);
    if next != s {
      SaturateIsLeastClosed(rs, next, n);
      forall t | s <= t && Closed(t, rs) ensures next <= t {
        forall x | x in FiredProducts(rs, s) ensures x in t {
          var r :| r in rs && Fires(r, s) && r.product == x;
          assert Fires(r, t);
        }
      }
    }
  }

  /** The core contains every catalyst, is closed, is the least such set, and
      names only existing molecules; with no reactions it is empty. */
  lemma RafCoreIsLeastClosed(rs: seq<Reaction>, n: nat)
    requires ReactionsWithin(rs, n)
    ensures Catalysts(rs) <= RafCore(rs, n)
    ensures Closed(RafCore(rs, n), rs)
    ensures forall t :: Catalysts(rs) <= t && Closed(t, rs) ==> RafCore(rs, n) <= t
    ensures forall x :: x in RafCore(rs, n) ==> x < n
    ensures rs == [] ==> RafCore(rs, n) == {}
  {
    forall x | x in Catalysts(rs) ensures x < n {
      var r :| r in rs && r.catalyst.Some? && r.catalyst.value == x;
    }
    SaturateIsLeastClosed(rs, Catalysts(rs), n);
    if rs == [] {
      assert Closed({}, rs);
    }
  }

  // ---------------------------------------------------------------------------
  // Pure scores

  function CountCatalysed(rs: seq<Reaction>): (k: nat)
    ensures k <= |rs|
    ensures k == 0 <==> forall i :: 0 <= i < |rs| ==> rs[i].catalyst.None?
    ensures k == |rs| <==> forall i :: 0 <= i < |rs| ==> rs[i].catalyst.Some?
  {
    if rs == [] then 0
    else CountCatalysed(rs[..|rs| - 1]) + (if rs[|rs| - 1].catalyst.Some? then 1 else 0)
  }

  /** Structural coherence: the share of catalysed reactions, 0.5 with none.
      It lies in [0, 1] and is 1 exactly when every reaction is catalysed and 0
      exactly when none is. */
  function StructuralCoherence(rs: seq<Reaction>): (c: real)
    ensures 0.0 <= c <= 1.0
    ensures rs == [] ==> c == 0.5
    ensures rs != [] ==> (c == 1.0 <==> forall i :: 0 <= i < |rs| ==> rs[i].catalyst.Some?)
    ensures rs != [] ==> (c == 0.0 <==> forall i :: 0 <= i < |rs| ==> rs[i].catalyst.None?)
  {
    if rs == [] then 0.5
    else
      RatioBounds(CountCatalysed(rs), |rs|);
      CountCatalysed(rs) as real / |rs| as real
  }

  /** The weighted score depth * width of each attractor given the applied
      stabilisers. */
  function ReplicationDepth(applied: seq<Stabilizer>): real { 2.0 - |applied| as real * 0.5 }
  function MembraneDepth(applied: seq<Stabilizer>): real { 1.5 - (if Membrane in applied then 0.0 else 0.8) }
  function MatrixDepth(applied: seq<Stabilizer>): real { 1.2 - (if Matrix in applied then 0.0 else 0.6) }

  /** The attractor with the largest depth * width, the first one on ties as
      Python's `max` picks it, or None when its depth is at most 0.3. The
      membrane score never drops below 0.49, so whatever wins has depth above
      0.3 and the answer is never None. */
  function SelectAttractor(applied: seq<Stabilizer>): (r: Option<Stabilizer>)
    ensures r.Some?
  {
    var rep := ReplicationDepth(applied) * 0.8;
    var mem := MembraneDepth(applied) * 0.7;
    var mat := MatrixDepth(applied) * 0.6;
    var best :=
      if rep >= mem && rep >= mat then (Replication, ReplicationDepth(applied))
      else if mem >= mat then (Membrane, MembraneDepth(applied))
      else (Matrix, MatrixDepth(applied));
    if best.1 > 0.3 then Some(best.0) else None
  }

  /** The selection as a table over the applied stabilisers. The kinds
      already applied are not excluded: after one replication kernel the
      selector asks for replication again. */
  lemma SelectAttractorTable(applied: seq<Stabilizer>)
    ensures |applied| <= 1 ==> SelectAttractor(applied) == Some(Replication)
    ensures |applied| >= 2 && Membrane in applied ==> SelectAttractor(applied) == Some(Membrane)
    ensures |applied| == 2 && Membrane !in applied ==> SelectAttractor(applied) == Some(Replication)
    ensures |applied| >= 3 && Membrane !in applied && Matrix in applied ==> SelectAttractor(applied) == Some(Matrix)
    ensures |applied| >= 3 && Membrane !in applied && Matrix !in applied ==> SelectAttractor(applied) == Some(Membrane)
    ensures SelectAttractor([Replication]) == Some(Replication)
  {
  }

  // ---------------------------------------------------------------------------
  // In-place reaction rewrites of the membrane and matrix stabilisers

  /** An already favourable reaction (negative energy) becomes 1.5 times as
      favourable; any other reaction is left as it is. */
  function Strengthen(r: Reaction): (s: Reaction)
    ensures s.r1 == r.r1 && s.r2 == r.r2 && s.product == r.product && s.catalyst == r.catalyst
    ensures s.energy < 0.0 <==> r.energy < 0.0
    ensures s.energy <= r.energy
    ensures r.energy >= 0.0 ==> s == r
  {
    if r.energy < 0.0 then r.(energy := r.energy * 1.5) else r
  }

  /** The reactions after the membrane pass over the first five. */
  function MembraneBoosted(rs: seq<Reaction>): (out: seq<Reaction>)
    ensures |out| == |rs|
    ensures forall i :: 0 <= i < |rs| ==> out[i] == (if i < 5 then Strengthen(rs[i]) else rs[i])
  {
    seq(|rs|, i requires 0 <= i < |rs| => if i < 5 then Strengthen(rs[i]) else rs[i])
  }

  /** The mineral takes over an uncatalysed reaction and lowers its energy by 0.5. */
  function Mineralise(r: Reaction, mineral: nat): (s: Reaction)
    requires r.catalyst.None?
    ensures s.r1 == r.r1 && s.r2 == r.r2 && s.product == r.product
    ensures s.catalyst == Some(mineral) && s.energy == r.energy - 0.5
  {
    r.(catalyst := Some(mineral), energy := r.energy - 0.5)
  }

  /** The reactions after the matrix pass: among the first ten, the
      uncatalysed ones whose coin came up are given the mineral. */
  function MatrixCatalysed(rs: seq<Reaction>, mineral: nat, coins: seq<bool>): (out: seq<Reaction>)
    requires |coins| >= MinN(10, |rs|)
    ensures |out| == |rs|
    ensures forall i :: 0 <= i < |rs| && rs[i].catalyst.Some? ==> out[i] == rs[i]
    ensures forall i :: 10 <= i < |rs| ==> out[i] == rs[i]
    ensures forall i :: 0 <= i < |rs| ==> out[i].r1 == rs[i].r1 && out[i].r2 == rs[i].r2 && out[i].product == rs[i].product
    ensures forall i :: 0 <= i < |rs| && out[i] != rs[i] ==> out[i].catalyst == Some(mineral)
  {
    seq(|rs|, i requires 0 <= i < |rs| =>
      if i < 10 && rs[i].catalyst.None? && coins[i] then Mineralise(rs[i], mineral) else rs[i])
  }

  // ---------------------------------------------------------------------------
  // The engine

  class AbiogenesisMol {
    var molecules: seq<Molecule>
    var reactions: seq<Reaction>
    var stabilizers: seq<Stabilizer>
    var catalyticCore: set<nat>

    /** Molecule ids are list positions, and reactions and the core only name
        existing molecules. */
    predicate Valid()
      reads this
    {
      (forall i :: 0 <= i < |molecules| ==> molecules[i].id == i)
      && ReactionsWithin(reactions, |molecules|)
      && (forall c :: c in catalyticCore ==> c < |molecules|)
    }

    constructor()
      ensures Valid()
      ensures molecules == [] && reactions == [] && stabilizers == [] && catalyticCore == {}
    {
      molecules := [];
      reactions := [];
      stabilizers := [];
      catalyticCore := {};
    }

    /** Appends a molecule whose id is the current number of molecules. */
    method AddMolecule(complexity: real, catalyticPotential: real, kind: MolKind) returns (id: nat)
      requires Valid()
      modifies this
      ensures Valid()
      ensures id == old(|molecules|)
      ensures molecules == old(molecules) + [Molecule(id, complexity, catalyticPotential, kind)]
      ensures reactions == old(reactions) && stabilizers == old(stabilizers)
      ensures catalyticCore == old(catalyticCore)
    {
      id := |molecules|;
      molecules := molecules + [Molecule(id, complexity, catalyticPotential, kind)];
    }

    /** Adds one random reaction. `r1` is the first reactant's draw;
        `r2Draws` are the successive draws for the second one, redrawn while
        they equal r1; `newProduct` is the 30% coin for a fresh product
        molecule and `productDraw` the pick of an existing one; `catalysed`
        is the 20% coin for a catalyst and `catalystDraw` its pick among the
        molecules as they are after the product step; `productToCore` is the
        10% coin that also puts the product in the core. */
    method AddRandomReaction(
      r1: nat, r2Draws: seq<nat>, newProduct: bool, productKind: MolKind, productDraw: nat,
      catalysed: bool, catalystDraw: nat, energy: real, productToCore: bool)
      requires Valid()
      requires |molecules| >= 2 ==> r1 < |molecules| && (forall k :: 0 <= k < |r2Draws| ==> r2Draws[k] < |molecules|)
      requires |molecules| >= 2 ==> exists k :: 0 <= k < |r2Draws| && r2Draws[k] != r1
      requires |molecules| >= 2 && !(newProduct && |molecules| < 20) ==> productDraw < |molecules|
      requires |molecules| >= 2 && catalysed ==>
                 catalystDraw < |molecules| + (if newProduct && |molecules| < 20 then 1 else 0)
      requires -5.0 <= energy <= 2.0
      modifies this
      ensures Valid()
      ensures stabilizers == old(stabilizers)
      ensures old(|molecules|) < 2 ==> molecules == old(molecules) && reactions == old(reactions) && catalyticCore == old(catalyticCore)
      ensures old(|molecules|) >= 2 ==>
        var grows := newProduct && old(|molecules|) < 20;
        var p := if grows then old(|molecules|) else productDraw;
        var c := if catalysed then Some(catalystDraw) else None;
        && molecules == old(molecules) + (if grows then [Molecule(old(|molecules|), 1.2, 0.1, productKind)] else [])
        && reactions == old(reactions) + [Reaction(r1, FirstOther(r2Draws, r1), p, c, energy)]
        && catalyticCore == old(catalyticCore)
             + (if catalysed then {catalystDraw} else {})
             + (if catalysed && productToCore then {p} else {})
    {
      if |molecules| < 2 {
        return;
      }
      var r2 := r2Draws[0];
      var k := 0;
      ghost var w :| 0 <= w < |r2Draws| && r2Draws[w] != r1;
      while r2 == r1 && |molecules| > 1
        invariant 0 <= k <= w && r2 == r2Draws[k]
        invariant forall m :: 0 <= m < k ==> r2Draws[m] == r1
        decreases w - k
      {
        k := k + 1;
        r2 := r2Draws[k];
      }
      FirstOtherIsFirst(r2Draws, r1, k);
      var p: nat;
      if newProduct && |molecules| < 20 {
        p := AddMolecule(1.2, 0.1, productKind);
      } else {
        p := productDraw;
      }
      var catalyst: Option<nat> := None;
      if catalysed && |molecules| > 0 {
        catalyst := Some(catalystDraw);
      }
      reactions := reactions + [Reaction(r1, r2, p, catalyst, energy)];
      if catalyst.Some? {
        catalyticCore := catalyticCore + {catalyst.value};
        if productToCore {
          catalyticCore := catalyticCore + {p};
        }
      }
    }

    /** The RAF-style detection: start from every catalyst and add the
        product of every firing reaction until a whole pass adds nothing. */
    method DetectCatalyticCoreRaf() returns (core: set<nat>)
      requires Valid()
      ensures core == RafCore(reactions, |molecules|)
    {
      RafCoreIsLeastClosed(reactions, |molecules|);
      ghost var least := RafCore(reactions, |molecules|);
      if reactions == [] {
        return {};
      }
      core := {};
      for i := 0 to |reactions|
        invariant core <= Catalysts(reactions)
        invariant forall j :: 0 <= j < i && reactions[j].catalyst.Some? ==> reactions[j].catalyst.value in core
      {
        if reactions[i].catalyst.Some? {
          assert reactions[i] in reactions;
          core := core + {reactions[i].catalyst.value};
        }
      }
      forall x | x in Catalysts(reactions) ensures x in core {
        var r :| r in reactions && r.catalyst.Some? && r.catalyst.value == x;
      }
      var changed := true;
      while changed
        invariant Catalysts(reactions) <= core <= least
        invariant !changed ==> Closed(core, reactions)
        decreases least - core, changed
      {
        changed := false;
        ghost var before := core;
        ghost var added: nat := 0;
        for i := 0 to |reactions|
          invariant before <= core <= least
          invariant !changed ==> core == before
          invariant changed ==> added in core && added !in before
          invariant !changed ==> forall j :: 0 <= j < i && Fires(reactions[j], core) ==> reactions[j].product in core
        {
          var r := reactions[i];
          if r.r1 in core && r.r2 in core && r.catalyst.Some? && r.catalyst.value in core {
            if r.product !in core {
              assert r in reactions && Fires(r, least);
              core := core + {r.product};
              changed := true;
              added := r.product;
            }
          }
        }
        if !changed {
          forall r | r in reactions && Fires(r, core) ensures r.product in core {
            var j :| 0 <= j < |reactions| && reactions[j] == r;
          }
        } else {
          assert added in least - before && added !in least - core;
        }
      }
    }

    /** The ontological load of the network: 0 with no molecules, otherwise
        `Load` of the non-core share of the molecules. */
    function CalculateOE(m: Metrics): (oe: real)
      reads this
      requires Valid() && m.Valid()
      ensures |molecules| == 0 ==> oe == 0.0
      ensures 0.0 <= oe <= 2.0
    {
      if |molecules| == 0 then 0.0
      else
        RafCoreIsLeastClosed(reactions, |molecules|);
        IdsSubsetSize(RafCore(reactions, |molecules|), |molecules|);
        Load(CoreTerm(|RafCore(reactions, |molecules|)|, |molecules|), m, |reactions|)
    }

    /** The collapse test: load above tau = 0.70 with at least five molecules.
        A network of five or more molecules without any RAF core always
        collapses; one whose core is every molecule (with at most ten
        reactions) collapses exactly when the entropy and MDL terms alone
        exceed tau. */
    predicate CheckCollapseThreshold(m: Metrics)
      reads this
      requires Valid() && m.Valid()
      ensures |molecules| < 5 ==> !CheckCollapseThreshold(m)
      ensures |molecules| >= 5 && RafCore(reactions, |molecules|) == {} ==> CheckCollapseThreshold(m)
      ensures |molecules| >= 5 && |RafCore(reactions, |molecules|)| == |molecules| && |reactions| <= 10 ==>
        (CheckCollapseThreshold(m) <==> 0.45 * m.entropy + 0.30 * m.mdl > 0.70)
    {
      CalculateOE(m) > 0.70 && |molecules| >= 5
    }

    /** Replication kernel: with at least three molecules, a self-replicating
        reaction on the template, a fresh complement molecule made from the
        template, and both in the core. */
    method ImplementReplicationKernel(template: nat, complementKind: MolKind)
      requires Valid()
      requires |molecules| >= 3 ==> template < |molecules|
      modifies this
      ensures Valid()
      ensures stabilizers == old(stabilizers)
      ensures old(|molecules|) < 3 ==> molecules == old(molecules) && reactions == old(reactions) && catalyticCore == old(catalyticCore)
      ensures old(|molecules|) >= 3 ==>
        var c := old(|molecules|);
        && molecules == old(molecules) + [Molecule(c, 1.3, 0.8, complementKind)]
        && reactions == old(reactions) + [Reaction(template, template, template, Some(template), -2.0),
                                          Reaction(template, c, c, Some(template), -1.5)]
        && catalyticCore == old(catalyticCore) + {template, c}
    {
      if |molecules| >= 3 {
        reactions := reactions + [Reaction(template, template, template, Some(template), -2.0)];
        catalyticCore := catalyticCore + {template};
        var complement := AddMolecule(1.3, 0.8, complementKind);
        reactions := reactions + [Reaction(template, complement, complement, Some(template), -1.5)];
        catalyticCore := catalyticCore + {complement};
      }
    }

    /** Membrane: two lipid molecules, an uncatalysed reaction joining them,
        then the favourable reactions among the first five become more so. */
    method ImplementMembraneCompartment(kind1: MolKind, kind2: MolKind)
      requires Valid()
      modifies this
      ensures Valid()
      ensures stabilizers == old(stabilizers) && catalyticCore == old(catalyticCore)
      ensures var n := old(|molecules|);
        && molecules == old(molecules) + [Molecule(n, 1.5, 0.2, kind1), Molecule(n + 1, 1.5, 0.2, kind2)]
        && reactions == MembraneBoosted(old(reactions) + [Reaction(n, n + 1, n, None, -3.0)])
    {
      var lipid1 := AddMolecule(1.5, 0.2, kind1);
      var lipid2 := AddMolecule(1.5, 0.2, kind2);
      reactions := reactions + [Reaction(lipid1, lipid2, lipid1, None, -3.0)];
      ghost var appended := reactions;
      ghost var mols := molecules;
      var i := 0;
      while i < MinN(5, |reactions|)
        invariant 0 <= i <= MinN(5, |appended|)
        invariant molecules == mols && stabilizers == old(stabilizers) && catalyticCore == old(catalyticCore)
        invariant |reactions| == |appended|
        invariant forall j :: 0 <= j < |appended| ==> reactions[j] == (if j < i then Strengthen(appended[j]) else appended[j])
      {
        if reactions[i].energy < 0.0 {
          reactions := reactions[i := reactions[i].(energy := reactions[i].energy * 1.5)];
        }
        i := i + 1;
      }
      assert reactions == MembraneBoosted(appended);
      assert ReactionsWithin(appended, |molecules|);
    }

    /** Mineral matrix: a mineral molecule that catalyses each uncatalysed
        reaction among the first ten whose 40% coin came up, lowering its
        energy, and joins the core. */
    method ImplementMineralMatrix(kind: MolKind, coins: seq<bool>)
      requires Valid()
      requires |coins| >= MinN(10, |reactions|)
      modifies this
      ensures Valid()
      ensures stabilizers == old(stabilizers)
      ensures var n := old(|molecules|);
        && molecules == old(molecules) + [Molecule(n, 2.0, 0.9, kind)]
        && reactions == MatrixCatalysed(old(reactions), n, coins)
        && catalyticCore == old(catalyticCore) + {n}
    {
      var mineral := AddMolecule(2.0, 0.9, kind);
      ghost var original := reactions;
      ghost var mols := molecules;
      var i := 0;
      while i < MinN(10, |reactions|)
        invariant 0 <= i <= MinN(10, |original|)
        invariant molecules == mols && stabilizers == old(stabilizers) && catalyticCore == old(catalyticCore)
        invariant |reactions| == |original|
        invariant forall j :: 0 <= j < |original| ==>
          reactions[j] == (if j < i && original[j].catalyst.None? && coins[j] then Mineralise(original[j], mineral) else original[j])
      {
        if reactions[i].catalyst.None? && coins[i] {
          reactions := reactions[i := Mineralise(reactions[i], mineral)];
        }
        i := i + 1;
      }
      assert reactions == MatrixCatalysed(original, mineral, coins);
      catalyticCore := catalyticCore + {mineral};
    }

    /** The Phi operator. Below the collapse threshold nothing changes and it
        fails. Otherwise it applies the selected stabiliser, appends its kind
        with no duplicate check, and succeeds exactly when the load strictly
        decreased. `before` and `after` are the metrics of the network before
        and after the stabiliser. */
    method PhiOperatorAbiogenesis(before: Metrics, after: Metrics, draws: PhiDraws) returns (success: bool)
      requires Valid() && before.Valid() && after.Valid()
      requires |molecules| >= 3 ==> draws.template < |molecules|
      requires |draws.matrixCoins| >= MinN(10, |reactions|)
      modifies this
      ensures Valid()
      ensures !old(CheckCollapseThreshold(before)) ==>
        !success && molecules == old(molecules) && reactions == old(reactions)
        && stabilizers == old(stabilizers) && catalyticCore == old(catalyticCore)
      ensures old(CheckCollapseThreshold(before)) ==>
        var kind := SelectAttractor(old(stabilizers)).value;
        && stabilizers == old(stabilizers) + [kind]
        && success == (CalculateOE(after) < old(CalculateOE(before)))
        && |molecules| == old(|molecules|) + (if kind == Membrane then 2 else 1)
        && |reactions| == old(|reactions|) + (match kind case Replication => 2 case Membrane => 1 case Matrix => 0)
      ensures old(molecules) <= molecules && old(catalyticCore) <= catalyticCore && old(|reactions|) <= |reactions|
      ensures old(CheckCollapseThreshold(before)) && SelectAttractor(old(stabilizers)).value == Replication ==>
        var c := old(|molecules|);
        && molecules == old(molecules) + [Molecule(c, 1.3, 0.8, draws.complementKind)]
        && reactions == old(reactions) + [Reaction(draws.template, draws.template, draws.template, Some(draws.template), -2.0),
                                          Reaction(draws.template, c, c, Some(draws.template), -1.5)]
        && catalyticCore == old(catalyticCore) + {draws.template, c}
      ensures old(CheckCollapseThreshold(before)) && SelectAttractor(old(stabilizers)).value == Membrane ==>
        var n := old(|molecules|);
        && molecules == old(molecules) + [Molecule(n, 1.5, 0.2, draws.lipidKinds.0), Molecule(n + 1, 1.5, 0.2, draws.lipidKinds.1)]
        && reactions == MembraneBoosted(old(reactions) + [Reaction(n, n + 1, n, None, -3.0)])
        && catalyticCore == old(catalyticCore)
      ensures old(CheckCollapseThreshold(before)) && SelectAttractor(old(stabilizers)).value == Matrix ==>
        var n := old(|molecules|);
        && molecules == old(molecules) + [Molecule(n, 2.0, 0.9, draws.mineralKind)]
        && reactions == MatrixCatalysed(old(reactions), n, draws.matrixCoins)
        && catalyticCore == old(catalyticCore) + {n}
    {
      if !CheckCollapseThreshold(before) {
        return false;
      }
      var target := SelectAttractor(stabilizers).value;
      var oldLoad := CalculateOE(before);
      match target {
        case Replication => ImplementReplicationKernel(draws.template, draws.complementKind);
        case Membrane => ImplementMembraneCompartment(draws.lipidKinds.0, draws.lipidKinds.1);
        case Matrix => ImplementMineralMatrix(draws.mineralKind, draws.matrixCoins);
      }
      stabilizers := stabilizers + [target];
      var newLoad := CalculateOE(after);
      success := newLoad - oldLoad < 0.0;
    }

    /** The post-emergence step of an experiment: when the 10% coin comes up
        and fewer than three stabilisers are present, the selected kind is
        appended, but only if it is not already present. */
    method AddStabilizerAfterEmergence(coin: bool)
      requires Valid()
      modifies this
      ensures Valid()
      ensures molecules == old(molecules) && reactions == old(reactions) && catalyticCore == old(catalyticCore)
      ensures var pick := SelectAttractor(old(stabilizers)).value;
        stabilizers == if coin && old(|stabilizers|) < 3 && pick !in old(stabilizers)
                       then old(stabilizers) + [pick] else old(stabilizers)
    {
      if coin && |stabilizers| < 3 {
        var additional := SelectAttractor(stabilizers);
        if additional.Some? && additional.value !in stabilizers {
          stabilizers := stabilizers + [additional.value];
        }
      }
    }
  }

  /** The core term plus the weighted metrics, the instability counted only
      past ten reactions, capped at 3.0. With every term in [0, 1] the sum never
      exceeds 2.0, so the cap never binds. */
  function Load(coreTerm: real, m: Metrics, reactionCount: nat): (oe: real)
    requires 0.0 <= coreTerm <= 1.0 && m.Valid()
    ensures 0.0 <= oe <= 2.0
    ensures coreTerm <= oe
    ensures reactionCount <= 10 ==> oe == coreTerm + 0.45 * m.entropy + 0.30 * m.mdl
    ensures reactionCount > 10 ==> oe == coreTerm + 0.45 * m.entropy + 0.30 * m.mdl + 0.25 * m.instability
  {
    var sum := coreTerm + 0.45 * m.entropy + 0.30 * m.mdl;
    MinR(3.0, if reactionCount > 10 then sum + 0.25 * m.instability else sum)
  }

  /** The non-core share 1 - core/total of the molecules. */
  function CoreTerm(coreSize: nat, total: nat): (t: real)
    requires 0 < total && coreSize <= total
    ensures 0.0 <= t <= 1.0
    ensures t == 0.0 <==> coreSize == total
    ensures t == 1.0 <==> coreSize == 0
  {
    RatioBounds(coreSize, total);
    1.0 - coreSize as real / total as real
  }

  /** The first draw that differs from r1: the second reactant. */
  function FirstOther(draws: seq<nat>, r1: nat): (r2: nat)
    requires exists k :: 0 <= k < |draws| && draws[k] != r1
    ensures r2 != r1 && r2 in draws
  {
    if draws[0] != r1 then draws[0]
    else
      var k :| 0 <= k < |draws| && draws[k] != r1;
      assert draws[1..][k - 1] == draws[k];
      FirstOther(draws[1..], r1)
  }

  lemma {:induction false} FirstOtherIsFirst(draws: seq<nat>, r1: nat, k: nat)
    requires k < |draws| && draws[k] != r1
    requires forall m :: 0 <= m < k ==> draws[m] == r1
    ensures FirstOther(draws, r1) == draws[k]
  {
    if k > 0 {
      assert draws[1..][k - 1] == draws[k];
      FirstOtherIsFirst(draws[1..], r1, k - 1);
    }
  }

  /** While only replication kernels have been applied, at most two of them,
      the selector asks for replication again, so the post-emergence step
      adds nothing. */
  lemma ReplicationOnlyRepeats(applied: seq<Stabilizer>)
    requires 1 <= |applied| <= 2
    requires forall i :: 0 <= i < |applied| ==> applied[i] == Replication
    ensures SelectAttractor(applied) == Some(Replication)
    ensures Replication in applied
  {
    assert applied[0] == Replication;
    assert Membrane !in applied;
  }
}
