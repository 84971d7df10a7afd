# MOL foundation scripts in Dafny

This project models the computational core of the MOL ("Law of Minimal
Ontological Load") scripts. Each script scores a system with an
"ontological load" O(E) and draws conclusions from it. One Dafny module
covers each script:

- `Abiogenesis`: the reaction-network engine. Molecules and reactions are
  append-only, there is a catalytic core (an RAF fixpoint), and a Phi
  operator applies a replication, membrane or mineral stabiliser once the
  load crosses 0.70.
- `Genesis` and `GenesisV2`: the two cosmogenesis engines. Nodes and
  constraints raise a load, and the Phi operator adds spatial dimensions up
  to three.
- `ProteinRows`, `ProteinV1` and `ProteinV2`: the batch validation of
  mutation-stability scores. `ProteinRows` holds the row filter and the
  prediction counting shared by both versions.
- `FilmAnalyzer`: the per-year top 50 of Wikipedia films, scored with IMDb
  and box-office corrections.
- `FilmForecast`: the forecast for one film. It calibrates weights from
  correlations, shifts them by the reaction to a trailer, cross-validates
  over five folds, runs stress cases and breaks the score down.
- `Economy`: the GDP-based crisis score and the historical test cases.
- `Transport` and `TransportDemo`: the load of a transit stop, the sampled
  stop graph and the network analysis.
- `EmpireDemo`: the historical-empire demonstration.
- `Common`, `Pairs` and `Sorting`: shared support. `Common` holds ASCII
  string helpers, Option/Result and Python's slice clamp. `Pairs` holds the
  "all pairs i < j" loops. `Sorting` is a stable sort by key.

**Form of the model**
- Objects whose methods update their fields are classes: the abiogenesis
  and genesis engines, the film analysers and the economic analyser. Their
  methods' contracts state the whole new state.
- Accumulating loops are methods, proved against specification functions.
- Pure scorers are functions. Their properties are stated as ensures
  clauses and lemmas.
- Randomness, transcendental numerics, HTTP and file reading are
  parameters. The list below names each one.
- All arithmetic is exact (`real`, `int`). Threshold facts such as "13.2,
  33.2, 23.0 and 22.1" are statements about exact arithmetic.

`evaluate_attractors` (research/abiogenesis_engine/abiogenesis_engine.py:251-273)
does not skip stabiliser kinds already in `self.stabilizers`. Only the
addition after emergence checks for them (line 445). The later versions of
the engine do skip them (`abiogenesis_engine v2.py:159`,
`abiogenesis_engine v3.py:154`), but they are not part of this model. The
model follows `abiogenesis_engine.py`, and `Abiogenesis.ReplicationOnlyRepeats`
shows replication being selected again after it was applied.

## Model

| member | source | states |
|---|---|---|
| Abiogenesis.AbiogenesisMol.constructor | research/abiogenesis_engine/abiogenesis_engine.py:15-34 | a fresh engine has no molecules, reactions, stabilisers or core, and satisfies the invariant (ids are positions; reactions and core name existing molecules) |
| Abiogenesis.AbiogenesisMol.AddMolecule | research/abiogenesis_engine/abiogenesis_engine.py:36-45 | the new molecule's id is the previous number of molecules and it is appended; nothing else changes and the invariant `molecules[i].id == i` is kept |
| Abiogenesis.AbiogenesisMol.AddRandomReaction | research/abiogenesis_engine/abiogenesis_engine.py:47-84 | no effect with fewer than 2 molecules; otherwise the two reactants differ, every index is a valid molecule, a product molecule (complexity 1.2, potential 0.1, the drawn kind, id the old count) is created only below 20 molecules and is the only molecule added, a catalyst always joins the core, and the product joins it only on the 10% draw |
| Abiogenesis.FirstOther | research/abiogenesis_engine/abiogenesis_engine.py:53-56 | the redraw loop for the second reactant yields a draw different from the first reactant |
| Abiogenesis.FirstOtherIsFirst | research/abiogenesis_engine/abiogenesis_engine.py:53-56 | the second reactant is the first draw that differs from the first reactant |
| Abiogenesis.AbiogenesisMol.DetectCatalyticCoreRaf | research/abiogenesis_engine/abiogenesis_engine.py:86-108 | the fixpoint loop returns exactly `RafCore`: empty with no reactions, otherwise the catalysts closed under firing reactions |
| Abiogenesis.RafCoreIsLeastClosed | research/abiogenesis_engine/abiogenesis_engine.py:91-108 | the core holds every catalyst, is closed under reactions whose reactants and catalyst are in it, is the least such set, names only existing molecules, and is empty without reactions |
| Abiogenesis.SaturateIsLeastClosed | research/abiogenesis_engine/abiogenesis_engine.py:97-107 | the `while changed` saturation from a start set only grows it, stays within the molecules, ends closed, and is below every closed superset of the start |
| Abiogenesis.AbiogenesisMol.CalculateOE | research/abiogenesis_engine/abiogenesis_engine.py:112-137 | 0 with no molecules; otherwise a load in [0, 2] built from the non-core share of the molecules |
| Abiogenesis.AbiogenesisMol.CheckCollapseThreshold | research/abiogenesis_engine/abiogenesis_engine.py:275-278 | never with fewer than five molecules; always with five or more and an empty RAF core; with every molecule in the core (and at most ten reactions) exactly when the entropy and MDL terms exceed 0.70 |
| Abiogenesis.Load | research/abiogenesis_engine/abiogenesis_engine.py:130-137 | core term + 0.45 entropy + 0.30 MDL, plus 0.25 instability above ten reactions; never below the core term and at most 2, so the cap at 3.0 never binds |
| Abiogenesis.CoreTerm | research/abiogenesis_engine/abiogenesis_engine.py:118-121 | the non-core share lies in [0, 1]; it is 0 exactly when every molecule is in the core and 1 exactly when the core is empty |
| Abiogenesis.CountCatalysed | research/abiogenesis_engine/abiogenesis_engine.py:248 | the catalysed count is at most the number of reactions; 0 exactly when none is catalysed, all exactly when all are |
| Abiogenesis.StructuralCoherence | research/abiogenesis_engine/abiogenesis_engine.py:242-249 | 0.5 without reactions; otherwise the catalysed share in [0, 1], 1 exactly when every reaction is catalysed and 0 exactly when none is |
| Abiogenesis.SelectAttractor | research/abiogenesis_engine/abiogenesis_engine.py:251-273 | the best attractor by depth times width always clears the 0.3 threshold, so the selection is never None |
| Abiogenesis.SelectAttractorTable | research/abiogenesis_engine/abiogenesis_engine.py:251-273 | replication is chosen with at most one stabiliser; membrane once two are applied and it is present; matrix or membrane with three or more; already-applied kinds are not excluded |
| Abiogenesis.ReplicationOnlyRepeats | research/abiogenesis_engine/abiogenesis_engine.py:251-273 | after one or two replication stabilisers the selector asks for replication again, a kind already applied |
| Abiogenesis.AbiogenesisMol.PhiOperatorAbiogenesis | research/abiogenesis_engine/abiogenesis_engine.py:282-322 | below the collapse threshold nothing changes and it fails; above it the selected stabiliser is appended and success is exactly "the load went down"; for each kind the new molecules, reactions and core are exactly those that stabiliser produces; molecules and core only ever grow |
| Abiogenesis.AbiogenesisMol.ImplementReplicationKernel | research/abiogenesis_engine/abiogenesis_engine.py:324-352 | nothing below 3 molecules; otherwise the autocatalytic and complement reactions (energies -2.0 and -1.5) are appended, the complement molecule added, and template and complement join the core |
| Abiogenesis.AbiogenesisMol.ImplementMembraneCompartment | research/abiogenesis_engine/abiogenesis_engine.py:354-374 | two lipid molecules and their uncatalysed joining reaction are appended, then the favourable reactions among the first five are strengthened; the core is unchanged |
| Abiogenesis.Strengthen | research/abiogenesis_engine/abiogenesis_engine.py:370-372 | a reaction with negative energy becomes 1.5 times as favourable and stays favourable; any other is unchanged; the molecules it names are unchanged |
| Abiogenesis.MembraneBoosted | research/abiogenesis_engine/abiogenesis_engine.py:370-372 | exactly the first five reactions are strengthened and the rest kept |
| Abiogenesis.AbiogenesisMol.ImplementMineralMatrix | research/abiogenesis_engine/abiogenesis_engine.py:376-388 | the mineral molecule is appended and joins the core, and the reactions become `MatrixCatalysed` of the old ones |
| Abiogenesis.Mineralise | research/abiogenesis_engine/abiogenesis_engine.py:383-385 | an uncatalysed reaction gets the mineral as catalyst and 0.5 less energy, keeping its molecules |
| Abiogenesis.MatrixCatalysed | research/abiogenesis_engine/abiogenesis_engine.py:382-385 | length and reactant/product molecules are kept; catalysed reactions and those past the tenth are untouched; every changed reaction is catalysed by the mineral |
| Abiogenesis.AbiogenesisMol.AddStabilizerAfterEmergence | research/abiogenesis_engine/abiogenesis_engine.py:443-447 | on the 10% draw, with fewer than three stabilisers, the selected kind is appended only if not already present; molecules, reactions and core are unchanged |
| Genesis.MolGenesisEngine.constructor | research/mol_cosmogenesis/mol_genesis_engine.py:15-21 | a fresh engine: no nodes, relations or constraints, dimension 0, load 0 |
| Genesis.MolGenesisEngine.AddNode | research/mol_cosmogenesis/mol_genesis_engine.py:23-25 | appends a node whose id is the previous node count, with no coordinates, and recomputes the load |
| Genesis.MolGenesisEngine.AddConstraint | research/mol_cosmogenesis/mol_genesis_engine.py:27-29 | appends the rule and recomputes the load; nodes, relations and dimension unchanged |
| Genesis.MolGenesisEngine.UpdateOE | research/mol_cosmogenesis/mol_genesis_engine.py:31-33 | the load becomes `LoadFor(nodes, constraints)`; nothing else changes |
| Genesis.LoadFor | research/mol_cosmogenesis/mol_genesis_engine.py:33 | the load lies in [0, 5] and is either the cap 5 or 0.1 per node plus 0.3 per constraint |
| Genesis.LoadForMonotone | research/mol_cosmogenesis/mol_genesis_engine.py:33 | more nodes and more constraints never lower the load |
| Genesis.MolGenesisEngine.PhiOperator | research/mol_cosmogenesis/mol_genesis_engine.py:35-44 | fires exactly when the load exceeds 2.5 below three dimensions; then the dimension goes up by one, the nodes are embedded, proximity constraints dropped and the load relieved to at most 2; otherwise nothing changes |
| Genesis.MolGenesisEngine.EmbedNodes | research/mol_cosmogenesis/mol_genesis_engine.py:50-58 | every node is laid out for the current dimension (x from 1D, y from 2D, z from 3D); ids, relations, constraints and load unchanged |
| Genesis.EmbedNode | research/mol_cosmogenesis/mol_genesis_engine.py:52-58 | a node keeps its id and gains exactly the coordinates its dimension calls for; coordinates drawn in [0, 10] stay in [0, 10] |
| Genesis.Embedded | research/mol_cosmogenesis/mol_genesis_engine.py:52-58 | every node is embedded in place, and afterwards all nodes have the coordinates of the dimension |
| Genesis.PhaseCoords | research/mol_cosmogenesis/mol_genesis_engine.py:54-58 | the coordinates of a phase are the draws of that phase, node by node |
| Genesis.MolGenesisEngine.RelieveLoad | research/mol_cosmogenesis/mol_genesis_engine.py:60-65 | the constraints mentioning "proximity" are dropped and the load becomes `Relieved` of the old load |
| Genesis.WithoutProximity | research/mol_cosmogenesis/mol_genesis_engine.py:63 | keeps exactly the constraints that do not mention "proximity", never more than before |
| Genesis.WithoutProximityAppend | research/mol_cosmogenesis/mol_genesis_engine.py:63 | relieving a concatenation relieves each part in turn, so the survivors keep their original order and multiplicity |
| Genesis.WithoutProximitySingle | research/mol_cosmogenesis/mol_genesis_engine.py:63 | one constraint is dropped exactly when it mentions "proximity" and kept as it is otherwise |
| Genesis.Relieved | research/mol_cosmogenesis/mol_genesis_engine.py:64 | the relieved load lies in [0.1, 2], is below the 2.5 threshold, and is 0.4 times the load whenever the load is at least 0.25 |
| Genesis.MolGenesisEngine.CreateRelations | research/mol_cosmogenesis/mol_genesis_engine.py:67-90 | in 0D all n(n-1)/2 pairs i<j are appended to the old relations; with a geometry the relations are replaced by the pairs closer than 5 |
| Genesis.MolGenesisEngine.BuildDescriptiveBurden | research/mol_cosmogenesis/mol_genesis_engine.py:153-157 | the inner loop adds nodes only while the load stays at most 2.5, and either fires with the dimension one up and the relieved load, or stops when the load passes 4.9 |
| Genesis.MolGenesisEngine.PreGeometricPhase | research/mol_cosmogenesis/mol_genesis_engine.py:137-147 | phase 0 adds the three initial constraints and ten nodes, all pairs connected, no dimension yet |
| Genesis.NoProximityInitially | research/mol_cosmogenesis/mol_genesis_engine.py:139-141 | none of the three initial constraints mentions "proximity", so relieving the load keeps them all |
| Genesis.MolGenesisEngine.DimensionPhase | research/mol_cosmogenesis/mol_genesis_engine.py:152-160 | one pass of the outer loop raises the dimension by one, embeds all nodes and rebuilds the geometric relations, keeping the phase invariant |
| Genesis.PhaseLoadBelowThreshold | research/mol_cosmogenesis/mol_genesis_engine.py:151-158 | at the start of each phase the node count is at most 18 and the load at most 2.5 |
| Genesis.PhaseCrossing | research/mol_cosmogenesis/mol_genesis_engine.py:153-157 | in phase d the load first crosses 2.5 at 17 + d nodes and never reaches the 4.9 break |
| Genesis.MolGenesisEngine.DimensionalEmergence | research/mol_cosmogenesis/mol_genesis_engine.py:149-160 | the outer loop ends at three dimensions with 19 nodes, all embedded in 3D, load 1.12, relations the close pairs |
| Genesis.MolGenesisEngine.RunGenesis | research/mol_cosmogenesis/mol_genesis_engine.py:131-160 | from a fresh engine the run ends in 3D with 19 embedded nodes, the three initial constraints, load 1.12 and the close pairs as relations |
| GenesisV2.OptimizedMol.constructor | research/mol_cosmogenesis/mol_genesis_engine_v2.py:12-21 | a fresh engine: no nodes, relations, constraints or history, dimension 0 |
| GenesisV2.OptimizedMol.AddNode | research/mol_cosmogenesis/mol_genesis_engine_v2.py:24-30 | appends a node whose id is the previous node count, with the given complexity and no coordinates |
| GenesisV2.OptimizedMol.AddConstraint | research/mol_cosmogenesis/mol_genesis_engine_v2.py:32-38 | appends a constraint of the given type and strength with complexity 1.0 |
| GenesisV2.OptimizedMol.InitializeRelations | research/mol_cosmogenesis/mol_genesis_engine_v2.py:40-45 | the relations become all pairs i<j, n(n-1)/2 of them |
| GenesisV2.CoherenceAfterInitialize | research/mol_cosmogenesis/mol_genesis_engine_v2.py:310-314 | right after initialisation, with two or more nodes, the structural coherence is exactly 1 |
| GenesisV2.CoherenceBounds | research/mol_cosmogenesis/mol_genesis_engine_v2.py:310-314 | for duplicate-free relations between existing nodes the coherence lies in [0, 1], and is 1 exactly when every pair is related |
| GenesisV2.Coherence | research/mol_cosmogenesis/mol_genesis_engine_v2.py:310-314 | 0.5 with no relations or fewer than two nodes, and never zero or negative |
| GenesisV2.OptimizedMol.StructuralCoherence | research/mol_cosmogenesis/mol_genesis_engine_v2.py:310-314 | for a valid engine a positive share of at most 1, and 1 exactly when every pair of nodes is related |
| GenesisV2.OptimizedMol.RebuildGeometricRelations | research/mol_cosmogenesis/mol_genesis_engine_v2.py:102-121 | nothing in 0D; otherwise the relations become the close pairs i<j, each one a pair of existing nodes |
| GenesisV2.Velocity | research/mol_cosmogenesis/mol_genesis_engine_v2.py:305-308 | never negative; 0.1 with fewer than two recorded loads |
| GenesisV2.ResponseVariability | research/mol_cosmogenesis/mol_genesis_engine_v2.py:151-153 | the stub value lies in [0.2, 0.6], outside both the stabilisation and the reconfiguration band |
| GenesisV2.Diagnose | research/mol_cosmogenesis/mol_genesis_engine_v2.py:139-149 | the phase is one of STABILIZATION, RECONFIGURATION and DECOMPRESSION |
| GenesisV2.OptimizedMol.DiagnosePhase | research/mol_cosmogenesis/mol_genesis_engine_v2.py:139-153 | with the response variability fixed at 0.3 neither extreme phase can hold, so the diagnosis is always DECOMPRESSION |
| GenesisV2.FirstBest | research/mol_cosmogenesis/mol_genesis_engine_v2.py:171 | `max` with a key: the first position whose score is maximal |
| GenesisV2.EvaluateAttractors | research/mol_cosmogenesis/mol_genesis_engine_v2.py:155-173 | a selected attractor is one of 1D, 2D and 3D |
| GenesisV2.AttractorLadder | research/mol_cosmogenesis/mol_genesis_engine_v2.py:155-173 | from 0D the best attractor is 1D, from 1D it is 2D, and from 2D and 3D it is 3D; none is ever rejected |
| GenesisV2.NextDimension | research/mol_cosmogenesis/mol_genesis_engine_v2.py:201-210 | the Phi operator's new dimension is one step up, staying at 3 |
| GenesisV2.TargetDimension | research/mol_cosmogenesis/mol_genesis_engine_v2.py:210 | the digit of the target name is a dimension between 1 and 3 |
| GenesisV2.FractalEconomy | research/mol_cosmogenesis/mol_genesis_engine_v2.py:179-186 | OPTIMAL_FRACTAL exactly when 0.6 < alpha < 0.9 and 1.5 < Df < 2.5, otherwise NEEDS_REDESIGN |
| GenesisV2.OptimizedMol.ApplyFractalEconomy | research/mol_cosmogenesis/mol_genesis_engine_v2.py:179-186 | with alpha fixed at 0.75 and Df at 1.8 or 1.0, the verdict is OPTIMAL_FRACTAL exactly when a dimension exists |
| GenesisV2.FractalDimension | research/mol_cosmogenesis/mol_genesis_engine_v2.py:322-324 | inside the optimal band (1.5, 2.5) exactly when a dimension exists |
| GenesisV2.OptimizedMol.BreakSymmetry | research/mol_cosmogenesis/mol_genesis_engine_v2.py:188-190 | with the dynamic economy fixed at 1.8 symmetry is always broken |
| GenesisV2.EntropyTerm | research/mol_cosmogenesis/mol_genesis_engine_v2.py:287-303 | 0.3 with fewer than two relations, otherwise the entropy capped at 1.5 |
| GenesisV2.EmbeddingPenalty | research/mol_cosmogenesis/mol_genesis_engine_v2.py:245-285 | 1.0 in 0D or with no nodes; otherwise at least 0.1, and at most 1 for a non-negative uniformity |
| GenesisV2.Load | research/mol_cosmogenesis/mol_genesis_engine_v2.py:234-243 | 0 with no nodes, at most 3, and never negative for valid measures |
| GenesisV2.OptimizedMol.OntologicalLoad | research/mol_cosmogenesis/mol_genesis_engine_v2.py:234-243 | the engine's load: 0 without nodes, within [0, 3] |
| GenesisV2.EmbedNode | research/mol_cosmogenesis/mol_genesis_engine_v2.py:47-84 | a node keeps id and complexity and gains x from 1D, y from 2D and z from 3D, keeping its other coordinates |
| GenesisV2.Embedded | research/mol_cosmogenesis/mol_genesis_engine_v2.py:47-84 | every node is laid out in place by the layout of its position |
| GenesisV2.OptimizedMol.CheckCollapseThreshold | research/mol_cosmogenesis/mol_genesis_engine_v2.py:175-177 | never with fewer than three nodes; always with three or more nodes and more than twelve constraints, since the constraint term alone then exceeds TAU |
| GenesisV2.OptimizedMol.OptimizedPhiOperator | research/mol_cosmogenesis/mol_genesis_engine_v2.py:193-231 | succeeds exactly above the collapse threshold; then it moves one dimension up (staying at 3), lays out the nodes and rebuilds the relations from the geometry; otherwise nothing changes |
| Pairs.AppendKeptPairs | research/mol_cosmogenesis/mol_genesis_engine.py:71-90 | the nested loop appends, to the base list, exactly the kept pairs i<j in row order |
| Pairs.KeptPairsMembers | research/mol_cosmogenesis/mol_genesis_engine_v2.py:118-121 | a pair is listed exactly when i<j<n and the test keeps it, with no duplicates and in sorted order |
| Pairs.AllPairsLength | research/mol_cosmogenesis/mol_genesis_engine_v2.py:40-45 | all pairs i<j of n nodes number n(n-1)/2 |
| Pairs.KeptPairsWithinAll | research/mol_cosmogenesis/mol_genesis_engine_v2.py:118-121 | the kept pairs are a part of all pairs and never more numerous |
| Pairs.DupFreePairsBound | research/mol_cosmogenesis/mol_genesis_engine_v2.py:313 | a duplicate-free list of pairs i<j<n has at most n(n-1)/2 entries |
| Sorting.SortByProperties | tools/transport_mol_analyzer.py:128 | the sort by key returns an ascending permutation of its input |
| Sorting.SortByStable | tools/film_mol_analyzer.py:260-261 | the sort is stable: for every key value, the elements carrying it keep their input order, which decides the tied films that make the top 50 |
| ProteinRows.ParseRow | research/MOL_batch_validation.py:74-100 | a row is kept exactly when its ddG cell exists and is non-empty, the mutation is not "wild-type", all six columns exist, both `float(ddG)` and `int(POSITION)` parse and |ddG| is at most 10; the kept entry holds the row's UNIPROT_ID, MUTATION, WILD_TYPE_RES and MUTATED_RES cells and the two parsed values; the row raises the uncaught IndexError exactly when its ddG is present and non-empty but the mutation column is missing |
| ProteinRows.CollectedFails | research/MOL_batch_validation.py:74-100 | the load aborts exactly when some row reaches the uncaught IndexError |
| ProteinRows.CollectedMembers | research/MOL_batch_validation.py:74-100 | the collected entries are exactly the entries some row yields, never more than the rows |
| ProteinRows.CollectedSound | research/MOL_batch_validation.py:77-88 | no collected entry is a wild-type row or has a ddG beyond 10 in magnitude |
| ProteinRows.CountPredictions | research/MOL_batch_validation.py:111-120 | the loop counts every entry and, as correct, those whose predicted and actual stability agree |
| ProteinRows.CorrectCount | research/MOL_batch_validation.py:114-120 | the correct count never exceeds the number of entries |
| ProteinRows.Accuracy | research/MOL_batch_validation.py:124 | the percentage lies in [0, 100]; with no entries the division fails (None) |
| ProteinV1.ComputeOe | research/MOL_batch_validation.py:30-63 | the score is at most 7, and a mutation that keeps the residue scores only the conserved-position rule |
| ProteinV1.ScoreAtMostFive | research/MOL_batch_validation.py:30-63 | the score is the number of rules that fire and never exceeds 5, so the cap at 7 never binds |
| ProteinV1.MutantRulesExclusive | research/MOL_batch_validation.py:33-49 | the hydrophobic-loss and charge rules exclude the cavity and helix rules |
| ProteinV1.ScoreFiveReached | research/MOL_batch_validation.py:30-63 | Y to D and Y to G at position 99 of P00720 both reach the maximum 5 |
| ProteinV1.AromaticToChargedUnstable | research/MOL_batch_validation.py:30-63 | an aromatic residue mutated to a charged one always scores at least the unstable threshold 3 |
| ProteinV1.ProteinCount | research/MOL_batch_validation.py:98 | the per-protein count never exceeds the number of entries |
| ProteinV1.ProteinCountPositive | research/MOL_batch_validation.py:98 | a protein is counted exactly when some entry names it |
| ProteinV1.WellSampledCount | research/MOL_batch_validation.py:102-104 | after the filter a protein keeps all its entries if it had at least 5, and none otherwise |
| ProteinV1.WellSampledMembers | research/MOL_batch_validation.py:102-104 | an entry survives exactly when its protein has at least 5 entries, and every surviving protein still has at least 5 |
| ProteinV1.LoadData | research/MOL_batch_validation.py:66-104 | the load fails when a row raises, and otherwise returns the collected entries of the proteins with at least 5 of them |
| ProteinV1.KeepWellSampled | research/MOL_batch_validation.py:102-104 | with counts that match the data, the comprehension keeps exactly the well-sampled entries, in order |
| ProteinV1.Evaluate | research/MOL_batch_validation.py:107-124 | every entry is counted, correct counts the agreeing predictions (unstable from score 3), and the accuracy is in [0, 100] or None on no data |
| ProteinV2.ComputeOeV2 | research/MOL_batch_validstion_v2.py:32-54 | the score is at most 4, and an unchanged non-empty residue scores only the high-conservation rule |
| ProteinV2.ScoreAtMostThree | research/MOL_batch_validstion_v2.py:32-54 | the score is the number of rules that fire and never exceeds 3, so the cap at 4 never binds |
| ProteinV2.HighConservationInCore | research/MOL_batch_validstion_v2.py:17-30 | every highly conserved position is also a core position |
| ProteinV2.OutsideCoreScoresZero | research/MOL_batch_validstion_v2.py:32-54 | outside the core no rule fires |
| ProteinV2.EmptyResiduesScoreCavity | research/MOL_batch_validstion_v2.py:40-43 | empty residue strings pass the substring tests, so a core position scores the cavity rule |
| ProteinV2.ScoreThreeReached | research/MOL_batch_validstion_v2.py:32-54 | F to D at position 46 of P00720 reaches 3 |
| ProteinV2.BuriedAromaticToChargedUnstable | research/MOL_batch_validstion_v2.py:32-54 | a core aromatic residue mutated to a charged one always scores at least the unstable threshold 2 |
| ProteinV2.LoadData | research/MOL_batch_validstion_v2.py:57-78 | the loop returns exactly the collected entries, or fails where a row raises, with no per-protein filter |
| ProteinV2.Evaluate | research/MOL_batch_validstion_v2.py:80-93 | every entry is counted, correct counts the agreeing predictions (unstable from score 2), and the accuracy is in [0, 100] or None on no data |
| Transport.RatioLoad | tools/transport_mol_analyzer.py:86-98 | the load of a stop with neighbours is one of 0.3, 0.5 and 0.8 |
| Transport.Capacity | tools/transport_mol_analyzer.py:87-89 | the divisor lies in [1, 20], so there is no division by zero even with 0 lines |
| Transport.RatioLoadThresholds | tools/transport_mol_analyzer.py:86-98 | 0.3 exactly when twice the connections are below the capacity, 0.8 exactly when the connections exceed twice the capacity, 0.5 exactly in between |
| Transport.RatioLoadMonotone | tools/transport_mol_analyzer.py:86-98 | for fixed lines, more connections never lower the load |
| Transport.StationLoad | tools/transport_mol_analyzer.py:78-98 | always one of 0.3, 0.5 and 0.8, and 0.5 for a stop with no neighbours |
| Transport.Working | tools/transport_mol_analyzer.py:54-58 | the graph works on exactly the first `sample_size` stops, or all of them when fewer |
| Transport.Weight | tools/transport_mol_analyzer.py:73 | the weight 1/(1+d) of a non-negative distance lies in (0, 1] |
| Transport.EdgesExactly | tools/transport_mol_analyzer.py:69-74 | an edge is recorded exactly for each other position j divisible by 10 closer than the maximum, with that stop's id and weight; so no edge from a position to itself, and every weight in (0, 1] |
| Transport.GraphUpToKeys | tools/transport_mol_analyzer.py:63-67 | every stop of the sample has an adjacency entry and nothing else does |
| Transport.GraphUpToEntry | tools/transport_mol_analyzer.py:63-74 | the entry of a stop whose id no later stop repeats is exactly its edges (a repeated id keeps the last stop's list) |
| Transport.BuildFastGraph | tools/transport_mol_analyzer.py:50-76 | the nested loop returns the sample and the graph `GraphUpTo` of its stops |
| Transport.ResultOf | tools/transport_mol_analyzer.py:115-126 | a row carries the stop's id, its load and its adjacency length as connections |
| Transport.ResultsOf | tools/transport_mol_analyzer.py:111-126 | one row per stop, in stop order |
| Transport.ResultsMembers | tools/transport_mol_analyzer.py:111-126 | the rows are exactly the rows of the stops |
| Transport.AnalysisProperties | tools/transport_mol_analyzer.py:106-128 | the analysis has one row per stop of the sample, the rows are exactly those of the sample's stops, and they are in ascending order of load |
| Transport.AnalyzeNetwork | tools/transport_mol_analyzer.py:100-131 | the loop and sort return the analysis: as many rows as the sample, sorted by load, each the row of a sample stop |
| Transport.CountAtMost | tools/transport_mol_analyzer.py:151 | the optimal count never exceeds the number of rows |
| Transport.CountAtLeast | tools/transport_mol_analyzer.py:152 | the problematic count never exceeds the number of rows |
| Transport.DisjointCounts | tools/transport_mol_analyzer.py:150-152 | optimal plus problematic stops never exceed the total |
| Transport.StatisticsOf | tools/transport_mol_analyzer.py:150-157 | the optimality percentage lies in [0, 100] and is missing exactly when there are no rows (the division fails) |
| Transport.ListedSeparated | tools/transport_mol_analyzer.py:138-147 | with sorted rows and at least 20 stops, no stop in the first ten has a higher load than one in the last ten |
| TransportDemo.DemoLoad | tools/transport_mol_demo.py:24-33 | the demonstration load is one of 0.3, 0.5 and 0.8 |
| TransportDemo.Divisor | tools/transport_mol_demo.py:26 | the divisor is at least 1 and twice the lines when there is a line |
| TransportDemo.DemoLoadThresholds | tools/transport_mol_demo.py:24-33 | 0.3 exactly when twice the connections are below the divisor, 0.8 exactly when the connections exceed twice the divisor |
| TransportDemo.DemoLoadMonotone | tools/transport_mol_demo.py:24-33 | for fixed lines, more connections never lower the load |
| TransportDemo.AgreesWithAnalyser | tools/transport_mol_demo.py:24-33 | up to 10 lines the demonstration and the analyser's ratio load agree; with no connection the demonstration gives 0.3 |
| TransportDemo.AgreesWithStationLoad | tools/transport_mol_demo.py:24-33 | for a stop with at most 10 lines and at least one neighbour, the analyser's load equals the demonstration's on its counts |
| TransportDemo.StatusOf | tools/transport_mol_demo.py:42-47 | OPTIMAL exactly at most 0.35, PROBLEMATIC exactly from 0.7, MODERATE otherwise |
| TransportDemo.StatusOfLoads | tools/transport_mol_demo.py:24-47 | the loads 0.3, 0.5 and 0.8 map one to one to OPTIMAL, MODERATE and PROBLEMATIC |
| TransportDemo.DemoStops | tools/transport_mol_demo.py:17-33 | of the four stops only Alexanderplatz scores 0.8; the other three score 0.3 |
| EmpireDemo.CentralizationRisk | tools/mol_demo.py:26 | the risk term is never negative and positive exactly above 0.8 |
| EmpireDemo.LoadNonNegative | tools/mol_demo.py:22-27 | the load is never negative for non-negative territory and complexity |
| EmpireDemo.LoadMonotone | tools/mol_demo.py:22-27 | the load never falls as territory times complexity, a non-negative communication time or centralisation grows |
| EmpireDemo.PredictionOf | tools/mol_demo.py:43-48 | COLLAPSE exactly above 25, CRISIS exactly in (20, 25], STABLE exactly at most 20 |
| EmpireDemo.CorrectCount | tools/mol_demo.py:58-61 | the number of matching predictions never exceeds the number of systems |
| EmpireDemo.RunDemoAnalysis | tools/mol_demo.py:33-65 | the loop counts the matching predictions and the accuracy is that count over the systems, in [0, 1] |
| EmpireDemo.DemoOutcome | tools/mol_demo.py:15-61 | the four systems score 13.2, 33.2, 23.0 and 22.1, and exactly two predictions match history |
| FilmAnalyzer.ReleaseYear | tools/film_mol_analyzer.py:46 | a year cell that is not all digits gives year 0 |
| FilmAnalyzer.WikiKeptMembers | tools/film_mol_analyzer.py:42-62 | a movie is loaded exactly when some row yields it with a year in 2005..2024, so every loaded movie lies in that range |
| FilmAnalyzer.LoadWikipediaData | tools/film_mol_analyzer.py:35-63 | the row loop returns exactly the in-range movies of the rows, in row order |
| FilmAnalyzer.KeepWordOrSpace | tools/film_mol_analyzer.py:378 | removing the characters that are neither word characters nor spaces never lengthens the title and leaves only word characters and spaces |
| FilmAnalyzer.YearPartValue | tools/film_mol_analyzer.py:379-380 | the key's year part is all digits and its value is the parsed year (0 when the cell is not all digits) |
| FilmAnalyzer.MovieKeyOfYear | tools/film_mol_analyzer.py:376-381 | the key of a movie with a numeric year is its cleaned lower-case title, an underscore and the year |
| FilmAnalyzer.ParseGross | tools/film_mol_analyzer.py:382-392 | an empty or "Unknown" gross parses to 0 |
| FilmAnalyzer.ParseGrossIgnoresFormatting | tools/film_mol_analyzer.py:386-389 | dollar signs and commas do not change the parsed gross |
| FilmAnalyzer.PlotComplexity | tools/film_mol_analyzer.py:119-133 | 0.2 for an empty plot, otherwise one of 0.02, 0.05, 0.10 and 0.15 |
| FilmAnalyzer.PlotComplexityMonotone | tools/film_mol_analyzer.py:119-133 | among non-empty plots a longer plot never scores lower |
| FilmAnalyzer.CulturalComplexity | tools/film_mol_analyzer.py:134-155 | the weight lies in [0, 0.12], and an origin not in the table gets 0.08 |
| FilmAnalyzer.NonBlankCountZero | tools/film_mol_analyzer.py:161 | no part survives the strip filter exactly when every part is blank |
| FilmAnalyzer.SplitAllBlank | tools/film_mol_analyzer.py:161 | every comma-separated part is blank exactly when the text holds only spaces and commas |
| FilmAnalyzer.CastComplexity | tools/film_mol_analyzer.py:156-164 | the cast term lies in [0, 0.15], is 0.1 for an empty or "Unknown" cast, and is 0 exactly when the cast holds only spaces and commas |
| FilmAnalyzer.GenreComplexity | tools/film_mol_analyzer.py:165-173 | the genre term lies in [0, 0.12], is 0.1 for an empty or "Unknown" genre, and is 0 exactly when the genre holds only spaces and commas |
| FilmAnalyzer.WikipediaOE | tools/film_mol_analyzer.py:97-117 | the base load of a movie lies in [0.02, 0.59] |
| FilmAnalyzer.ImdbBonus | tools/film_mol_analyzer.py:185-196 | the rating bonus lies in [-0.3, 0] |
| FilmAnalyzer.ImdbStatus | tools/film_mol_analyzer.py:185-196 | a matched movie is one of the IMDb statuses, and IMDB_LOW exactly when it gets no bonus |
| FilmAnalyzer.ImdbBonusMonotone | tools/film_mol_analyzer.py:185-196 | a higher rating never gives a smaller reduction |
| FilmAnalyzer.ApplyImdbFilter | tools/film_mol_analyzer.py:174-206 | a matched movie takes the rating, rank, bonus and status of its entry; an unmatched one gets NO_IMDB and no bonus; nothing else of the movie changes |
| FilmAnalyzer.BoxOfficeBonus | tools/film_mol_analyzer.py:216-221 | the gross bonus lies in [-0.08, 0] |
| FilmAnalyzer.BoxOfficeBonusMonotone | tools/film_mol_analyzer.py:216-221 | a larger gross never gives a smaller reduction |
| FilmAnalyzer.ApplyBoxOfficeData | tools/film_mol_analyzer.py:207-223 | a matched movie takes its gross and that gross's bonus; an unmatched one is unchanged with no bonus |
| FilmAnalyzer.Scored | tools/film_mol_analyzer.py:242-253 | the scored movie keeps title and year and has a final load in [-0.36, 0.59] |
| FilmAnalyzer.ScoreAllAt | tools/film_mol_analyzer.py:242-253 | scoring a year's movies keeps their number and scores each one in place |
| FilmAnalyzer.TopLength | tools/film_mol_analyzer.py:260-261 | the top list has 50 movies, or all of them when fewer |
| FilmAnalyzer.TopSorted | tools/film_mol_analyzer.py:260-261 | the top list is in ascending order of final load |
| FilmAnalyzer.TopSubset | tools/film_mol_analyzer.py:260-261 | the top list takes only movies of the year, each at most as often as it occurs |
| FilmAnalyzer.TopLowest | tools/film_mol_analyzer.py:260-261 | no movie left out of the top list has a lower final load than one in it |
| FilmAnalyzer.MoviesOfYearMembers | tools/film_mol_analyzer.py:231-236 | a year's group holds exactly the loaded movies of that year |
| FilmAnalyzer.YearRankingShape | tools/film_mol_analyzer.py:239-261 | a year's ranking has at most 50 movies, in ascending order of final load |
| FilmAnalyzer.YearRankingFrom | tools/film_mol_analyzer.py:239-261 | every ranked movie is the scored form of a loaded movie of that year |
| FilmAnalyzer.YearRankingMembers | tools/film_mol_analyzer.py:239-261 | every ranked movie has that year and a final load, and is the scored form of a loaded movie |
| FilmAnalyzer.GroupByYear | tools/film_mol_analyzer.py:230-236 | the loop groups exactly the years that have movies, each with its movies in load order |
| FilmAnalyzer.ScoreMovies | tools/film_mol_analyzer.py:244-253 | the loop scores every movie of the year, in order |
| FilmAnalyzer.RankYears | tools/film_mol_analyzer.py:239-264 | the loop over 2024 down to 2005 ranks exactly the in-range years that have movies and leaves every other entry as it was |
| FilmAnalyzer.TemporalMolAnalyzer.constructor | tools/film_mol_analyzer.py:9-13 | a new analyser has no movies, no IMDb or box-office entries and no ranking |
| FilmAnalyzer.TemporalMolAnalyzer.LoadAllDatasets | tools/film_mol_analyzer.py:15-33 | the movies become the in-range rows, the IMDb and box-office tables the given ones, and the ranking is untouched |
| FilmAnalyzer.TemporalMolAnalyzer.GenerateTemporalTop50PerYear | tools/film_mol_analyzer.py:224-268 | the IMDb and box-office tables are untouched; every loaded film of 2005-2024 is replaced in place by its scored version; each such year with films gets the ranking of its scored films; other entries stay |
| FilmAnalyzer.ScoredInPlace | tools/film_mol_analyzer.py:247-257 | the loaded list after the write-back: same length, in-range films scored, the rest unchanged |
| FilmAnalyzer.RankedAreStored | tools/film_mol_analyzer.py:231-261 | every ranked film is the very film the loaded list holds after the write-back, at the position it was scored from |
| FilmForecast.ScoreBetween | research/films/mol_forecast_hail_mary_v1_202511_v6.2.py:96-98 | with normal weights a film's score lies between its smallest and largest principle score |
| FilmForecast.UpdateEach | research/films/mol_forecast_hail_mary_v1_202511_v6.2.py:87-92 | the loop over the principles updates every weight by the given rule and keeps all four keys |
| FilmForecast.Normalized | research/films/mol_forecast_hail_mary_v1_202511_v6.2.py:83-93 | renormalising keeps the four principles |
| FilmForecast.NormalizedSumsToOne | research/films/mol_forecast_hail_mary_v1_202511_v6.2.py:83-93 | after renormalising the weights sum to 1, with equal weights 1/4 when they summed to 0 |
| FilmForecast.NormalizedNormal | research/films/mol_forecast_hail_mary_v1_202511_v6.2.py:83-93 | renormalising non-negative weights gives non-negative weights that sum to 1 |
| FilmForecast.NormalizedIdempotent | research/films/mol_forecast_hail_mary_v1_202511_v6.2.py:83-93 | renormalising twice changes nothing more |
| FilmForecast.NormalizedKeepsNormal | research/films/mol_forecast_hail_mary_v1_202511_v6.2.py:83-93 | weights that already sum to 1 are left as they are |
| FilmForecast.Correlation | research/films/mol_forecast_hail_mary_v1_202511_v6.2.py:70-81 | the accumulation loop returns the Pearson correlation of the specification, and 0 for fewer than two values |
| FilmForecast.P4 | research/films/mol_forecast_hail_mary_v1_202511_v6.2.py:30-49 | a principle dictionary holds all four principles |
| FilmForecast.HistoricalFilmsComplete | research/films/mol_forecast_hail_mary_v1_202511_v6.2.py:28-50 | the historical data has ten films, each with all four principle scores |
| FilmForecast.Column | research/films/mol_forecast_hail_mary_v1_202511_v6.2.py:58 | a principle's column has one score per film, in film order |
| FilmForecast.Successes | research/films/mol_forecast_hail_mary_v1_202511_v6.2.py:59 | the success column has one value per film, in film order |
| FilmForecast.Level | research/films/mol_forecast_hail_mary_v1_202511_v6.2.py:61-62 | the fractal level divisor is at least 1 |
| FilmForecast.RawCalibrationAt | research/films/mol_forecast_hail_mary_v1_202511_v6.2.py:56-62 | each principle's raw weight is the absolute correlation of its column with success over its level |
| FilmForecast.SharesNormal | research/films/mol_forecast_hail_mary_v1_202511_v6.2.py:63-64 | dividing by the total keeps weights non-negative and, when the total is not 0, makes them sum to 1 |
| FilmForecast.SharesOfZero | research/films/mol_forecast_hail_mary_v1_202511_v6.2.py:63-64 | when all raw weights are 0 the total falls back to 1 and every weight stays 0 |
| FilmForecast.CalibrationOf | research/films/mol_forecast_hail_mary_v1_202511_v6.2.py:53-68 | the calibration assigns a weight to every principle |
| FilmForecast.CalibrationProperties | research/films/mol_forecast_hail_mary_v1_202511_v6.2.py:53-68 | calibrated weights are non-negative; they sum to 1 exactly when some principle correlates with success, and are all 0 otherwise |
| FilmForecast.Calibrate | research/films/mol_forecast_hail_mary_v1_202511_v6.2.py:53-68 | the loop over the principles returns the calibration of the films |
| FilmForecast.DeltaEnergy | research/films/mol_forecast_hail_mary_v1_202511_v6.2.py:137-142 | the perturbation energy is clamped to [0, 5] |
| FilmForecast.TrailerAdjustment | research/films/mol_forecast_hail_mary_v1_202511_v6.2.py:145 | the adjustment lies in [0, 0.2] |
| FilmForecast.ShiftedAtLeast | research/films/mol_forecast_hail_mary_v1_202511_v6.2.py:148-154 | before renormalising, a non-negative weight falls to at least 0.9 of itself |
| FilmForecast.ShiftedKeepsNormal | research/films/mol_forecast_hail_mary_v1_202511_v6.2.py:148-157 | shifting normal weights and renormalising them gives normal weights again |
| FilmForecast.NoViewsNoAdjustment | research/films/mol_forecast_hail_mary_v1_202511_v6.2.py:137-145 | a trailer with no views gives no adjustment |
| FilmForecast.ZeroShiftKeepsWeights | research/films/mol_forecast_hail_mary_v1_202511_v6.2.py:148-157 | a zero shift leaves normal weights unchanged |
| FilmForecast.NoViewsKeepsWeights | research/films/mol_forecast_hail_mary_v1_202511_v6.2.py:135-158 | a trailer with no views leaves normal weights unchanged |
| FilmForecast.HailMaryTrailerAdjustment | research/films/mol_forecast_hail_mary_v1_202511_v6.2.py:264-268 | the trailer of main (400 million views, like ratio 0.96, sentiment 0.87) gives energy 3.3408 and adjustment 0.133632 |
| FilmForecast.SourcesOrDefault | research/films/mol_forecast_hail_mary_v1_202511_v6.2.py:161 | the stored sources are the given ones when non-empty, otherwise a non-empty default |
| FilmForecast.FoldSize | research/films/mol_forecast_hail_mary_v1_202511_v6.2.py:194 | the fold size is at least 1 |
| FilmForecast.FoldSplitsData | research/films/mol_forecast_hail_mary_v1_202511_v6.2.py:196-200 | each fold's test and training sets together hold exactly the data |
| FilmForecast.TestSetSlice | research/films/mol_forecast_hail_mary_v1_202511_v6.2.py:196-199 | with at least five films each test set is the slice from its start to its end, and one fold ends where the next begins |
| FilmForecast.TestSetsPartition | research/films/mol_forecast_hail_mary_v1_202511_v6.2.py:196-199 | with at least five films the five test sets, concatenated, are the data |
| FilmForecast.FoldBounds | research/films/mol_forecast_hail_mary_v1_202511_v6.2.py:196-201 | with at least five films every test set is non-empty and every training set has at least four films |
| FilmForecast.FoldsAllUsable | research/films/mol_forecast_hail_mary_v1_202511_v6.2.py:196-208 | with at least five films no fold is skipped for a small training set or an empty test set |
| FilmForecast.ErrorSum | research/films/mol_forecast_hail_mary_v1_202511_v6.2.py:203-209 | the summed absolute error is never negative |
| FilmForecast.FoldError | research/films/mol_forecast_hail_mary_v1_202511_v6.2.py:196-210 | a fold's mean absolute error, when it has one, is never negative |
| FilmForecast.FoldErrorCases | research/films/mol_forecast_hail_mary_v1_202511_v6.2.py:196-210 | a fold is skipped exactly when its training set has fewer than two films or its test set is empty; otherwise its error is the mean error of the test set under weights calibrated on the training set |
| FilmForecast.FoldResults | research/films/mol_forecast_hail_mary_v1_202511_v6.2.py:196-210 | there is one outcome per fold, in fold order |
| FilmForecast.KeptNonNegative | research/films/mol_forecast_hail_mary_v1_202511_v6.2.py:210 | the kept errors are no more than the folds and never negative |
| FilmForecast.KeptAll | research/films/mol_forecast_hail_mary_v1_202511_v6.2.py:210 | when no fold is skipped every fold's error is kept |
| FilmForecast.SumNonNegative | research/films/mol_forecast_hail_mary_v1_202511_v6.2.py:211 | a sum of non-negative errors is non-negative |
| FilmForecast.FoldsAllRun | research/films/mol_forecast_hail_mary_v1_202511_v6.2.py:196-210 | with at least five films every fold produces an error |
| FilmForecast.ValidationProperties | research/films/mol_forecast_hail_mary_v1_202511_v6.2.py:189-213 | the mean error is never negative and 0 with no fold; stability is high exactly below 0.2; at most five folds count, and all five with at least five films |
| FilmForecast.FoldMeanError | research/films/mol_forecast_hail_mary_v1_202511_v6.2.py:203-209 | an empty test set has no error; otherwise the error is the summed error over the test set's size |
| FilmForecast.RunFold | research/films/mol_forecast_hail_mary_v1_202511_v6.2.py:197-210 | one fold's pass returns that fold's outcome of the specification |
| FilmForecast.FoldLoop | research/films/mol_forecast_hail_mary_v1_202511_v6.2.py:196-210 | the fold loop collects exactly the errors of the folds that are not skipped, in fold order |
| FilmForecast.CrossValidate | research/films/mol_forecast_hail_mary_v1_202511_v6.2.py:189-213 | the cross-validation returns the specification's mean error, fold count and stability |
| FilmForecast.AsymmetryBounds | research/films/mol_forecast_hail_mary_v1_202511_v6.2.py:100 | the asymmetry of non-negative scores lies in [0, 1], and with a positive maximum it is 0 exactly when all scores are equal |
| FilmForecast.HailMaryBelowCriticalLoad | research/films/mol_forecast_hail_mary_v1_202511_v6.2.py:96-111 | with normal weights Hail Mary scores in [0.76, 0.85], its load lies in [0.15, 0.24], and the recalibration is never triggered |
| FilmForecast.HailMaryAsymmetry | research/films/mol_forecast_hail_mary_v1_202511_v6.2.py:97-100 | Hail Mary's asymmetry is 9/85 |
| FilmForecast.StressExtremes | research/films/mol_forecast_hail_mary_v1_202511_v6.2.py:229-244 | with normal weights the ideal film scores 1 with load 0 and asymmetry 0; the anti-film scores 0 with load 1 and asymmetry 1 |
| FilmForecast.StressAsymmetries | research/films/mol_forecast_hail_mary_v1_202511_v6.2.py:233-242 | the asymmetric case's asymmetry is 7/9, the PIVC-only case's 8/9 |
| FilmForecast.StressLoadsBounded | research/films/mol_forecast_hail_mary_v1_202511_v6.2.py:237-243 | with normal weights and scores in [0, 1] the load lies in [0, 1] |
| FilmForecast.Breakdown | research/films/mol_forecast_hail_mary_v1_202511_v6.2.py:247-256 | the breakdown has an entry for every principle |
| FilmForecast.BreakdownSums | research/films/mol_forecast_hail_mary_v1_202511_v6.2.py:247-256 | the contributions add up to the total score; the percentages add up to 100 when the score is positive and are all 0 otherwise |
| FilmForecast.ShiftWeights | research/films/mol_forecast_hail_mary_v1_202511_v6.2.py:148-157 | the loop returns the shifted and renormalised weights of the specification |
| FilmForecast.PermutationComplete | research/films/mol_forecast_hail_mary_v1_202511_v6.2.py:190-192 | every film of the shuffled copy still has all four principle scores |
| FilmForecast.FullMolAnalyzer.constructor | research/films/mol_forecast_hail_mary_v1_202511_v6.2.py:20-25 | a new analyser holds the historical films, the renormalised calibration of them and no sources |
| FilmForecast.FullMolAnalyzer.ValidateCalibration | research/films/mol_forecast_hail_mary_v1_202511_v6.2.py:83-93 | the weights are renormalised and nothing else changes |
| FilmForecast.FullMolAnalyzer.RecalibratePhi | research/films/mol_forecast_hail_mary_v1_202511_v6.2.py:129-133 | the weights become the renormalised calibration of the films and nothing else changes |
| FilmForecast.FullMolAnalyzer.ApplyTrailerPhi | research/films/mol_forecast_hail_mary_v1_202511_v6.2.py:135-163 | the weights become the shifted weights, the sources are stored, and normal weights stay normal |
| FilmForecast.FullMolAnalyzer.AnalyzeHailMary | research/films/mol_forecast_hail_mary_v1_202511_v6.2.py:96-127 | the report carries the score under the old weights, the load one minus it, the asymmetry and the cross-validation; the recalibration runs exactly when the load exceeds 0.7 |
| FilmForecast.FullMolAnalyzer.StressTests | research/films/mol_forecast_hail_mary_v1_202511_v6.2.py:229-244 | one result per stress case, in case order, each as the specification scores it |
| FilmForecast.FullMolAnalyzer.DetailedBreakdown | research/films/mol_forecast_hail_mary_v1_202511_v6.2.py:247-256 | returns `Breakdown` of the current weights, whose contributions sum to the score |
| FilmForecast.Forecast | research/films/mol_forecast_hail_mary_v1_202511_v6.2.py:259-277 | in main's sequence the weights stay normal, the recalibration is never triggered, the load lies in [0.15, 0.24] and all five folds count |
| Economy.FirstIndex | tools/mol_real_analyzer.py:172-176 | the search finds the first element that matches, and None exactly when nothing matches |
| Economy.FindFirst | tools/mol_real_analyzer.py:172-176 | the loop with its early exit returns the first matching index of the specification |
| Economy.CellValueCases | tools/mol_real_analyzer.py:30-31 | a cell gives a value only when it is non-empty, holds only digits and dots and at least one digit; a minus sign or a missing year column gives no value |
| Economy.GdpMap | tools/mol_real_analyzer.py:29-31 | a country's table has an entry for exactly the years parsed so far |
| Economy.GdpMapStep | tools/mol_real_analyzer.py:29-31 | parsing one more year adds exactly that year's value to the table |
| Economy.CountryOfProperties | tools/mol_real_analyzer.py:27-32 | a row loads exactly when it has a country name and every numeric-looking cell parses; the loaded country has that name, an entry for each year 1975 to 2025, and each value is the parse of its cell |
| Economy.ParseRow | tools/mol_real_analyzer.py:28-31 | the year loop builds the country of the specification, or fails where a cell fails to parse |
| Economy.LoadableRows | tools/mol_real_analyzer.py:27-32 | the rows before the first failing one all load and the first failing one does not |
| Economy.Countries | tools/mol_real_analyzer.py:27-32 | one country per loaded row |
| Economy.CodeFor | tools/mol_real_analyzer.py:41-57 | a code is found exactly when some known name occurs in the lowercased country name, and it is the code of the first such name in table order |
| Economy.WorldBankValue | tools/mol_real_analyzer.py:39-70 | no code gives no value; a value, when there is one, is non-zero and is the request's answer for that code |
| Economy.FetchWorldBankValue | tools/mol_real_analyzer.py:39-70 | the lookup loop with its early exit returns the value of the specification |
| Economy.GdpValues | tools/mol_real_analyzer.py:76-79 | the period's values number at most the years of the period |
| Economy.GrowthRates | tools/mol_real_analyzer.py:84-88 | there are at most one fewer growth rates than values |
| Economy.GrowthRatesOfNonZero | tools/mol_real_analyzer.py:84-88 | with no zero value every consecutive pair gives a rate |
| Economy.GrowthRatesOfPositive | tools/mol_real_analyzer.py:84-88 | with positive values no growth rate reaches -1 |
| Economy.CountBelow | tools/mol_real_analyzer.py:94 | the sharp declines number at most the rates |
| Economy.CrisisFactor | tools/mol_real_analyzer.py:114-120 | a year's crisis factor lies in [0, 0.8] |
| Economy.CrisisSum | tools/mol_real_analyzer.py:113-123 | the summed factors are non-negative, at most 0.8 per year, and 0 for an empty period |
| Economy.CrisisPressure | tools/mol_real_analyzer.py:110-125 | the crisis pressure lies in [0, 0.8] |
| Economy.CrisisPressureExamples | tools/mol_real_analyzer.py:110-125 | the 2005-2009 period has pressure 0.32, the 1985-1993 period 0 |
| Economy.ZeroBeforeCrises | tools/mol_real_analyzer.py:113-123 | a period ending before 2008 has no crisis pressure |
| Economy.FdiDependence | tools/mol_real_analyzer.py:101-108 | the foreign investment dependence lies in [0, 1], and is 0.3 without a value or a positive last GDP |
| Economy.ScoreFrom | tools/mol_real_analyzer.py:93-151 | the clamped score lies in [0, 100], the decline factor in [0, 1], and the details carry the given dependence, pressure and rate count |
| Economy.SafeOE | tools/mol_real_analyzer.py:72-151 | no score exactly when fewer than 5 GDP values or fewer than 4 growth rates, with the matching reason; otherwise the score lies in [0, 100] and the details in their ranges |
| Economy.SafeOEUsesPeriodOnly | tools/mol_real_analyzer.py:72-151 | the score depends only on the country's name and its GDP values inside the period |
| Economy.CollectGdpValues | tools/mol_real_analyzer.py:76-79 | the year loop collects the values of the specification |
| Economy.ComputeGrowthRates | tools/mol_real_analyzer.py:84-88 | the loop computes the growth rates of the specification |
| Economy.ComputeCrisisPressure | tools/mol_real_analyzer.py:110-125 | the year loop computes the pressure of the specification |
| Economy.CalculateSafeOE | tools/mol_real_analyzer.py:72-151 | the method returns the score of the specification |
| Economy.PredictionBands | tools/mol_real_analyzer.py:183-191 | COLLAPSE exactly above 25, CRISIS exactly in (15, 25], STABLE exactly at most 15; a crisis is called exactly when the prediction is not STABLE |
| Economy.CaseScoreBounds | tools/mol_real_analyzer.py:171-180 | every case score lies in [0, 100] |
| Economy.CaseOutcome | tools/mol_real_analyzer.py:178-197 | a case gives at most one outcome |
| Economy.Outcomes | tools/mol_real_analyzer.py:171-197 | there are never more outcomes than cases |
| Economy.OutcomesProperties | tools/mol_real_analyzer.py:171-197 | every outcome carries the prediction of its score, counts as correct exactly when a crisis is called, and has a score in [0, 100] |
| Economy.ScoreCase | tools/mol_real_analyzer.py:171-180 | the search and scoring return the case's score |
| Economy.RunCases | tools/mol_real_analyzer.py:168-199 | the loop over the cases collects the outcomes of the specification; the total is their number and correct counts the correct ones |
| Economy.CountCorrect | tools/mol_real_analyzer.py:193-194 | the correct outcomes number at most the outcomes |
| Economy.EconomicAnalyzer.constructor | tools/mol_real_analyzer.py:19-20 | a new analyser has no countries |
| Economy.EconomicAnalyzer.LoadGdpData | tools/mol_real_analyzer.py:22-37 | the load succeeds exactly when every row loads; the countries of the rows before the first failing one are appended |
| Economy.EconomicAnalyzer.RunHistoricalTests | tools/mol_real_analyzer.py:153-204 | the outcomes are those of the six cases against the loaded countries; an accuracy exists exactly when some case was scored, and it lies in [0, 100] |
| Genesis.WithoutProximityKeepsAll | research/mol_cosmogenesis/mol_genesis_engine.py:63 | relieving a list none of whose constraints mentions "proximity" keeps the list as it was |
| Common.StripEmptyIffBlank | tools/film_mol_analyzer.py:161 | a part stripped of surrounding whitespace is empty exactly when it holds only whitespace |
| Common.NatToStringRoundTrip | tools/film_mol_analyzer.py:380 | the decimal text of a year reads back as the same year |

## Left out

- **File, CSV and JSON reading and writing, and all console output.** The
  loaders are modelled as filters over rows that are already split:
  - `load_gdp_data`, `load_data`, `load_wikipedia_data`;
  - `load_imdb_data` and `load_box_office_data`, whose tables are inputs of
    `LoadAllDatasets`;
  - `save_results_to_files`, the printing helpers, `visualize` and the
    JSON report of the forecast.
- **The HTTP request** in `get_worldbank_data_safe`. Its answer is a
  parameter `worldBank`.
- **Randomness.** Every draw is a parameter:
  - the reactant, product and catalyst picks, coin flips, energies and
    molecule kinds of the abiogenesis engine;
  - the coordinates in the first cosmogenesis engine;
  - the shuffle before cross-validation, which is any permutation of the
    films.
- **Transcendental and statistical numerics.** Each is a parameter:
  - the graph entropy, the gzip description-length proxy and the
    instability penalty, given as numbers in [0, 1];
  - the node layouts (circle packing, Fibonacci sphere, cluster shifts),
    log1p, the degree entropy and the layout uniformity of the second
    cosmogenesis engine;
  - the distances between nodes and between stops;
  - `math.sqrt` in the correlation;
  - `statistics.stdev`;
  - `float()` and `int()` parsing, with None where Python raises.
- **Floating point.** Rounding and the `round(...)` calls are not modelled.
  All arithmetic is exact.
- **Unicode.** `str.lower`, `str.isdigit`, `str.strip` and the regex `\w`
  are modelled on ASCII.
- **`simple_box_office_prediction`**, the least-squares box-office
  regression of the forecast. Its output is only reported; no modelled
  value depends on it.
- **`analyze_russia_2020_2024`**, a single printed case. It reuses
  `calculate_safe_O_E`, which is modelled.
- **The main loop of `run_experiment` in the abiogenesis engine**, its
  random step schedule and `_scientific_analysis`. Each step it calls is
  modelled, including the stabiliser addition after emergence.
- **`main` of the two protein scripts and of the economic and film
  analysers**, beyond the loops modelled as `Evaluate`, `RunHistoricalTests`
  and `GenerateTemporalTop50PerYear`.
- **In the transport analyser:** the `eval` of each stop's line list and
  the parsing of coordinate strings in `load_data`, and the printed tables
  of `print_results` beyond the counts and the percentage.
- **The transport demonstration as a script.** Its first and last lines are
  Markdown fences, so only its functions are modelled.
- **The print-only companion tables** of the empire demonstration
  (`tools/mol_demo_analyzer.py`).
- **Aliasing between movie dicts.** The film analyser's in-place writes
  into a movie dict are returned records here. The write-back into the
  loaded list is stated (`ScoredInPlace`, `RankedAreStored`), but the stored
  rankings are copies: a later write to a loaded film would also show in
  Python's rankings, and the model does not capture that sharing.
- Transport.GraphUpToEntry: states the adjacency entry of a stop only when
  no later stop of the sample has the same id. With a repeated id the later
  stop's list overwrites the earlier one.
- FilmAnalyzer.ParseGross: says nothing about unparseable text beyond what
  the `parseFloat` parameter returns. The dollar signs and commas are
  removed before that call.
- FilmForecast.Correlation: the square root is a parameter that is positive
  on positive input, not `math.sqrt` itself.
