/** The first protein-stability batch script: a seven-rule structural score
    for a point mutation, the loader that keeps proteins with at least five
    usable mutations, and the accuracy count of "score >= 3 means UNSTABLE"
    against "ddG < -1.0 means UNSTABLE". Residues are the CSV cells as
    strings, compared with Python's own `in`: one-character membership for a
    set, substring for a string. */
module ProteinV1 {

  import opened Common
  import opened ProteinRows

  const Hydrophobic: set<char> := {'A', 'V', 'I', 'L', 'M', 'F', 'Y', 'W'}
  const Polar: set<char> := {'S', 'T', 'N', 'Q'}
  const Charged: set<char> := {'D', 'E', 'K', 'R'}
  const Aromatic: set<char> := {'F', 'Y', 'W'}
  const Small: set<char> := {'G', 'A'}
  const Large: set<char> := {'W', 'Y', 'F', 'R'}

  /** Positions known to be conserved, per UniProt accession. */
  const Conserved: map<string, set<int>> := map[
    "P00720" := {99, 46, 121, 153},
    "P0A877" := {28, 53, 101, 114},
    "P04637" := {175, 248, 273}]

  /** A protein needs this many usable mutations to be analysed. */
  const MinMutations: nat := 5

  /** Scores at or above this are predicted UNSTABLE. */
  const UnstableScore: int := 3

  /** Rule 1: a hydrophobic residue replaced by a charged or polar one. */
  predicate HydrophobicLost(wt: string, mut: string)
  {
    InChars(wt, Hydrophobic) && (InChars(mut, Charged) || InChars(mut, Polar))
  }

  /** Rule 2: a large residue replaced by a small one (a cavity). */
  predicate CavityCreated(wt: string, mut: string)
  {
    InChars(wt, Large) && InChars(mut, Small)
  }

  /** Rule 3: a charge introduced where there was none. */
  predicate ChargeIntroduced(wt: string, mut: string)
  {
    !InChars(wt, Charged) && InChars(mut, Charged)
  }

  /** Rule 4: proline or glycine introduced where helices are assumed
      (positions 21 to 149). */
  predicate HelixBroken(wt: string, mut: string, pos: int)
  {
    20 < pos < 150 && !IsSubstring(wt, "PG") && IsSubstring(mut, "PG")
  }

  /** Rule 5: a hydrogen-bonding Ser/Thr/Tyr lost. */
  predicate HydrogenBondLost(wt: string, mut: string)
  {
    IsSubstring(wt, "STY") && !IsSubstring(mut, "STY")
  }

  /** Rule 6: the position is a listed conserved position of the protein. */
  predicate AtConservedPosition(uniprot: string, pos: int)
  {
    uniprot in Conserved && pos in Conserved[uniprot]
  }

  /** Rule 7: an aromatic residue replaced by a non-aromatic one. */
  predicate AromaticLost(wt: string, mut: string)
  {
    InChars(wt, Aromatic) && !InChars(mut, Aromatic)
  }

  /** The number of rules that fire, before the cap. */
  function RuleCount(uniprot: string, wt: string, mut: string, pos: int): nat
  {
    Flag(HydrophobicLost(wt, mut)) + Flag(CavityCreated(wt, mut)) + Flag(ChargeIntroduced(wt, mut))
    + Flag(HelixBroken(wt, mut, pos)) + Flag(HydrogenBondLost(wt, mut))
    + Flag(AtConservedPosition(uniprot, pos)) + Flag(AromaticLost(wt, mut))
  }

  /** `compute_Oe`: the fired rules counted and capped at 7. A mutation to
      the same residue fires no residue rule, so it scores only for a
      conserved position. */
  function ComputeOe(uniprot: string, wt: string, mut: string, pos: int): (score: nat)
    ensures score <= 7
    ensures wt == mut ==> score == Flag(AtConservedPosition(uniprot, pos))
  {
    var raw := RuleCount(uniprot, wt, mut, pos);
    if raw < 7 then raw else 7
  }

  /** Rules 1 and 3 (a charged or polar mutant) exclude rules 2 and 4 (a
      small, proline or glycine mutant). */
  lemma MutantRulesExclusive(wt: string, mut: string, pos: int)
    ensures HydrophobicLost(wt, mut) ==> !CavityCreated(wt, mut) && !HelixBroken(wt, mut, pos)
    ensures ChargeIntroduced(wt, mut) ==> !CavityCreated(wt, mut) && !HelixBroken(wt, mut, pos)
  {
    if |mut| == 1 {
      SingleCharSubstring(mut, "PG");
    }
  }

  /** At most two of the four rules about the mutant fire, so the score never
      exceeds 5 and the cap of 7 never applies. */
  lemma ScoreAtMostFive(uniprot: string, wt: string, mut: string, pos: int)
    ensures ComputeOe(uniprot, wt, mut, pos) == RuleCount(uniprot, wt, mut, pos) <= 5
  {
    MutantRulesExclusive(wt, mut, pos);
  }

  /** The bound 5 is reached: Tyr to Asp, and Tyr to Gly, at the conserved
      position 99 of T4 lysozyme. */
  lemma ScoreFiveReached()
    ensures ComputeOe("P00720", "Y", "D", 99) == 5
    ensures ComputeOe("P00720", "Y", "G", 99) == 5
  {
    SingleCharSubstring("Y", "PG");
    SingleCharSubstring("Y", "STY");
    SingleCharSubstring("D", "PG");
    SingleCharSubstring("D", "STY");
    SingleCharSubstring("G", "PG");
    SingleCharSubstring("G", "STY");
  }

  /** An aromatic residue mutated to a charged one fires rules 1, 3 and 7,
      so it is always predicted UNSTABLE. */
  lemma AromaticToChargedUnstable(uniprot: string, wt: string, mut: string, pos: int)
    requires InChars(wt, Aromatic) && InChars(mut, Charged)
    ensures ComputeOe(uniprot, wt, mut, pos) >= UnstableScore
  {
    ScoreAtMostFive(uniprot, wt, mut, pos);
  }

  /** The number of entries of protein p. */
  function ProteinCount(es: seq<Entry>, p: string): (c: nat)
    ensures c <= |es|
  {
    if es == [] then 0
    else ProteinCount(es[..|es| - 1], p) + (if es[|es| - 1].uniprot == p then 1 else 0)
  }

  /** The entries of `ds`, in order, whose protein has at least
      MinMutations entries in `all`. */
  function WellSampled(ds: seq<Entry>, all: seq<Entry>): seq<Entry>
  {
    if ds == [] then []
    else
      WellSampled(ds[..|ds| - 1], all)
      + (if ProteinCount(all, ds[|ds| - 1].uniprot) >= MinMutations then [ds[|ds| - 1]] else [])
  }

  lemma {:induction false} ProteinCountPositive(es: seq<Entry>, p: string)
    ensures ProteinCount(es, p) > 0 <==> exists k :: 0 <= k < |es| && es[k].uniprot == p
  {
    if es != [] {
      ProteinCountPositive(es[..|es| - 1], p);
      if exists k :: 0 <= k < |es| && es[k].uniprot == p {
        var k :| 0 <= k < |es| && es[k].uniprot == p;
        if k < |es| - 1 {
          assert es[..|es| - 1][k] == es[k];
        }
      }
    }
  }

  /** The filter keeps every entry of a well-sampled protein and none of
      the others: a kept protein keeps all its entries, so it still has at
      least MinMutations of them. */
  lemma {:induction false} WellSampledCount(ds: seq<Entry>, all: seq<Entry>, p: string)
    ensures ProteinCount(WellSampled(ds, all), p) ==
      (if ProteinCount(all, p) >= MinMutations then ProteinCount(ds, p) else 0)
  {
    if ds != [] {
      WellSampledCount(ds[..|ds| - 1], all, p);
      var rest := WellSampled(ds[..|ds| - 1], all);
      var last := ds[|ds| - 1];
      if ProteinCount(all, last.uniprot) >= MinMutations {
        assert WellSampled(ds, all) == rest + [last];
        ProteinCountSnoc(rest, last, p);
      } else {
        assert WellSampled(ds, all) == rest;
      }
    }
  }

  lemma ProteinCountSnoc(es: seq<Entry>, e: Entry, p: string)
    ensures ProteinCount(es + [e], p) == ProteinCount(es, p) + (if e.uniprot == p then 1 else 0)
  {
    assert (es + [e])[..|es|] == es;
  }

  /** An entry survives exactly when it was collected and its protein has at
      least MinMutations collected entries; every protein that survives has
      at least MinMutations entries in the result. */
  lemma WellSampledMembers(es: seq<Entry>)
    ensures forall d :: d in WellSampled(es, es) <==> d in es && ProteinCount(es, d.uniprot) >= MinMutations
    ensures forall d :: d in WellSampled(es, es) ==> ProteinCount(WellSampled(es, es), d.uniprot) >= MinMutations
  {
    WellSampledMembersBelow(es, es);
    forall d | d in WellSampled(es, es)
      ensures ProteinCount(WellSampled(es, es), d.uniprot) >= MinMutations
    {
      WellSampledCount(es, es, d.uniprot);
    }
  }

  lemma {:induction false} WellSampledMembersBelow(ds: seq<Entry>, all: seq<Entry>)
    ensures forall d :: d in WellSampled(ds, all) <==> d in ds && ProteinCount(all, d.uniprot) >= MinMutations
  {
    if ds != [] {
      WellSampledMembersBelow(ds[..|ds| - 1], all);
      assert ds == ds[..|ds| - 1] + [ds[|ds| - 1]];
    }
  }

  /** `load_data`: collect the usable rows while counting mutations per
      protein, then keep the proteins with at least MinMutations of them.
      None stands for the IndexError that aborts the load. */
  method LoadData(cols: Columns, rows: seq<seq<string>>,
                  parseFloat: string -> Option<real>, parseInt: string -> Option<int>)
    returns (r: Option<seq<Entry>>)
    ensures Collected(cols, rows, parseFloat, parseInt).None? ==> r.None?
    ensures Collected(cols, rows, parseFloat, parseInt).Some? ==>
      var es := Collected(cols, rows, parseFloat, parseInt).value;
      r == Some(WellSampled(es, es))
  {
    var data: seq<Entry> := [];
    var counts: map<string, nat> := map[];
    for k := 0 to |rows|
      invariant Collected(cols, rows[..k], parseFloat, parseInt) == Some(data)
      invariant forall p :: p in counts <==> ProteinCount(data, p) > 0
      invariant forall p :: p in counts ==> counts[p] == ProteinCount(data, p)
    {
      assert rows[..k + 1][..k] == rows[..k];
      match ParseRow(cols, rows[k], parseFloat, parseInt)
      case Crash =>
        CollectedFails(cols, rows, parseFloat, parseInt);
        return None;
      case Skip =>
      case Keep(e) =>
        assert (data + [e])[..|data|] == data;
        data := data + [e];
        counts := counts[e.uniprot := (if e.uniprot in counts then counts[e.uniprot] else 0) + 1];
    }
    assert rows[..|rows|] == rows;
    var kept := KeepWellSampled(data, counts);
    return Some(kept);
  }

  /** The final comprehension of `load_data`: the collected entries whose
      protein was counted at least MinMutations times, in order. */
  method KeepWellSampled(data: seq<Entry>, counts: map<string, nat>) returns (kept: seq<Entry>)
    requires forall p :: p in counts <==> ProteinCount(data, p) > 0
    requires forall p :: p in counts ==> counts[p] == ProteinCount(data, p)
    ensures kept == WellSampled(data, data)
  {
    var valid := set p | p in counts && counts[p] >= MinMutations;
    kept := [];
    for k := 0 to |data|
      invariant kept == WellSampled(data[..k], data)
    {
      assert data[..k + 1][..k] == data[..k];
      var d := data[k];
      if ProteinCount(data, d.uniprot) >= MinMutations {
        ProteinCountPositive(data, d.uniprot);
      }
      if d.uniprot in valid {
        kept := kept + [d];
      }
    }
    assert data[..|data|] == data;
  }

  /** The score of one collected entry. */
  function EntryScore(e: Entry): int
  {
    ComputeOe(e.uniprot, e.wt, e.mut, e.pos)
  }

  /** `main` after loading: count the correct predictions and report the
      accuracy, None being the division by zero of an empty data set. */
  method Evaluate(data: seq<Entry>) returns (correct: nat, total: nat, accuracy: Option<real>)
    ensures total == |data| && correct == CorrectCount(data, EntryScore, UnstableScore)
    ensures accuracy.None? <==> data == []
    ensures accuracy.Some? ==> 0.0 <= accuracy.value <= 100.0
  {
    correct, total := CountPredictions(data, EntryScore, UnstableScore);
    accuracy := Accuracy(correct, total);
  }
}
