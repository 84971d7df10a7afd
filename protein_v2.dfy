/** The second protein-stability batch script: a four-rule score that only
    counts mutations at annotated core or highly conserved positions, the
    loader without a per-protein minimum, and the accuracy count of "score
    >= 2 means UNSTABLE" against "ddG < -1.0 means UNSTABLE". */
module ProteinV2 {

  import opened Common
  import opened ProteinRows

  const Hydrophobic: set<char> := {'A', 'V', 'I', 'L', 'M', 'F', 'Y', 'W'}
  const Charged: set<char> := {'D', 'E', 'K', 'R'}
  const Aromatic: set<char> := {'F', 'Y', 'W'}

  /** Buried positions per UniProt accession. */
  const CoreResidues: map<string, set<int>> := map[
    "P00720" := {9, 10, 21, 26, 27, 29, 30, 34, 46, 47, 54, 61, 62, 70, 71, 73, 80, 81, 99, 101, 102, 103,
                 106, 115, 116, 118, 121, 122, 130, 133, 136, 145, 146, 147, 148, 152, 153, 156, 159},
    "P0A877" := {22, 28, 53, 67, 78, 101, 114, 115},
    "P04637" := {175, 248, 273, 282},
    "P00698" := {4, 5, 8, 10, 27, 32, 35, 39, 40, 42, 44, 51, 52, 56, 58, 64, 67, 71, 74, 76, 80, 83, 85,
                 87, 90, 93, 95, 97, 100, 103, 106, 110, 113, 116, 119, 122, 126, 129, 132, 135, 139, 142,
                 145, 148, 151}]

  /** Highly conserved positions per UniProt accession. */
  const HighConservation: map<string, set<int>> := map[
    "P00720" := {46, 99, 121, 153},
    "P0A877" := {28, 53, 101, 114},
    "P04637" := {175, 248, 273},
    "P00698" := {4, 8, 27, 32, 35, 67, 71, 100, 103, 116}]

  /** Scores at or above this are predicted UNSTABLE. */
  const UnstableScore: int := 2

  predicate InCore(uniprot: string, pos: int)
  {
    uniprot in CoreResidues && pos in CoreResidues[uniprot]
  }

  predicate HighlyConserved(uniprot: string, pos: int)
  {
    uniprot in HighConservation && pos in HighConservation[uniprot]
  }

  /** Rule 1: a buried hydrophobic residue replaced by a charged one. */
  predicate BuriedChargeIntroduced(uniprot: string, wt: string, mut: string, pos: int)
  {
    InCore(uniprot, pos) && InChars(wt, Hydrophobic) && InChars(mut, Charged)
  }

  /** Rule 2: a buried large residue replaced by alanine or glycine. */
  predicate BuriedCavityCreated(uniprot: string, wt: string, mut: string, pos: int)
  {
    InCore(uniprot, pos) && IsSubstring(wt, "FWYLM") && IsSubstring(mut, "AG")
  }

  /** Rule 4: a buried aromatic residue replaced by a non-aromatic one. */
  predicate BuriedAromaticLost(uniprot: string, wt: string, mut: string, pos: int)
  {
    InCore(uniprot, pos) && InChars(wt, Aromatic) && !InChars(mut, Aromatic)
  }

  /** The number of rules that fire, before the cap. */
  function RuleCount(uniprot: string, wt: string, mut: string, pos: int): nat
  {
    Flag(BuriedChargeIntroduced(uniprot, wt, mut, pos)) + Flag(BuriedCavityCreated(uniprot, wt, mut, pos))
    + Flag(HighlyConserved(uniprot, pos)) + Flag(BuriedAromaticLost(uniprot, wt, mut, pos))
  }

  /** `compute_Oe_v2`: the fired rules counted and capped at 4. A mutation
      to the same (non-empty) residue scores only for a highly conserved
      position. */
  function ComputeOeV2(uniprot: string, wt: string, mut: string, pos: int): (score: nat)
    ensures score <= 4
    ensures wt == mut && wt != "" ==> score == Flag(HighlyConserved(uniprot, pos))
  {
    SubstringFirstChar(wt, "FWYLM");
    SubstringFirstChar(mut, "AG");
    var raw := RuleCount(uniprot, wt, mut, pos);
    if raw < 4 then raw else 4
  }

  /** Every highly conserved position is also a core position. */
  lemma HighConservationInCore(uniprot: string, pos: int)
    ensures HighlyConserved(uniprot, pos) ==> InCore(uniprot, pos)
  {
    if HighlyConserved(uniprot, pos) {
      assert uniprot == "P00720" || uniprot == "P0A877" || uniprot == "P04637" || uniprot == "P00698";
    }
  }

  /** A position outside the annotated core, and so any position of an
      unlisted protein, scores 0. */
  lemma OutsideCoreScoresZero(uniprot: string, wt: string, mut: string, pos: int)
    requires !InCore(uniprot, pos)
    ensures ComputeOeV2(uniprot, wt, mut, pos) == 0
  {
    HighConservationInCore(uniprot, pos);
  }

  /** Rules 1 and 2 cannot both fire (a charged mutant is neither A nor G),
      so the score never exceeds 3 and the cap of 4 never applies. */
  lemma ScoreAtMostThree(uniprot: string, wt: string, mut: string, pos: int)
    ensures ComputeOeV2(uniprot, wt, mut, pos) == RuleCount(uniprot, wt, mut, pos) <= 3
  {
    if |mut| == 1 {
      SingleCharSubstring(mut, "AG");
    }
  }

  /** The empty string is a substring of every string, so two empty residue
      cells at a core position fire the cavity rule. */
  lemma EmptyResiduesScoreCavity()
    ensures ComputeOeV2("P00720", "", "", 9) == 1
  {
    SingleCharSubstring("", "FWYLM");
    SingleCharSubstring("", "AG");
  }

  /** The bound 3 is reached: Phe to Asp at the conserved core position 46
      of T4 lysozyme. */
  lemma ScoreThreeReached()
    ensures ComputeOeV2("P00720", "F", "D", 46) == 3
  {
    SingleCharSubstring("D", "AG");
  }

  /** A buried aromatic residue mutated to a charged one fires rules 1 and 4,
      so it is always predicted UNSTABLE. */
  lemma BuriedAromaticToChargedUnstable(uniprot: string, wt: string, mut: string, pos: int)
    requires InCore(uniprot, pos) && InChars(wt, Aromatic) && InChars(mut, Charged)
    ensures ComputeOeV2(uniprot, wt, mut, pos) >= UnstableScore
  {
    ScoreAtMostThree(uniprot, wt, mut, pos);
  }

  /** `load_data`: every usable row, in order, with no per-protein minimum.
      None stands for the IndexError that aborts the load. */
  method LoadData(cols: Columns, rows: seq<seq<string>>,
                  parseFloat: string -> Option<real>, parseInt: string -> Option<int>)
    returns (r: Option<seq<Entry>>)
    ensures r == Collected(cols, rows, parseFloat, parseInt)
  {
    var data: seq<Entry> := [];
    for k := 0 to |rows|
      invariant Collected(cols, rows[..k], parseFloat, parseInt) == Some(data)
    {
      assert rows[..k + 1][..k] == rows[..k];
      match ParseRow(cols, rows[k], parseFloat, parseInt)
      case Crash =>
        CollectedFails(cols, rows, parseFloat, parseInt);
        return None;
      case Skip =>
      case Keep(e) =>
        data := data + [e];
    }
    assert rows[..|rows|] == rows;
    return Some(data);
  }

  /** The score of one collected entry. */
  function EntryScore(e: Entry): int
  {
    ComputeOeV2(e.uniprot, e.wt, e.mut, e.pos)
  }

  /** `main` after loading: count the correct predictions and report the
      accuracy, None being the division by zero of an empty data set. */
  method Evaluate(data: seq<Entry>) returns (correct: nat, total: nat, accuracy: Option<real>)
    ensures total == |data| && correct == CorrectCount(data, EntryScore, UnstableScore)
    ensures accuracy.None? <==> data == []
    ensures accuracy.Some? ==> 0.0 <= accuracy.value <= 100.0
  {
    correct, total := CountPredictions(data, EntryScore, UnstableScore);
    accuracy := Accuracy(correct, total);
  }
}
