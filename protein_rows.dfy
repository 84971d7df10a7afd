/** The row filter shared by both protein-stability batch scripts. Rows are
    CSV records already split into cells; the columns are located by header
    name, given here as indices. `float(...)` and `int(...)` of a cell are
    parameters returning None where Python raises ValueError. */
module ProteinRows {

  import opened Common

  /** The positions of the columns the loaders read. */
  datatype Columns = Columns(ddg: nat, mutation: nat, uniprot: nat, position: nat,
                             wildType: nat, mutated: nat)

  /** One usable mutation record. */
  datatype Entry = Entry(uniprot: string, mutation: string, ddg: real, pos: int, wt: string, mut: string)

  /** What the loop body does with one row: skip it, keep an entry, or raise
      IndexError outside the `try` (reading the MUTATION cell of a row too
      short for it), which aborts the whole load. */
  datatype RowOutcome = Skip | Keep(entry: Entry) | Crash

  /** 1 for a rule that fires, 0 otherwise: the scorers' `score += 1`. */
  function Flag(b: bool): nat
  {
    if b then 1 else 0
  }

  /** The loop body of `load_data`. Rows without a ddG cell, with an empty
      one, or for the wild type are skipped; inside the `try`, a missing
      cell or a cell that does not parse skips the row, and so does
      |ddG| > 10. */
  function ParseRow(cols: Columns, row: seq<string>,
                    parseFloat: string -> Option<real>, parseInt: string -> Option<int>): (o: RowOutcome)
    ensures o.Keep? ==>
      && cols.ddg < |row| && row[cols.ddg] != ""
      && cols.mutation < |row| && row[cols.mutation] != "wild-type"
      && cols.uniprot < |row| && cols.position < |row| && cols.wildType < |row| && cols.mutated < |row|
      && parseFloat(row[cols.ddg]) == Some(o.entry.ddg) && Abs(o.entry.ddg) <= 10.0
      && parseInt(row[cols.position]) == Some(o.entry.pos)
      && o.entry == Entry(row[cols.uniprot], row[cols.mutation], o.entry.ddg, o.entry.pos,
                          row[cols.wildType], row[cols.mutated])
    ensures cols.ddg < |row| && row[cols.ddg] != ""
      && cols.mutation < |row| && row[cols.mutation] != "wild-type"
      && cols.uniprot < |row| && cols.position < |row| && cols.wildType < |row| && cols.mutated < |row|
      && parseFloat(row[cols.ddg]).Some? && parseInt(row[cols.position]).Some?
      && Abs(parseFloat(row[cols.ddg]).value) <= 10.0
      ==> o.Keep?
    ensures o.Crash? <==> cols.ddg < |row| && row[cols.ddg] != "" && cols.mutation >= |row|
  {
    if |row| <= cols.ddg then Skip
    else if row[cols.ddg] == "" then Skip
    else if cols.mutation >= |row| then Crash
    else if row[cols.mutation] == "wild-type" then Skip
    else if !(cols.uniprot < |row| && cols.position < |row| && cols.wildType < |row| && cols.mutated < |row|)
    then Skip
    else
      match (parseFloat(row[cols.ddg]), parseInt(row[cols.position]))
      case (Some(d), Some(p)) =>
        if Abs(d) > 10.0 then Skip
        else Keep(Entry(row[cols.uniprot], row[cols.mutation], d, p, row[cols.wildType], row[cols.mutated]))
      case _ => Skip
  }

  /** The entries the loop collects from `rows`, in order, or None when a row
      makes it raise. */
  function Collected(cols: Columns, rows: seq<seq<string>>,
                     parseFloat: string -> Option<real>, parseInt: string -> Option<int>): Option<seq<Entry>>
  {
    if rows == [] then Some([])
    else
      match Collected(cols, rows[..|rows| - 1], parseFloat, parseInt)
      case None => None
      case Some(prefix) =>
        match ParseRow(cols, rows[|rows| - 1], parseFloat, parseInt)
        case Crash => None
        case Skip => Some(prefix)
        case Keep(e) => Some(prefix + [e])
  }

  /** The load fails exactly when some row raises. */
  lemma {:induction false} CollectedFails(cols: Columns, rows: seq<seq<string>>,
                                          parseFloat: string -> Option<real>, parseInt: string -> Option<int>)
    ensures Collected(cols, rows, parseFloat, parseInt).None? <==>
      exists i :: 0 <= i < |rows| && ParseRow(cols, rows[i], parseFloat, parseInt).Crash?
  {
    if rows != [] {
      var init := rows[..|rows| - 1];
      CollectedFails(cols, init, parseFloat, parseInt);
      if Collected(cols, init, parseFloat, parseInt).None? {
        var i :| 0 <= i < |init| && ParseRow(cols, init[i], parseFloat, parseInt).Crash?;
        assert rows[i] == init[i];
      }
    }
  }

  /** A successful load collects exactly the entries of the kept rows, no
      more entries than rows. */
  lemma {:induction false} CollectedMembers(cols: Columns, rows: seq<seq<string>>,
                                            parseFloat: string -> Option<real>, parseInt: string -> Option<int>)
    requires Collected(cols, rows, parseFloat, parseInt).Some?
    ensures |Collected(cols, rows, parseFloat, parseInt).value| <= |rows|
    ensures forall e :: e in Collected(cols, rows, parseFloat, parseInt).value <==>
      exists i :: 0 <= i < |rows| && ParseRow(cols, rows[i], parseFloat, parseInt) == Keep(e)
  {
    if rows != [] {
      var init := rows[..|rows| - 1];
      CollectedMembers(cols, init, parseFloat, parseInt);
      var es := Collected(cols, rows, parseFloat, parseInt).value;
      var prefix := Collected(cols, init, parseFloat, parseInt).value;
      forall e ensures e in es <==>
        exists i :: 0 <= i < |rows| && ParseRow(cols, rows[i], parseFloat, parseInt) == Keep(e)
      {
        if e in es {
          if e in prefix {
            var i :| 0 <= i < |init| && ParseRow(cols, init[i], parseFloat, parseInt) == Keep(e);
            assert rows[i] == init[i];
          } else {
            assert ParseRow(cols, rows[|rows| - 1], parseFloat, parseInt) == Keep(e);
          }
        }
        if exists i :: 0 <= i < |rows| && ParseRow(cols, rows[i], parseFloat, parseInt) == Keep(e) {
          var i :| 0 <= i < |rows| && ParseRow(cols, rows[i], parseFloat, parseInt) == Keep(e);
          if i < |init| {
            assert rows[i] == init[i];
          }
        }
      }
    }
  }

  /** Every collected entry is a measured, non-wild-type mutation with
      |ddG| <= 10. */
  lemma CollectedSound(cols: Columns, rows: seq<seq<string>>,
                       parseFloat: string -> Option<real>, parseInt: string -> Option<int>)
    requires Collected(cols, rows, parseFloat, parseInt).Some?
    ensures forall e :: e in Collected(cols, rows, parseFloat, parseInt).value ==>
      e.mutation != "wild-type" && Abs(e.ddg) <= 10.0
  {
    CollectedMembers(cols, rows, parseFloat, parseInt);
  }

  /** The prediction loop of `main`: an entry is predicted UNSTABLE when its
      score reaches the threshold, is actually UNSTABLE when ddG < -1.0, and
      counts as correct when the two labels agree. */
  function CorrectCount(es: seq<Entry>, score: Entry -> int, threshold: int): (c: nat)
    ensures c <= |es|
  {
    if es == [] then 0
    else
      var last := es[|es| - 1];
      CorrectCount(es[..|es| - 1], score, threshold)
      + (if (score(last) >= threshold) == (last.ddg < -1.0) then 1 else 0)
  }

  /** The loop of `main` that counts the correct predictions. */
  method CountPredictions(es: seq<Entry>, score: Entry -> int, threshold: int) returns (correct: nat, total: nat)
    ensures total == |es|
    ensures correct == CorrectCount(es, score, threshold) && correct <= total
  {
    correct, total := 0, 0;
    for k := 0 to |es|
      invariant total == k
      invariant correct == CorrectCount(es[..k], score, threshold)
    {
      var e := es[k];
      var predUnstable := score(e) >= threshold;
      var actualUnstable := e.ddg < -1.0;
      if predUnstable == actualUnstable {
        correct := correct + 1;
      }
      total := total + 1;
      assert es[..k + 1][..k] == es[..k];
    }
    assert es[..|es|] == es;
  }

  /** The printed accuracy `100 * correct / total`, which raises
      ZeroDivisionError when nothing survived the filters. */
  function Accuracy(correct: nat, total: nat): (r: Option<real>)
    requires correct <= total
    ensures r.None? <==> total == 0
    ensures r.Some? ==> 0.0 <= r.value <= 100.0
  {
    if total == 0 then None
    else
      RatioBounds(correct, total);
      Some(100.0 * (correct as real / total as real))
  }
}
