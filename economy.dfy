/** The GDP stability analyser: GDP tables loaded cell by cell, the country
    code lookup in front of the World Bank request, the bounded O(E) score
    of a period, and the run over the historical crisis cases.
    `statistics.stdev` and the HTTP request are parameters. */
module Economy {

  import opened Common

  // ---------------------------------------------------------------------------
  // First match

  /** The index of the first element satisfying `p`, as a `for ... break`
      search finds it. */
  function FirstIndex<T>(s: seq<T>, p: T -> bool): (r: Option<nat>)
    ensures r.Some? ==> r.value < |s| && p(s[r.value])
    ensures r.Some? ==> forall j :: 0 <= j < r.value ==> !p(s[j])
    ensures r.None? <==> forall j :: 0 <= j < |s| ==> !p(s[j])
  {
    if s == [] then None
    else if p(s[0]) then Some(0)
    else match FirstIndex(s[1..], p)
      case None => None
      case Some(i) => Some(i + 1)
  }

  /** The linear search with `break` that both lookups of the script use. */
  method FindFirst<T>(s: seq<T>, p: T -> bool) returns (r: Option<nat>)
    ensures r == FirstIndex(s, p)
  {
    r := None;
    for k := 0 to |s|
      invariant r.None?
      invariant forall j :: 0 <= j < k ==> !p(s[j])
    {
      if p(s[k]) {
        r := Some(k);
        break;
      }
    }
  }

  // ---------------------------------------------------------------------------
  // Loading the GDP table

  /** A loaded country: its name and, for every year read, the GDP value or
      None. */
  datatype Country = Country(name: string, gdp: map<int, Option<real>>)

  /** The years whose columns are read. */
  const FirstYear: int := 1975
  const LastYear: int := 2025

  /** The stripped text of a row's `str(year)` column, "" when absent. */
  function CellText(row: map<string, string>, year: int): string
  {
    var key := IntToString(year);
    Strip(if key in row then row[key] else "")
  }

  /** The guard in front of `float(value)`: non-empty, and all digits once
      every '.' is removed. */
  predicate LooksNumeric(value: string)
  {
    value != [] && IsAllDigits(RemoveChars(value, {'.'}))
  }

  /** One GDP cell: None when the guard fails, the parsed value when
      `float` accepts the text, and Err(text) when `float` raises (as on
      "1.2.3", which passes the guard). */
  function CellValue(row: map<string, string>, year: int, parseFloat: string -> Option<real>)
    : Result<Option<real>, string>
  {
    var value := CellText(row, year);
    if !LooksNumeric(value) then Ok(None)
    else match parseFloat(value)
      case Some(v) => Ok(Some(v))
      case None => Err(value)
  }

  /** A value is read only from a non-empty cell whose characters are all
      digits or '.', with at least one digit; so a negative number, a
      missing column or any other text is None and never an error. */
  lemma CellValueCases(row: map<string, string>, year: int, parseFloat: string -> Option<real>)
    ensures var v := CellText(row, year);
            CellValue(row, year, parseFloat) != Ok(None) ==>
              v != [] && (forall c :: c in v ==> IsDigitChar(c) || c == '.')
              && exists c :: c in v && IsDigitChar(c)
    ensures '-' in CellText(row, year) ==> CellValue(row, year, parseFloat) == Ok(None)
    ensures IntToString(year) !in row ==> CellValue(row, year, parseFloat) == Ok(None)
  {
    var v := CellText(row, year);
    var digits := RemoveChars(v, {'.'});
    if LooksNumeric(v) {
      forall c | c in v ensures IsDigitChar(c) || c == '.' {
        if c != '.' {
          RemoveCharsKeeps(v, {'.'}, c);
          var i :| 0 <= i < |digits| && digits[i] == c;
        }
      }
      assert digits[0] in v;
    }
    if '-' in v {
      RemoveCharsKeeps(v, {'.'}, '-');
      var i :| 0 <= i < |digits| && digits[i] == '-';
      assert !IsDigitChar(digits[i]);
    }
    if IntToString(year) !in row {
      assert Strip("") == "";
    }
  }

  /** Every cell of the years `from` .. `to` - 1 is read without error. */
  predicate CellsParse(row: map<string, string>, parseFloat: string -> Option<real>, from: int, to: int)
  {
    forall y :: from <= y < to ==> CellValue(row, y, parseFloat).Ok?
  }

  /** The GDP values of the years FirstYear .. `bound` - 1. */
  function GdpMap(row: map<string, string>, parseFloat: string -> Option<real>, bound: int)
    : (r: map<int, Option<real>>)
    requires CellsParse(row, parseFloat, FirstYear, bound)
    ensures forall y :: y in r <==> FirstYear <= y < bound
  {
    map y | FirstYear <= y < bound :: CellValue(row, y, parseFloat).value
  }

  /** Reading one more year extends the map by that year's cell. */
  lemma GdpMapStep(row: map<string, string>, parseFloat: string -> Option<real>, bound: int)
    requires FirstYear <= bound
    requires CellsParse(row, parseFloat, FirstYear, bound) && CellValue(row, bound, parseFloat).Ok?
    ensures CellsParse(row, parseFloat, FirstYear, bound + 1)
    ensures GdpMap(row, parseFloat, bound + 1)
            == GdpMap(row, parseFloat, bound)[bound := CellValue(row, bound, parseFloat).value]
  {
    var longer := GdpMap(row, parseFloat, bound + 1);
    var extended := GdpMap(row, parseFloat, bound)[bound := CellValue(row, bound, parseFloat).value];
    assert forall y :: y in longer <==> y in extended;
    assert forall y :: y in longer ==> longer[y] == extended[y];
  }

  /** The country a CSV row becomes, or None when the row has no "Country"
      column (a KeyError) or one of its cells makes `float` raise. */
  function CountryOf(row: map<string, string>, parseFloat: string -> Option<real>): Option<Country>
  {
    if "Country" !in row || !CellsParse(row, parseFloat, FirstYear, LastYear + 1) then None
    else Some(Country(row["Country"], GdpMap(row, parseFloat, LastYear + 1)))
  }

  /** A loaded country is named by its row, has an entry for exactly the
      years 1975 .. 2025, and holds a value only for a cell that passed the
      guard and was parsed by `float`. */
  lemma CountryOfProperties(row: map<string, string>, parseFloat: string -> Option<real>)
    ensures CountryOf(row, parseFloat).Some? <==>
              "Country" in row && CellsParse(row, parseFloat, FirstYear, LastYear + 1)
    ensures CountryOf(row, parseFloat).Some? ==>
              var c := CountryOf(row, parseFloat).value;
              c.name == row["Country"]
              && (forall y :: y in c.gdp <==> 1975 <= y <= 2025)
              && forall y :: y in c.gdp && c.gdp[y].Some? ==>
                   LooksNumeric(CellText(row, y)) && parseFloat(CellText(row, y)) == c.gdp[y]
  {
  }

  /** One row of `load_gdp_data`: the year loop filling the country's
      values. */
  method ParseRow(row: map<string, string>, parseFloat: string -> Option<real>)
    returns (country: Option<Country>)
    ensures country == CountryOf(row, parseFloat)
  {
    if "Country" !in row {
      return None;
    }
    var gdp: map<int, Option<real>> := map[];
    for year := FirstYear to LastYear + 1
      invariant CellsParse(row, parseFloat, FirstYear, year)
      invariant gdp == GdpMap(row, parseFloat, year)
    {
      var cell := CellValue(row, year, parseFloat);
      if cell.Err? {
        return None;
      }
      GdpMapStep(row, parseFloat, year);
      gdp := gdp[year := cell.value];
    }
    return Some(Country(row["Country"], gdp));
  }

  /** The number of rows before the first one that cannot be loaded. */
  function LoadableRows(rows: seq<map<string, string>>, parseFloat: string -> Option<real>): (n: nat)
    ensures n <= |rows|
    ensures forall i :: 0 <= i < n ==> CountryOf(rows[i], parseFloat).Some?
    ensures n < |rows| ==> CountryOf(rows[n], parseFloat).None?
  {
    if rows == [] || CountryOf(rows[0], parseFloat).None? then 0
    else 1 + LoadableRows(rows[1..], parseFloat)
  }

  /** The countries of rows that all load, in row order. */
  function Countries(rows: seq<map<string, string>>, parseFloat: string -> Option<real>): (r: seq<Country>)
    requires forall i :: 0 <= i < |rows| ==> CountryOf(rows[i], parseFloat).Some?
    ensures |r| == |rows|
  {
    seq(|rows|, i requires 0 <= i < |rows| => CountryOf(rows[i], parseFloat).value)
  }

  // ---------------------------------------------------------------------------
  // Country codes

  /** The name fragments the request knows, in the table's order. */
  const CountryCodes: seq<(string, string)> := [
    ("united states", "USA"), ("china", "CHN"), ("japan", "JPN"),
    ("germany", "DEU"), ("russia", "RUS"), ("france", "FRA"),
    ("united kingdom", "GBR"), ("india", "IND"), ("brazil", "BRA"),
    ("italy", "ITA"), ("canada", "CAN"), ("australia", "AUS"),
    ("korea", "KOR"), ("spain", "ESP"), ("mexico", "MEX"),
    ("greece", "GRC"), ("argentina", "ARG")]

  /** The table entry for `name` matches when its key occurs in the
      lowercased name. */
  function CodeMatcher(name: string): ((string, string)) -> bool
  {
    (entry: (string, string)) => IsSubstring(entry.0, Lower(name))
  }

  /** The code of the first table key occurring in the lowercased name. */
  function CodeFor(name: string): (r: Option<string>)
    ensures r.Some? <==> exists i :: 0 <= i < |CountryCodes| && IsSubstring(CountryCodes[i].0, Lower(name))
    ensures r.Some? ==>
      exists i :: 0 <= i < |CountryCodes| && IsSubstring(CountryCodes[i].0, Lower(name))
        && r.value == CountryCodes[i].1
        && forall j :: 0 <= j < i ==> !IsSubstring(CountryCodes[j].0, Lower(name))
  {
    match FirstIndex(CountryCodes, CodeMatcher(name))
    case None => None
    case Some(i) => Some(CountryCodes[i].1)
  }

  /** The indicator the score asks for: foreign direct investment. */
  const FdiIndicator: string := "BX.KLT.DINV.CD"

  /** `get_worldbank_data_safe` with the request as a parameter:
      `worldBank(code, indicator, year)` is the value the API reports, None
      for a failed request or a missing value. No code means no request,
      and a reported 0 counts as missing. */
  function WorldBankValue(name: string, indicator: string, year: int,
                          worldBank: (string, string, int) -> Option<real>): (r: Option<real>)
    ensures CodeFor(name).None? ==> r.None?
    ensures r.Some? ==> r.value != 0.0 && r == worldBank(CodeFor(name).value, indicator, year)
  {
    match CodeFor(name)
    case None => None
    case Some(code) =>
      var value := worldBank(code, indicator, year);
      if value == Some(0.0) then None else value
  }

  /** The lookup loop and the request of `get_worldbank_data_safe`. */
  method FetchWorldBankValue(name: string, indicator: string, year: int,
                             worldBank: (string, string, int) -> Option<real>)
    returns (r: Option<real>)
    ensures r == WorldBankValue(name, indicator, year, worldBank)
  {
    var found := FindFirst(CountryCodes, CodeMatcher(name));
    if found.None? {
      return None;
    }
    var value := worldBank(CountryCodes[found.value].1, indicator, year);
    r := if value == Some(0.0) then None else value;
  }

  // ---------------------------------------------------------------------------
  // The score of a period

  /** The GDP values of the years `start` .. `end` that are present, in year
      order. */
  function GdpValues(c: Country, start: int, end: int): (r: seq<real>)
    ensures |r| <= if end < start then 0 else end - start + 1
    decreases end - start
  {
    if end < start then []
    else
      GdpValues(c, start, end - 1)
      + (if end in c.gdp && c.gdp[end].Some? then [c.gdp[end].value] else [])
  }

  /** The growth rate between every two consecutive values that are both
      non-zero. */
  function GrowthRates(values: seq<real>): (r: seq<real>)
    ensures |r| <= if values == [] then 0 else |values| - 1
  {
    if |values| < 2 then []
    else
      var prev := values[|values| - 2];
      var last := values[|values| - 1];
      GrowthRates(values[..|values| - 1]) + (if prev != 0.0 && last != 0.0 then [(last - prev) / prev] else [])
  }

  /** With no zero value, every consecutive pair gives a rate. */
  lemma {:induction false} GrowthRatesOfNonZero(values: seq<real>)
    requires values != [] && forall i :: 0 <= i < |values| ==> values[i] != 0.0
    ensures |GrowthRates(values)| == |values| - 1
  {
    if |values| >= 2 {
      GrowthRatesOfNonZero(values[..|values| - 1]);
    }
  }

  /** The rate between two positive values is above -1. */
  lemma {:induction false} GrowthRatesOfPositive(values: seq<real>)
    requires forall i :: 0 <= i < |values| ==> values[i] > 0.0
    ensures forall i :: 0 <= i < |GrowthRates(values)| ==> GrowthRates(values)[i] > -1.0
  {
    if |values| >= 2 {
      GrowthRatesOfPositive(values[..|values| - 1]);
      var prev := values[|values| - 2];
      var last := values[|values| - 1];
      RateAboveMinusOne(prev, last);
    }
  }

  lemma RateAboveMinusOne(prev: real, last: real)
    requires prev > 0.0 && last > 0.0
    ensures (last - prev) / prev > -1.0
  {
    var q := (last - prev) / prev;
    assert q * prev == last - prev;
    assert (q + 1.0) * prev == last;
  }

  /** `sum(1 for rate in rates if rate < bound)`. */
  function CountBelow(rates: seq<real>, bound: real): (n: nat)
    ensures n <= |rates|
  {
    if rates == [] then 0
    else CountBelow(rates[..|rates| - 1], bound) + (if rates[|rates| - 1] < bound then 1 else 0)
  }

  /** The global crisis pressure of one year. */
  function CrisisFactor(year: int): (f: real)
    ensures 0.0 <= f <= 0.8
  {
    if 2008 <= year <= 2009 then 0.8
    else if 2020 <= year <= 2021 then 0.6
    else if year >= 2022 then 0.7
    else 0.0
  }

  /** The crisis factors of the years `start` .. `end` added up. */
  function CrisisSum(start: int, end: int): (s: real)
    ensures 0.0 <= s
    ensures end >= start ==> s <= 0.8 * (end - start + 1) as real
    ensures end < start ==> s == 0.0
    decreases end - start
  {
    if end < start then 0.0 else CrisisSum(start, end - 1) + CrisisFactor(end)
  }

  /** The mean crisis factor over the years of the period, 0 for an empty
      period. */
  function CrisisPressure(start: int, end: int): (p: real)
    ensures 0.0 <= p <= 0.8
  {
    if end < start then 0.0
    else
      var points := (end - start + 1) as real;
      MeanAtMost(CrisisSum(start, end), points, 0.8);
      CrisisSum(start, end) / points
  }

  lemma MeanAtMost(s: real, n: real, bound: real)
    requires n > 0.0 && 0.0 <= s <= bound * n
    ensures 0.0 <= s / n <= bound
  {
  }

  /** Only the crisis years count: 2005-2009 has two of five, and a period
      wholly before 2008 has none. */
  lemma CrisisPressureExamples()
    ensures CrisisPressure(2005, 2009) == 0.32
    ensures CrisisPressure(1985, 1993) == 0.0
  {
    assert CrisisSum(2005, 2007) == 0.0;
    assert CrisisSum(1985, 1993) == 0.0 by {
      ZeroBeforeCrises(1985, 1993);
    }
  }

  /** No year before 2008 carries crisis pressure. */
  lemma {:induction false} ZeroBeforeCrises(start: int, end: int)
    requires end < 2008
    ensures CrisisSum(start, end) == 0.0
    decreases end - start
  {
    if end >= start {
      ZeroBeforeCrises(start, end - 1);
    }
  }

  /** The FDI share of the last GDP value, clamped to [0, 1], or 0.3 when
      there is no FDI value or the last GDP value is not positive. */
  function FdiDependence(fdi: Option<real>, lastGdp: real): (d: real)
    ensures 0.0 <= d <= 1.0
    ensures fdi.None? || lastGdp <= 0.0 ==> d == 0.3
  {
    if fdi.Some? && fdi.value != 0.0 && lastGdp != 0.0 && lastGdp > 0.0 then
      Clamp(fdi.value / lastGdp, 0.0, 1.0)
    else 0.3
  }

  /** The details reported next to a score. */
  datatype Details = Details(volatility: real, declineFactor: real, meanGrowth: real,
                             fdiDependence: real, crisisPressure: real, dataPoints: nat)

  /** The outcome of `calculate_safe_O_E`: too little data, or the score. */
  datatype Score = Insufficient(reason: string) | Scored(oe: real, details: Details)

  const NotEnoughGdp: string := "Недостаточно данных ВВП"
  const NotEnoughGrowth: string := "Недостаточно данных по росту"

  /** The threshold below which a growth rate counts as a sharp decline. */
  const SharpDecline: real := -0.05

  /** The score from the growth rates and the global terms. */
  function ScoreFrom(rates: seq<real>, stdev: seq<real> -> real, fdi: real, crisis: real): (r: Score)
    requires |rates| >= 4 && 0.0 <= fdi <= 1.0 && 0.0 <= crisis <= 0.8
    ensures r.Scored? && 0.0 <= r.oe <= 100.0
    ensures 0.0 <= r.details.declineFactor <= 1.0
    ensures r.details.fdiDependence == fdi && r.details.crisisPressure == crisis
    ensures r.details.dataPoints == |rates|
  {
    var volatility := if |rates| > 1 then stdev(rates) else 0.0;
    var declines := CountBelow(rates, SharpDecline);
    RatioBounds(declines, |rates|);
    var decline := declines as real / |rates| as real;
    var mean := Sum(rates) / |rates| as real;
    var base := volatility * 20.0 + decline * 15.0 + Abs(mean) * 5.0;
    var global := fdi * 8.0 + crisis * 10.0;
    Scored(Clamp(base + global, 0.0, 100.0), Details(volatility, decline, mean, fdi, crisis, |rates|))
  }

  /** `calculate_safe_O_E` for a loaded country over the years `start` ..
      `end`. */
  function SafeOE(c: Country, start: int, end: int, stdev: seq<real> -> real,
                  worldBank: (string, string, int) -> Option<real>): (r: Score)
    ensures r.Insufficient? <==> |GdpValues(c, start, end)| < 5 || |GrowthRates(GdpValues(c, start, end))| < 4
    ensures r.Insufficient? ==>
              r.reason == if |GdpValues(c, start, end)| < 5 then NotEnoughGdp else NotEnoughGrowth
    ensures r.Scored? ==>
              0.0 <= r.oe <= 100.0
              && 0.0 <= r.details.declineFactor <= 1.0
              && 0.0 <= r.details.fdiDependence <= 1.0
              && 0.0 <= r.details.crisisPressure <= 0.8
              && r.details.dataPoints >= 4
    ensures r.Scored? && WorldBankValue(c.name, FdiIndicator, end, worldBank).None? ==>
              r.details.fdiDependence == 0.3
  {
    var values := GdpValues(c, start, end);
    if |values| < 5 then Insufficient(NotEnoughGdp)
    else
      var rates := GrowthRates(values);
      if |rates| < 4 then Insufficient(NotEnoughGrowth)
      else
        var fdi := WorldBankValue(c.name, FdiIndicator, end, worldBank);
        ScoreFrom(rates, stdev, FdiDependence(fdi, values[|values| - 1]), CrisisPressure(start, end))
  }

  /** The score depends on the period's GDP values and not on the other
      years of the table. */
  lemma SafeOEUsesPeriodOnly(c: Country, d: Country, start: int, end: int, stdev: seq<real> -> real,
                             worldBank: (string, string, int) -> Option<real>)
    requires c.name == d.name
    requires forall y :: start <= y <= end ==> (y in c.gdp <==> y in d.gdp)
    requires forall y :: start <= y <= end && y in c.gdp ==> c.gdp[y] == d.gdp[y]
    ensures SafeOE(c, start, end, stdev, worldBank) == SafeOE(d, start, end, stdev, worldBank)
  {
    SameGdpValues(c, d, start, end);
  }

  lemma {:induction false} SameGdpValues(c: Country, d: Country, start: int, end: int)
    requires forall y :: start <= y <= end ==> (y in c.gdp <==> y in d.gdp)
    requires forall y :: start <= y <= end && y in c.gdp ==> c.gdp[y] == d.gdp[y]
    ensures GdpValues(c, start, end) == GdpValues(d, start, end)
    decreases end - start
  {
    if end >= start {
      SameGdpValues(c, d, start, end - 1);
    }
  }

  /** The first loop of `calculate_safe_O_E`: the present GDP values of
      the period. */
  method CollectGdpValues(c: Country, start: int, end: int) returns (values: seq<real>)
    ensures values == GdpValues(c, start, end)
  {
    values := [];
    var year := start;
    while year <= end
      invariant start <= year && (year <= end + 1 || year == start)
      invariant values == GdpValues(c, start, year - 1)
      decreases end - year
    {
      if year in c.gdp && c.gdp[year].Some? {
        values := values + [c.gdp[year].value];
      }
      year := year + 1;
    }
  }

  /** The second loop: the growth rates of consecutive non-zero values. */
  method ComputeGrowthRates(values: seq<real>) returns (rates: seq<real>)
    ensures rates == GrowthRates(values)
  {
    rates := [];
    if values == [] {
      return;
    }
    for i := 1 to |values|
      invariant rates == GrowthRates(values[..i])
    {
      assert values[..i + 1][..i] == values[..i];
      if values[i - 1] != 0.0 && values[i] != 0.0 {
        rates := rates + [(values[i] - values[i - 1]) / values[i - 1]];
      }
    }
    assert values[..|values|] == values;
  }

  /** The third loop: the crisis factors of the period and their mean. */
  method ComputeCrisisPressure(start: int, end: int) returns (crisis: real)
    ensures crisis == CrisisPressure(start, end)
  {
    var pressure := 0.0;
    var points := 0;
    var year := start;
    while year <= end
      invariant start <= year && (year <= end + 1 || year == start)
      invariant pressure == CrisisSum(start, year - 1) && points == year - start
      decreases end - year
    {
      pressure := pressure + CrisisFactor(year);
      points := points + 1;
      year := year + 1;
    }
    crisis := if points > 0 then pressure / points as real else 0.0;
  }

  /** `calculate_safe_O_E`. */
  method CalculateSafeOE(c: Country, start: int, end: int, stdev: seq<real> -> real,
                         worldBank: (string, string, int) -> Option<real>)
    returns (r: Score)
    ensures r == SafeOE(c, start, end, stdev, worldBank)
  {
    var values := CollectGdpValues(c, start, end);
    if |values| < 5 {
      return Insufficient(NotEnoughGdp);
    }
    var rates := ComputeGrowthRates(values);
    if |rates| < 4 {
      return Insufficient(NotEnoughGrowth);
    }
    var fdi := FetchWorldBankValue(c.name, FdiIndicator, end, worldBank);
    var crisis := ComputeCrisisPressure(start, end);
    r := ScoreFrom(rates, stdev, FdiDependence(fdi, values[|values| - 1]), crisis);
  }

  // ---------------------------------------------------------------------------
  // The historical crisis cases

  /** A historical crisis case: a country name and a period. */
  datatype TestCase = TestCase(country: string, start: int, end: int, crisis: string)

  const TestCases: seq<TestCase> := [
    TestCase("United States", 2005, 2009, "Кризис 2008"),
    TestCase("Japan", 1985, 1993, "Пузырь 1990"),
    TestCase("Russia", 1990, 1998, "Кризис 1998"),
    TestCase("China", 2015, 2020, "Торговые войны"),
    TestCase("Argentina", 1998, 2002, "Дефолт 2001"),
    TestCase("Greece", 2005, 2012, "Долговой кризис")]

  datatype Prediction = Collapse | Crisis | Stable

  /** Above 25 the system is predicted to collapse, above 15 to be in
      crisis, and stable otherwise. */
  function PredictionOf(oe: real): Prediction
  {
    if oe > 25.0 then Collapse else if oe > 15.0 then Crisis else Stable
  }

  /** A case counts as correct when the model calls it a crisis. */
  predicate CalledCrisis(oe: real)
  {
    oe > 15.0
  }

  /** The three predictions split the score range at 15 and 25, and a case
      is counted correct exactly when the prediction is not "stable". */
  lemma PredictionBands(oe: real)
    ensures PredictionOf(oe) == Collapse <==> oe > 25.0
    ensures PredictionOf(oe) == Crisis <==> 15.0 < oe <= 25.0
    ensures PredictionOf(oe) == Stable <==> oe <= 15.0
    ensures CalledCrisis(oe) <==> PredictionOf(oe) != Stable
  {
  }

  /** A loaded country matches a case when the case's lowercased name
      occurs in the country's lowercased name. */
  function CountryMatcher(caseName: string): Country -> bool
  {
    (c: Country) => IsSubstring(Lower(caseName), Lower(c.name))
  }

  /** One scored case of the run. */
  datatype Outcome = Outcome(test: TestCase, oe: real, prediction: Prediction, correct: bool)

  /** The score of a case: its first matching country, scored over the
      case's period; None when no country matches or the data is
      insufficient. */
  function CaseScore(countries: seq<Country>, t: TestCase, stdev: seq<real> -> real,
                     worldBank: (string, string, int) -> Option<real>): Option<real>
  {
    match FirstIndex(countries, CountryMatcher(t.country))
    case None => None
    case Some(i) =>
      match SafeOE(countries[i], t.start, t.end, stdev, worldBank)
      case Insufficient(_) => None
      case Scored(oe, _) => Some(oe)
  }

  /** Every score a case gets lies in [0, 100]. */
  lemma CaseScoreBounds(countries: seq<Country>, t: TestCase, stdev: seq<real> -> real,
                        worldBank: (string, string, int) -> Option<real>)
    ensures var oe := CaseScore(countries, t, stdev, worldBank);
            oe.Some? ==> 0.0 <= oe.value <= 100.0
  {
  }

  /** The scores of the cases against the loaded countries. */
  function CaseScorer(countries: seq<Country>, stdev: seq<real> -> real,
                      worldBank: (string, string, int) -> Option<real>): TestCase -> Option<real>
  {
    (t: TestCase) => CaseScore(countries, t, stdev, worldBank)
  }

  /** `score` gives every case the score `run_historical_tests` computes. */
  ghost predicate Scores(score: TestCase -> Option<real>, countries: seq<Country>, stdev: seq<real> -> real,
                         worldBank: (string, string, int) -> Option<real>)
  {
    forall t {:trigger CaseScore(countries, t, stdev, worldBank)} ::
      score(t) == CaseScore(countries, t, stdev, worldBank)
  }

  /** The outcome of a case with score `oe`: nothing when it was not
      scored. */
  function CaseOutcome(t: TestCase, oe: Option<real>): (r: seq<Outcome>)
    ensures |r| <= 1
  {
    match oe
    case None => []
    case Some(v) => [Outcome(t, v, PredictionOf(v), CalledCrisis(v))]
  }

  /** The outcomes of the first `n` cases that were scored, in case order. */
  function Outcomes(cases: seq<TestCase>, n: nat, score: TestCase -> Option<real>): (r: seq<Outcome>)
    requires n <= |cases|
    ensures |r| <= n
  {
    if n == 0 then [] else Outcomes(cases, n - 1, score) + CaseOutcome(cases[n - 1], score(cases[n - 1]))
  }

  /** With scores in [0, 100], every outcome holds a score in [0, 100],
      the prediction of that score, and whether the model called the case a
      crisis. */
  lemma {:induction false} OutcomesProperties(cases: seq<TestCase>, n: nat, score: TestCase -> Option<real>)
    requires n <= |cases|
    requires forall t :: score(t).Some? ==> 0.0 <= score(t).value <= 100.0
    ensures forall o :: o in Outcomes(cases, n, score) ==>
              o.prediction == PredictionOf(o.oe) && o.correct == CalledCrisis(o.oe) && 0.0 <= o.oe <= 100.0
  {
    if n > 0 {
      OutcomesProperties(cases, n - 1, score);
      var t := cases[n - 1];
      assert Outcomes(cases, n, score) == Outcomes(cases, n - 1, score) + CaseOutcome(t, score(t));
    }
  }

  /** The search for a case's country and its score. */
  method ScoreCase(countries: seq<Country>, t: TestCase, stdev: seq<real> -> real,
                   worldBank: (string, string, int) -> Option<real>, ghost score: TestCase -> Option<real>)
    returns (oe: Option<real>)
    requires Scores(score, countries, stdev, worldBank)
    ensures oe == score(t)
  {
    var found := FindFirst(countries, CountryMatcher(t.country));
    oe := None;
    if found.Some? {
      var result := CalculateSafeOE(countries[found.value], t.start, t.end, stdev, worldBank);
      if result.Scored? {
        oe := Some(result.oe);
      }
    }
    assert oe == CaseScore(countries, t, stdev, worldBank);
  }

  /** The loop of `run_historical_tests` over the cases. */
  method RunCases(countries: seq<Country>, cases: seq<TestCase>, stdev: seq<real> -> real,
                  worldBank: (string, string, int) -> Option<real>, ghost score: TestCase -> Option<real>)
    returns (outcomes: seq<Outcome>, correct: nat, total: nat)
    requires Scores(score, countries, stdev, worldBank)
    ensures outcomes == Outcomes(cases, |cases|, score)
    ensures total == |outcomes| && correct == CountCorrect(outcomes)
  {
    outcomes := [];
    correct := 0;
    total := 0;
    for k := 0 to |cases|
      invariant outcomes == Outcomes(cases, k, score)
      invariant total == |outcomes| && correct == CountCorrect(outcomes)
    {
      var oe := ScoreCase(countries, cases[k], stdev, worldBank, score);
      if oe.Some? {
        var called := CalledCrisis(oe.value);
        var outcome := Outcome(cases[k], oe.value, PredictionOf(oe.value), called);
        CountCorrectSnoc(outcomes, outcome);
        outcomes := outcomes + [outcome];
        total := total + 1;
        if called {
          correct := correct + 1;
        }
      }
    }
  }

  function CountCorrect(outcomes: seq<Outcome>): (n: nat)
    ensures n <= |outcomes|
  {
    if outcomes == [] then 0
    else CountCorrect(outcomes[..|outcomes| - 1]) + (if outcomes[|outcomes| - 1].correct then 1 else 0)
  }

  lemma CountCorrectSnoc(outcomes: seq<Outcome>, o: Outcome)
    ensures CountCorrect(outcomes + [o]) == CountCorrect(outcomes) + if o.correct then 1 else 0
  {
    assert (outcomes + [o])[..|outcomes|] == outcomes;
  }

  /** The analyser: the countries loaded so far. */
  class EconomicAnalyzer {

    var countriesData: seq<Country>

    constructor()
      ensures countriesData == []
    {
      countriesData := [];
    }

    /** `load_gdp_data` over the rows of the CSV file: the rows are loaded
        in order until one fails, which ends the load with False and keeps
        the countries already added. */
    method LoadGdpData(rows: seq<map<string, string>>, parseFloat: string -> Option<real>)
      returns (ok: bool)
      modifies this
      ensures ok <==> LoadableRows(rows, parseFloat) == |rows|
      ensures countriesData
              == old(countriesData) + Countries(rows[..LoadableRows(rows, parseFloat)], parseFloat)
    {
      ghost var before := countriesData;
      for k := 0 to |rows|
        invariant forall i :: 0 <= i < k ==> CountryOf(rows[i], parseFloat).Some?
        invariant countriesData == before + Countries(rows[..k], parseFloat)
      {
        var country := ParseRow(rows[k], parseFloat);
        if country.None? {
          return false;
        }
        countriesData := countriesData + [country.value];
      }
      assert rows[..|rows|] == rows;
      return true;
    }

    /** `run_historical_tests`: each case's country is the first loaded
        one whose name contains the case's name; a case found and scored
        counts towards the total, and as correct when it is called a
        crisis. The accuracy in percent exists only when a case was
        scored. */
    method RunHistoricalTests(stdev: seq<real> -> real, worldBank: (string, string, int) -> Option<real>)
      returns (outcomes: seq<Outcome>, correct: nat, total: nat, accuracy: Option<real>)
      ensures outcomes == Outcomes(TestCases, |TestCases|, CaseScorer(countriesData, stdev, worldBank))
      ensures total == |outcomes| <= |TestCases| && correct == CountCorrect(outcomes) <= total
      ensures accuracy.Some? <==> total > 0
      ensures accuracy.Some? ==> 0.0 <= accuracy.value <= 100.0
    {
      outcomes, correct, total :=
        RunCases(countriesData, TestCases, stdev, worldBank, CaseScorer(countriesData, stdev, worldBank));
      accuracy := None;
      if total > 0 {
        RatioBounds(correct, total);
        accuracy := Some(correct as real / total as real * 100.0);
      }
    }
  }
}
