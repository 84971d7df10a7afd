/** The temporal film analyzer: a structural-complexity score O(E) for each
    Wikipedia film of 2005 to 2024, lowered by an IMDb quality bonus and a
    box-office bonus, and a per-year ranking of the 50 films with the lowest
    final score. Movies are value records; the dictionary writes of the
    source become updated records. */
module FilmAnalyzer {

  import opened Common
  import opened Sorting

  // ---------------------------------------------------------------------------
  // Records

  /** The verification status a movie receives from the IMDb filter. */
  datatype Status = WikiOnly | NoImdb | ImdbTop | ImdbGood | ImdbAverage | ImdbLow

  /** One Wikipedia film and the fields later stages add to it. */
  datatype Movie = Movie(title: string, year: int, origin: string, director: string,
                         cast: string, genre: string, plot: string, wikiPage: string,
                         imdbRating: Option<real>, imdbRank: Option<int>, gross: Option<real>,
                         status: Option<Status>, finalOE: Option<real>)

  /** One row of the Wikipedia plots table, with the columns the loader reads. */
  datatype WikiRow = WikiRow(title: string, releaseYear: string, origin: string, director: string,
                             cast: string, genre: string, plot: string, wikiPage: string)

  /** An IMDb top-list entry. */
  datatype ImdbInfo = ImdbInfo(rating: real, rank: int)

  const FirstYear: int := 2005
  const LastYear: int := 2024
  const TopCount: nat := 50

  // ---------------------------------------------------------------------------
  // Loading

  /** The release year as the loader reads it: `int(...)` of an all-digit
      cell, otherwise 0. */
  function ReleaseYear(cell: string): (y: nat)
    ensures !IsAllDigits(cell) ==> y == 0
  {
    if IsAllDigits(cell) then DigitsValue(cell) else 0
  }

  function MovieOf(row: WikiRow): Movie
  {
    Movie(row.title, ReleaseYear(row.releaseYear), row.origin, row.director, row.cast, row.genre,
          row.plot, row.wikiPage, None, None, None, None, None)
  }

  predicate InRange(year: int)
  {
    FirstYear <= year <= LastYear
  }

  /** The films the Wikipedia loader keeps from `rows`, in order. */
  function WikiKept(rows: seq<WikiRow>): seq<Movie>
  {
    if rows == [] then []
    else
      var m := MovieOf(rows[|rows| - 1]);
      WikiKept(rows[..|rows| - 1]) + (if InRange(m.year) then [m] else [])
  }

  /** A kept film is exactly a row whose year parses into 2005..2024. */
  lemma {:induction false} WikiKeptMembers(rows: seq<WikiRow>)
    ensures forall m :: m in WikiKept(rows) <==>
      exists i :: 0 <= i < |rows| && m == MovieOf(rows[i]) && InRange(m.year)
    ensures forall m :: m in WikiKept(rows) ==> InRange(m.year)
  {
    if rows != [] {
      var init, r := rows[..|rows| - 1], rows[|rows| - 1];
      assert rows == init + [r];
      WikiKeptMembers(init);
      WikiKeptSnoc(init, r);
      forall m ensures m in WikiKept(rows) <==>
        exists i :: 0 <= i < |rows| && m == MovieOf(rows[i]) && InRange(m.year)
      {
        if m in WikiKept(init) {
          var i :| 0 <= i < |init| && m == MovieOf(init[i]) && InRange(m.year);
          assert rows[i] == init[i];
        }
        if exists i :: 0 <= i < |rows| && m == MovieOf(rows[i]) && InRange(m.year) {
          var i :| 0 <= i < |rows| && m == MovieOf(rows[i]) && InRange(m.year);
          if i < |init| {
            assert rows[i] == init[i];
          }
        }
      }
    }
  }

  /** One more row adds its film exactly when the year is in range. */
  lemma WikiKeptSnoc(init: seq<WikiRow>, r: WikiRow)
    ensures forall m :: m in WikiKept(init + [r]) <==>
      m in WikiKept(init) || (m == MovieOf(r) && InRange(m.year))
  {
    assert (init + [r])[..|init|] == init;
  }


  /** `load_wikipedia_data` over already-read rows. */
  method LoadWikipediaData(rows: seq<WikiRow>) returns (movies: seq<Movie>)
    ensures movies == WikiKept(rows)
  {
    movies := [];
    for i := 0 to |rows|
      invariant movies == WikiKept(rows[..i])
    {
      assert rows[..i + 1][..i] == rows[..i];
      var year := ReleaseYear(rows[i].releaseYear);
      if FirstYear <= year <= LastYear {
        movies := movies + [MovieOf(rows[i])];
      }
    }
    assert rows[..|rows|] == rows;
  }

  // ---------------------------------------------------------------------------
  // Movie keys and gross parsing

  /** A character `\w` or `\s` matches (ASCII). */
  predicate IsWordOrSpace(c: char)
  {
    ('a' <= c <= 'z') || ('A' <= c <= 'Z') || IsDigitChar(c) || c == '_' || IsSpace(c)
  }

  /** `re.sub(r'[^\w\s]', '', s)`. */
  function KeepWordOrSpace(s: string): (r: string)
    ensures |r| <= |s|
    ensures forall i :: 0 <= i < |r| ==> IsWordOrSpace(r[i])
  {
    if s == [] then []
    else KeepWordOrSpace(s[..|s| - 1]) + (if IsWordOrSpace(s[|s| - 1]) then [s[|s| - 1]] else [])
  }

  /** The year part of a key: `int(year)` printed back, or 0. */
  function YearPart(year: string): string
  {
    if IsAllDigits(year) then NatToString(DigitsValue(year)) else "0"
  }

  /** `create_movie_key`: the lower-cased, stripped title without punctuation,
      an underscore, and the year. */
  function MovieKey(title: string, year: string): string
  {
    KeepWordOrSpace(Strip(Lower(title))) + "_" + YearPart(year)
  }

  /** The year part of a key is a decimal number with the value of the year
      cell (leading zeros dropped), or "0" for a cell that is not a number. */
  lemma YearPartValue(year: string)
    ensures IsAllDigits(YearPart(year))
    ensures DigitsValue(YearPart(year)) == ReleaseYear(year)
  {
    NatToStringRoundTrip(ReleaseYear(year));
  }

  /** A stored film, whose year the key builder prints with `str`, gets
      the key of its title and that very year. */
  lemma MovieKeyOfYear(title: string, year: nat)
    ensures MovieKey(title, IntToString(year)) == KeepWordOrSpace(Strip(Lower(title))) + "_" + NatToString(year)
  {
    NatToStringRoundTrip(year);
  }

  const MoneyChars: set<char> := {'$', ','}

  /** `parse_gross`: 0 for an empty or "Unknown" cell or an unparseable one,
      otherwise `float` of the cell with every '$' and ',' removed. */
  function ParseGross(s: string, parseFloat: string -> Option<real>): (g: real)
    ensures s == "" || s == "Unknown" ==> g == 0.0
  {
    if s == "" || s == "Unknown" then 0.0
    else
      match parseFloat(RemoveChars(s, MoneyChars))
      case Some(v) => v
      case None => 0.0
  }

  /** Removing characters from a text that holds none of them changes
      nothing. */
  lemma {:induction false} RemoveCharsAbsent(s: string, drop: set<char>)
    requires forall i :: 0 <= i < |s| ==> s[i] !in drop
    ensures RemoveChars(s, drop) == s
  {
    if |s| > 0 {
      RemoveCharsAbsent(s[1..], drop);
      assert [s[0]] + s[1..] == s;
    }
  }

  /** Currency formatting does not matter: a cell parses to the same
      amount as the same cell with its '$' and ',' already removed. */
  lemma ParseGrossIgnoresFormatting(s: string, parseFloat: string -> Option<real>)
    requires s != "" && s != "Unknown"
    requires RemoveChars(s, MoneyChars) != "" && RemoveChars(s, MoneyChars) != "Unknown"
    ensures ParseGross(s, parseFloat) == ParseGross(RemoveChars(s, MoneyChars), parseFloat)
  {
    RemoveCharsAbsent(RemoveChars(s, MoneyChars), MoneyChars);
  }

  // ---------------------------------------------------------------------------
  // The Wikipedia score

  /** Plot complexity by length: 0.2 for no plot, then 0.02, 0.05, 0.10 or
      0.15 above 500, 1000 and 1500 characters. */
  function PlotComplexity(plot: string): (r: real)
    ensures plot == "" ==> r == 0.2
    ensures plot != "" ==> r == 0.02 || r == 0.05 || r == 0.10 || r == 0.15
  {
    if plot == "" then 0.2
    else if |plot| > 1500 then 0.15
    else if |plot| > 1000 then 0.10
    else if |plot| > 500 then 0.05
    else 0.02
  }

  /** A longer (non-empty) plot never scores lower. */
  lemma PlotComplexityMonotone(p: string, q: string)
    requires p != "" && |p| <= |q|
    ensures PlotComplexity(p) <= PlotComplexity(q)
  {
  }

  const CulturalWeights: map<string, real> := map[
    "American" := 0.0, "British" := 0.03, "Canadian" := 0.02, "Australian" := 0.02,
    "Japanese" := 0.08, "South Korean" := 0.09, "Chinese" := 0.10, "Indian" := 0.12,
    "French" := 0.06, "German" := 0.05, "Italian" := 0.04, "Spanish" := 0.05, "Russian" := 0.11]

  /** Cultural complexity: the origin's weight, 0.08 for an unlisted one. */
  function CulturalComplexity(origin: string): (r: real)
    ensures 0.0 <= r <= 0.12
    ensures origin !in CulturalWeights ==> r == 0.08
  {
    if origin in CulturalWeights then CulturalWeights[origin] else 0.08
  }

  /** `s.split(sep)`: the pieces between separators, at least one. */
  function Split(s: string, sep: char): (ps: seq<string>)
    ensures |ps| >= 1
  {
    if s == [] then [""]
    else
      var ps := Split(s[..|s| - 1], sep);
      if s[|s| - 1] == sep then ps + [""]
      else ps[..|ps| - 1] + [ps[|ps| - 1] + [s[|s| - 1]]]
  }

  /** The number of pieces that are not blank after `strip()`. */
  function NonBlankCount(ps: seq<string>): (k: nat)
    ensures k <= |ps|
  {
    if ps == [] then 0
    else NonBlankCount(ps[..|ps| - 1]) + (if Strip(ps[|ps| - 1]) != "" then 1 else 0)
  }

  predicate SpaceOrSep(c: char, sep: char)
  {
    c == sep || IsSpace(c)
  }

  /** A piece holding nothing but whitespace. */
  predicate Blank(p: string)
  {
    forall i :: 0 <= i < |p| ==> IsSpace(p[i])
  }

  predicate AllBlank(ps: seq<string>)
  {
    forall j :: 0 <= j < |ps| ==> Blank(ps[j])
  }

  lemma {:induction false} NonBlankCountZero(ps: seq<string>)
    ensures NonBlankCount(ps) == 0 <==> AllBlank(ps)
  {
    if ps != [] {
      var init := ps[..|ps| - 1];
      NonBlankCountZero(init);
      StripEmptyIffBlank(ps[|ps| - 1]);
      assert forall j :: 0 <= j < |init| ==> ps[j] == init[j];
    }
  }

  lemma BlankSnoc(p: string, c: char)
    ensures Blank(p + [c]) <==> Blank(p) && IsSpace(c)
  {
    assert (p + [c])[|p|] == c;
    assert forall i :: 0 <= i < |p| ==> (p + [c])[i] == p[i];
  }

  lemma AllBlankSnoc(ps: seq<string>, p: string)
    ensures AllBlank(ps + [p]) <==> AllBlank(ps) && Blank(p)
  {
    assert (ps + [p])[|ps|] == p;
    assert forall j :: 0 <= j < |ps| ==> (ps + [p])[j] == ps[j];
  }

  /** Every piece of a split is blank exactly when the text holds nothing but
      separators and whitespace. */
  lemma {:induction false} SplitAllBlank(s: string, sep: char)
    ensures AllBlank(Split(s, sep)) <==> forall i :: 0 <= i < |s| ==> SpaceOrSep(s[i], sep)
  {
    if s != [] {
      var init := s[..|s| - 1];
      var c := s[|s| - 1];
      SplitAllBlank(init, sep);
      var ps := Split(init, sep);
      OnlySpaceOrSepSnoc(init, c, sep);
      assert s == init + [c];
      if c == sep {
        assert Split(s, sep) == ps + [""];
        AllBlankSnoc(ps, "");
      } else {
        var front := ps[..|ps| - 1];
        var last := ps[|ps| - 1];
        assert ps == front + [last];
        assert Split(s, sep) == front + [last + [c]];
        AllBlankSnoc(front, last);
        AllBlankSnoc(front, last + [c]);
        BlankSnoc(last, c);
      }
    }
  }

  lemma OnlySpaceOrSepSnoc(s: string, c: char, sep: char)
    ensures (forall i :: 0 <= i < |s + [c]| ==> SpaceOrSep((s + [c])[i], sep))
            <==> (forall i :: 0 <= i < |s| ==> SpaceOrSep(s[i], sep)) && SpaceOrSep(c, sep)
  {
    assert (s + [c])[|s|] == c;
    assert forall i :: 0 <= i < |s| ==> (s + [c])[i] == s[i];
  }

  /** Cast complexity: 0.1 for a missing cast, otherwise 0.02 per named actor
      capped at 0.15; it is 0 exactly when the field lists no name. */
  function CastComplexity(cast: string): (r: real)
    ensures 0.0 <= r <= 0.15
    ensures cast == "" || cast == "Unknown" ==> r == 0.1
    ensures cast != "" && cast != "Unknown" ==>
      (r == 0.0 <==> forall i :: 0 <= i < |cast| ==> SpaceOrSep(cast[i], ','))
  {
    if cast == "" || cast == "Unknown" then 0.1
    else
      var k := NonBlankCount(Split(cast, ','));
      NonBlankCountZero(Split(cast, ','));
      SplitAllBlank(cast, ',');
      MinR(k as real * 0.02, 0.15)
  }

  /** Genre complexity: 0.1 for a missing genre, otherwise 0.03 per named
      genre capped at 0.12; it is 0 exactly when the field lists no name. */
  function GenreComplexity(genre: string): (r: real)
    ensures 0.0 <= r <= 0.12
    ensures genre == "" || genre == "Unknown" ==> r == 0.1
    ensures genre != "" && genre != "Unknown" ==>
      (r == 0.0 <==> forall i :: 0 <= i < |genre| ==> SpaceOrSep(genre[i], ','))
  {
    if genre == "" || genre == "Unknown" then 0.1
    else
      var k := NonBlankCount(Split(genre, ','));
      NonBlankCountZero(Split(genre, ','));
      SplitAllBlank(genre, ',');
      MinR(k as real * 0.03, 0.12)
  }

  /** `calculate_wikipedia_O_E`: the four complexities added, between 0.02
      and 0.59. */
  function WikipediaOE(m: Movie): (r: real)
    ensures 0.02 <= r <= 0.59
  {
    PlotComplexity(m.plot) + CulturalComplexity(m.origin) + CastComplexity(m.cast) + GenreComplexity(m.genre)
  }

  // ---------------------------------------------------------------------------
  // IMDb and box-office adjustments

  function ImdbBonus(rating: real): (b: real)
    ensures -0.3 <= b <= 0.0
  {
    if rating >= 8.0 then -0.3 else if rating >= 7.0 then -0.15 else if rating >= 6.0 then -0.05 else 0.0
  }

  function ImdbStatus(rating: real): (s: Status)
    ensures s != WikiOnly && s != NoImdb
    ensures s == ImdbLow <==> ImdbBonus(rating) == 0.0
  {
    if rating >= 8.0 then ImdbTop else if rating >= 7.0 then ImdbGood else if rating >= 6.0 then ImdbAverage else ImdbLow
  }

  /** A better rating never earns a smaller reduction. */
  lemma ImdbBonusMonotone(r1: real, r2: real)
    requires r1 <= r2
    ensures ImdbBonus(r2) <= ImdbBonus(r1)
  {
  }

  function KeyOf(m: Movie): string
  {
    MovieKey(m.title, IntToString(m.year))
  }

  /** `apply_imdb_filter`: the bonus and the updated movie. A film found in
      the IMDb table gets its rating, rank and a rating status; any other
      film is marked NO_IMDB and earns nothing. The status is never left
      WIKI_ONLY and no other field changes. */
  function ApplyImdbFilter(m: Movie, imdb: map<string, ImdbInfo>): (r: (real, Movie))
    ensures r.1.status.Some? && r.1.status.value != WikiOnly
    ensures r.1.(imdbRating := m.imdbRating, imdbRank := m.imdbRank, status := m.status) == m
    ensures KeyOf(m) in imdb ==>
      var info := imdb[KeyOf(m)];
      && r.1.imdbRating == Some(info.rating) && r.1.imdbRank == Some(info.rank)
      && r.0 == ImdbBonus(info.rating) && r.1.status == Some(ImdbStatus(info.rating))
    ensures KeyOf(m) !in imdb ==>
      r.0 == 0.0 && r.1 == m.(status := Some(NoImdb))
  {
    var key := KeyOf(m);
    if key in imdb then
      var info := imdb[key];
      (ImdbBonus(info.rating),
       m.(imdbRating := Some(info.rating), imdbRank := Some(info.rank), status := Some(ImdbStatus(info.rating))))
    else
      (0.0, m.(status := Some(NoImdb)))
  }

  function BoxOfficeBonus(gross: real): (b: real)
    ensures -0.08 <= b <= 0.0
  {
    if gross > 100000000.0 then -0.08 else if gross > 10000000.0 then -0.04 else 0.0
  }

  /** A larger gross never earns a smaller reduction. */
  lemma BoxOfficeBonusMonotone(g1: real, g2: real)
    requires g1 <= g2
    ensures BoxOfficeBonus(g2) <= BoxOfficeBonus(g1)
  {
  }

  /** `apply_box_office_data`: the bonus and the updated movie; the gross is
      recorded only for a film found in the table, and nothing else
      changes. */
  function ApplyBoxOfficeData(m: Movie, box: map<string, real>): (r: (real, Movie))
    ensures r.1.(gross := m.gross) == m
    ensures KeyOf(m) in box ==> r.1.gross == Some(box[KeyOf(m)]) && r.0 == BoxOfficeBonus(box[KeyOf(m)])
    ensures KeyOf(m) !in box ==> r == (0.0, m)
  {
    var key := KeyOf(m);
    if key in box then (BoxOfficeBonus(box[key]), m.(gross := Some(box[key])))
    else (0.0, m)
  }

  /** One film after scoring: base score plus both bonuses as its final
      O(E), which lies between -0.36 and 0.59; title and year are kept. */
  function Scored(m: Movie, imdb: map<string, ImdbInfo>, box: map<string, real>): (r: Movie)
    ensures r.title == m.title && r.year == m.year
    ensures r.finalOE.Some? && -0.36 <= r.finalOE.value <= 0.59
  {
    var base := WikipediaOE(m);
    var (imdbBonus, m1) := ApplyImdbFilter(m, imdb);
    var (boxBonus, m2) := ApplyBoxOfficeData(m1, box);
    m2.(finalOE := Some(base + imdbBonus + boxBonus))
  }

  /** The scoring of `generate_temporal_top50_per_year` against the loaded
      IMDb and box-office tables, as a function value. */
  function Scorer(imdb: map<string, ImdbInfo>, box: map<string, real>): (f: Movie -> Movie)
    ensures forall m :: f(m) == Scored(m, imdb, box)
  {
    m => Scored(m, imdb, box)
  }

  /** Every film of a list passed through `score`, in order. */
  function ScoreAll(ms: seq<Movie>, score: Movie -> Movie): seq<Movie>
  {
    if ms == [] then [] else ScoreAll(ms[..|ms| - 1], score) + [score(ms[|ms| - 1])]
  }

  /** The scored list has one film per input film, at the same place. */
  lemma {:induction false} ScoreAllAt(ms: seq<Movie>, score: Movie -> Movie)
    ensures |ScoreAll(ms, score)| == |ms|
    ensures forall i :: 0 <= i < |ms| ==> ScoreAll(ms, score)[i] == score(ms[i])
  {
    if ms != [] {
      ScoreAllAt(ms[..|ms| - 1], score);
    }
  }

  // ---------------------------------------------------------------------------
  // Sorting by final score

  /** The sort key `final_O_E`. */
  function Key(m: Movie): real
  {
    match m.finalOE
    case Some(v) => v
    case None => 0.0
  }

  /** The 50 lowest-scored films of a list, in ascending order. */
  function Top(s: seq<Movie>): seq<Movie>
  {
    var sorted := SortBy(s, Key);
    sorted[..MinN(TopCount, |sorted|)]
  }

  /** The ranking of a list keeps 50 of its films, or all of them when
      there are fewer. */
  lemma TopLength(s: seq<Movie>)
    ensures |Top(s)| == MinN(TopCount, |s|)
  {
    SortByProperties(s, Key);
  }

  /** The ranking is in ascending order of final score. */
  lemma TopSorted(s: seq<Movie>)
    ensures SortedBy(Top(s), Key)
  {
    SortByProperties(s, Key);
    var sorted := SortBy(s, Key);
    var n := MinN(TopCount, |sorted|);
    forall i, j | 0 <= i < j < n ensures Key(sorted[..n][i]) <= Key(sorted[..n][j]) {
      assert sorted[..n][i] == sorted[i] && sorted[..n][j] == sorted[j];
    }
  }

  /** The ranking holds only films of the list, each at most as often as
      the list does. */
  lemma TopSubset(s: seq<Movie>)
    ensures multiset(Top(s)) <= multiset(s)
  {
    SortByProperties(s, Key);
    var sorted := SortBy(s, Key);
    var n := MinN(TopCount, |sorted|);
    assert sorted == sorted[..n] + sorted[n..];
    assert multiset(sorted) == multiset(sorted[..n]) + multiset(sorted[n..]);
  }

  /** No film left out of the ranking scores lower than a film in it. */
  lemma TopLowest(s: seq<Movie>)
    ensures forall a, b :: a in Top(s) && b in multiset(s) - multiset(Top(s)) ==> Key(a) <= Key(b)
  {
    SortByProperties(s, Key);
    var sorted := SortBy(s, Key);
    var n := MinN(TopCount, |sorted|);
    assert sorted == sorted[..n] + sorted[n..];
    assert multiset(sorted) == multiset(sorted[..n]) + multiset(sorted[n..]);
    forall a, b | a in Top(s) && b in multiset(s) - multiset(Top(s)) ensures Key(a) <= Key(b) {
      assert b in multiset(sorted[n..]);
      var i :| 0 <= i < n && sorted[i] == a;
      var j :| 0 <= j < |sorted[n..]| && sorted[n..][j] == b;
      assert sorted[n + j] == b;
    }
  }

  // ---------------------------------------------------------------------------
  // Grouping by year

  /** The films of one year, in list order. */
  function MoviesOfYear(ms: seq<Movie>, year: int): seq<Movie>
  {
    if ms == [] then []
    else MoviesOfYear(ms[..|ms| - 1], year) + (if ms[|ms| - 1].year == year then [ms[|ms| - 1]] else [])
  }

  /** A film is among a year's films exactly when it is in the list with
      that year. */
  lemma {:induction false} MoviesOfYearMembers(ms: seq<Movie>, year: int)
    ensures forall m :: m in MoviesOfYear(ms, year) <==> m in ms && m.year == year
  {
    if ms != [] {
      var init := ms[..|ms| - 1];
      MoviesOfYearMembers(init, year);
      assert ms == init + [ms[|ms| - 1]];
    }
  }

  /** Extending the list by one film extends only that film's year. */
  lemma MoviesOfYearSnoc(ms: seq<Movie>, i: nat, year: int)
    requires i < |ms|
    ensures MoviesOfYear(ms[..i + 1], year) ==
      MoviesOfYear(ms[..i], year) + (if ms[i].year == year then [ms[i]] else [])
  {
    assert ms[..i + 1][..i] == ms[..i];
  }

  /** The ranking `generate_temporal_top50_per_year` stores for one year,
      with `score` the scoring of one film. */
  function YearRanking(ms: seq<Movie>, year: int, score: Movie -> Movie): seq<Movie>
  {
    Top(ScoreAll(MoviesOfYear(ms, year), score))
  }

  /** A year's ranking holds at most 50 films, ascending by final score. */
  lemma YearRankingShape(ms: seq<Movie>, year: int, score: Movie -> Movie)
    ensures |YearRanking(ms, year, score)| <= TopCount
    ensures SortedBy(YearRanking(ms, year, score), Key)
  {
    var scored := ScoreAll(MoviesOfYear(ms, year), score);
    TopLength(scored);
    TopSorted(scored);
  }

  /** Every film of a year's ranking is the scoring of a film of the list
      from that year. */
  lemma YearRankingFrom(ms: seq<Movie>, year: int, score: Movie -> Movie)
    ensures forall m :: m in YearRanking(ms, year, score) ==>
      exists k :: 0 <= k < |ms| && ms[k].year == year && m == score(ms[k])
  {
    var ys := MoviesOfYear(ms, year);
    var scored := ScoreAll(ys, score);
    TopSubset(scored);
    ScoreAllAt(ys, score);
    MoviesOfYearMembers(ms, year);
    forall m | m in YearRanking(ms, year, score)
      ensures exists k :: 0 <= k < |ms| && ms[k].year == year && m == score(ms[k])
    {
      assert m in multiset(scored);
      var i :| 0 <= i < |scored| && scored[i] == m;
      assert ys[i] in ys;
      var k :| 0 <= k < |ms| && ms[k] == ys[i];
    }
  }

  /** Every film of a year's ranking is a film of that year from the list,
      scored against the IMDb and box-office tables. */
  lemma YearRankingMembers(ms: seq<Movie>, year: int, imdb: map<string, ImdbInfo>, box: map<string, real>)
    ensures forall m :: m in YearRanking(ms, year, Scorer(imdb, box)) ==>
      m.year == year && m.finalOE.Some? && exists k :: 0 <= k < |ms| && m == Scored(ms[k], imdb, box)
  {
    YearRankingFrom(ms, year, Scorer(imdb, box));
  }

  /** The grouping loop of `generate_temporal_top50_per_year`: a year is a
      key exactly when some film has it, and maps to that year's films in
      list order. */
  method GroupByYear(ms: seq<Movie>) returns (byYear: map<int, seq<Movie>>)
    ensures forall y :: y in byYear <==> MoviesOfYear(ms, y) != []
    ensures forall y :: y in byYear ==> byYear[y] == MoviesOfYear(ms, y)
  {
    byYear := map[];
    for i := 0 to |ms|
      invariant forall y :: y in byYear <==> MoviesOfYear(ms[..i], y) != []
      invariant forall y :: y in byYear ==> byYear[y] == MoviesOfYear(ms[..i], y)
    {
      var m := ms[i];
      forall y ensures MoviesOfYear(ms[..i + 1], y) == MoviesOfYear(ms[..i], y) + (if m.year == y then [m] else []) {
        MoviesOfYearSnoc(ms, i, y);
      }
      if m.year !in byYear {
        byYear := byYear[m.year := []];
      }
      byYear := byYear[m.year := byYear[m.year] + [m]];
    }
    assert ms[..|ms|] == ms;
  }

  /** The scoring loop of `generate_temporal_top50_per_year` for one year. */
  method ScoreMovies(ms: seq<Movie>, score: Movie -> Movie) returns (scored: seq<Movie>)
    ensures scored == ScoreAll(ms, score)
  {
    scored := [];
    for k := 0 to |ms|
      invariant scored == ScoreAll(ms[..k], score)
    {
      assert ms[..k + 1][..k] == ms[..k];
      scored := scored + [score(ms[k])];
    }
    assert ms[..|ms|] == ms;
  }

  /** The year loop of `generate_temporal_top50_per_year`: from 2024 down to
      2005, every year with films gets the 50 lowest-scored of them; every
      other entry of `ranking0` is kept. */
  method RankYears(byYear: map<int, seq<Movie>>, score: Movie -> Movie, ranking0: map<int, seq<Movie>>)
    returns (ranking: map<int, seq<Movie>>)
    ensures forall y :: y in ranking <==> y in ranking0 || (InRange(y) && y in byYear)
    ensures forall y :: InRange(y) && y in byYear ==> ranking[y] == Top(ScoreAll(byYear[y], score))
    ensures forall y :: y in ranking0 && !(InRange(y) && y in byYear) ==> ranking[y] == ranking0[y]
  {
    ranking := ranking0;
    var year := LastYear;
    while year >= FirstYear
      invariant FirstYear - 1 <= year <= LastYear
      invariant RankedAbove(ranking, ranking0, byYear, score, year)
    {
      if year in byYear {
        var scored := ScoreMovies(byYear[year], score);
        RankStep(ranking, ranking0, byYear, score, year, scored);
        ranking := ranking[year := Top(scored)];
      }
      year := year - 1;
    }
  }

  /** The state of the year loop once every year above `year` is done:
      exactly those years with movies have been ranked, and the rest of the
      old ranking is untouched. */
  ghost predicate RankedAbove(ranking: map<int, seq<Movie>>, ranking0: map<int, seq<Movie>>,
                              byYear: map<int, seq<Movie>>, score: Movie -> Movie, year: int)
  {
    && (forall y :: y in ranking <==> y in ranking0 || (year < y <= LastYear && y in byYear))
    && (forall y :: year < y <= LastYear && y in byYear ==> ranking[y] == Top(ScoreAll(byYear[y], score)))
    && (forall y :: y in ranking0 && !(year < y <= LastYear && y in byYear) ==> ranking[y] == ranking0[y])
  }

  /** Ranking one more year (or skipping it when it has no movies) moves the
      loop state down by one year. */
  lemma RankStep(ranking: map<int, seq<Movie>>, ranking0: map<int, seq<Movie>>,
                 byYear: map<int, seq<Movie>>, score: Movie -> Movie, year: int, scored: seq<Movie>)
    requires RankedAbove(ranking, ranking0, byYear, score, year) && year <= LastYear
    requires year in byYear && scored == ScoreAll(byYear[year], score)
    ensures RankedAbove(ranking[year := Top(scored)], ranking0, byYear, score, year - 1)
  {
  }

  /** The loaded list after `generate_temporal_top50_per_year`: the scoring
      writes into the very movie dicts the list holds, so every film of a
      year from 2005 to 2024 is replaced by its scored version in place,
      and films of other years are left as they were. */
  function ScoredInPlace(ms: seq<Movie>, score: Movie -> Movie): (r: seq<Movie>)
    ensures |r| == |ms|
    ensures forall k :: 0 <= k < |ms| && !InRange(ms[k].year) ==> r[k] == ms[k]
    ensures forall k :: 0 <= k < |ms| && InRange(ms[k].year) ==> r[k] == score(ms[k])
  {
    seq(|ms|, i requires 0 <= i < |ms| => if InRange(ms[i].year) then score(ms[i]) else ms[i])
  }

  /** The rankings alias the loaded list: every film ranked for a year from
      2005 to 2024 is, as it stands, an element of the loaded list after the
      write-back, at the position of the film it was scored from. */
  lemma RankedAreStored(ms: seq<Movie>, year: int, score: Movie -> Movie)
    requires InRange(year)
    ensures forall m :: m in YearRanking(ms, year, score) ==>
      exists k :: 0 <= k < |ms| && ms[k].year == year && ScoredInPlace(ms, score)[k] == m
  {
    YearRankingFrom(ms, year, score);
  }

  // ---------------------------------------------------------------------------
  // The analyzer

  class TemporalMolAnalyzer {
    var wikipediaMovies: seq<Movie>
    var imdbMovies: map<string, ImdbInfo>
    var boxOfficeMovies: map<string, real>
    var finalTemporalRanking: map<int, seq<Movie>>

    constructor()
      ensures wikipediaMovies == [] && imdbMovies == map[] && boxOfficeMovies == map[]
      ensures finalTemporalRanking == map[]
    {
      wikipediaMovies := [];
      imdbMovies := map[];
      boxOfficeMovies := map[];
      finalTemporalRanking := map[];
    }

    /** `load_all_datasets`: the Wikipedia rows go through the year filter;
        the IMDb and box-office tables arrive already keyed. */
    method LoadAllDatasets(rows: seq<WikiRow>, imdb: map<string, ImdbInfo>, box: map<string, real>)
      modifies this
      ensures wikipediaMovies == WikiKept(rows) && imdbMovies == imdb && boxOfficeMovies == box
      ensures finalTemporalRanking == old(finalTemporalRanking)
    {
      wikipediaMovies := LoadWikipediaData(rows);
      imdbMovies := imdb;
      boxOfficeMovies := box;
    }

    /** `generate_temporal_top50_per_year`: group the films by year, then for
        each year from 2024 down to 2005 that has films, score them, sort
        them and store the 50 lowest. Other entries are kept. */
    method GenerateTemporalTop50PerYear()
      modifies this
      ensures imdbMovies == old(imdbMovies) && boxOfficeMovies == old(boxOfficeMovies)
      ensures wikipediaMovies == ScoredInPlace(old(wikipediaMovies), Scorer(imdbMovies, boxOfficeMovies))
      ensures forall y :: y in finalTemporalRanking <==>
        y in old(finalTemporalRanking) || (InRange(y) && MoviesOfYear(old(wikipediaMovies), y) != [])
      ensures forall y :: InRange(y) && MoviesOfYear(old(wikipediaMovies), y) != [] ==>
        finalTemporalRanking[y] == YearRanking(old(wikipediaMovies), y, Scorer(imdbMovies, boxOfficeMovies))
      ensures forall y :: y in old(finalTemporalRanking) && !(InRange(y) && MoviesOfYear(old(wikipediaMovies), y) != []) ==>
        finalTemporalRanking[y] == old(finalTemporalRanking)[y]
    {
      var movies := wikipediaMovies;
      var score := Scorer(imdbMovies, boxOfficeMovies);
      var byYear := GroupByYear(movies);
      var ranking := RankYears(byYear, score, finalTemporalRanking);
      finalTemporalRanking := ranking;
      wikipediaMovies := ScoredInPlace(movies, score);
    }
  }
}
