/** The film forecast analyzer (version 6.2): four principle scores per film,
    weights calibrated from their correlation with success, renormalised to
    sum to 1, shifted by a trailer reaction, checked by a five-fold
    cross-validation, and used to score one film (Project Hail Mary) and
    four stress cases. The square root is a parameter; the shuffle before
    cross-validation is a parameter that is a permutation of the films. */
module FilmForecast {

  import opened Common

  // ---------------------------------------------------------------------------
  // Principles and weights

  /** The four principles, the keys of every weight and score dictionary. */
  datatype Principle = PIVC | PLOA | PAA | PDC

  /** The dictionary order of the keys. */
  const Order: seq<Principle> := [PIVC, PLOA, PAA, PDC]

  const AllPrinciples: set<Principle> := {PIVC, PLOA, PAA, PDC}

  /** A dictionary holding every principle (and so exactly the four). */
  predicate Complete(w: map<Principle, real>)
  {
    forall p: Principle :: p in w
  }

  lemma CompleteByCases(w: map<Principle, real>)
    requires PIVC in w && PLOA in w && PAA in w && PDC in w
    ensures Complete(w)
  {
    forall p: Principle ensures p in w {
      match p
      case PIVC =>
      case PLOA =>
      case PAA =>
      case PDC =>
    }
  }

  lemma OrderCovers(p: Principle)
    ensures exists j :: 0 <= j < 4 && Order[j] == p
    ensures p in AllPrinciples
  {
    match p
    case PIVC => assert Order[0] == p;
    case PLOA => assert Order[1] == p;
    case PAA => assert Order[2] == p;
    case PDC => assert Order[3] == p;
  }

  /** A complete dictionary has exactly four entries. */
  lemma CompleteSize(w: map<Principle, real>)
    requires Complete(w)
    ensures |w| == 4
  {
    forall p: Principle ensures p in AllPrinciples {
      OrderCovers(p);
    }
    assert w.Keys == AllPrinciples;
    assert |AllPrinciples| == 4;
  }

  /** `sum(d.values())` of a complete dictionary. */
  function Total(w: map<Principle, real>): real
    requires Complete(w)
  {
    w[PIVC] + w[PLOA] + w[PAA] + w[PDC]
  }

  predicate NonNegative(w: map<Principle, real>)
    requires Complete(w)
  {
    forall p: Principle :: w[p] >= 0.0
  }

  /** Weights as the analyzer keeps them after every calibration step. */
  predicate Normal(w: map<Principle, real>)
  {
    Complete(w) && NonNegative(w) && Total(w) == 1.0
  }

  /** `sum(scores[p] * weights[p] for p in weights)`. */
  function Score(scores: map<Principle, real>, w: map<Principle, real>): real
    requires Complete(scores) && Complete(w)
  {
    scores[PIVC] * w[PIVC] + scores[PLOA] * w[PLOA] + scores[PAA] * w[PAA] + scores[PDC] * w[PDC]
  }

  function MinScore(s: map<Principle, real>): real
    requires Complete(s)
  {
    MinR(MinR(s[PIVC], s[PLOA]), MinR(s[PAA], s[PDC]))
  }

  function MaxScore(s: map<Principle, real>): real
    requires Complete(s)
  {
    MaxR(MaxR(s[PIVC], s[PLOA]), MaxR(s[PAA], s[PDC]))
  }

  lemma ProductNonNegative(a: real, b: real)
    requires a >= 0.0 && b >= 0.0
    ensures a * b >= 0.0
  {
  }

  lemma WeightedDeviation(a: real, b: real, c: real, d: real, wa: real, wb: real, wc: real, wd: real, k: real)
    requires wa + wb + wc + wd == 1.0
    ensures a * wa + b * wb + c * wc + d * wd - k == (a - k) * wa + (b - k) * wb + (c - k) * wc + (d - k) * wd
  {
  }

  /** A weighted mean of four values with non-negative weights summing to 1
      lies between bounds of the values. */
  lemma WeightedMeanBetween(a: real, b: real, c: real, d: real,
                            wa: real, wb: real, wc: real, wd: real, lo: real, hi: real)
    requires lo <= a <= hi && lo <= b <= hi && lo <= c <= hi && lo <= d <= hi
    requires wa >= 0.0 && wb >= 0.0 && wc >= 0.0 && wd >= 0.0 && wa + wb + wc + wd == 1.0
    ensures lo <= a * wa + b * wb + c * wc + d * wd <= hi
  {
    assert lo <= a * wa + b * wb + c * wc + d * wd by {
      ProductNonNegative(a - lo, wa);
      ProductNonNegative(b - lo, wb);
      ProductNonNegative(c - lo, wc);
      ProductNonNegative(d - lo, wd);
      WeightedDeviation(a, b, c, d, wa, wb, wc, wd, lo);
    }
    assert a * wa + b * wb + c * wc + d * wd <= hi by {
      ProductNonNegative(hi - a, wa);
      ProductNonNegative(hi - b, wb);
      ProductNonNegative(hi - c, wc);
      ProductNonNegative(hi - d, wd);
      WeightedDeviation(a, b, c, d, wa, wb, wc, wd, hi);
    }
  }

  /** With normal weights a film's score is a weighted mean of its four
      principle scores, so it lies between the smallest and the largest. */
  lemma ScoreBetween(scores: map<Principle, real>, w: map<Principle, real>)
    requires Complete(scores) && Normal(w)
    ensures MinScore(scores) <= Score(scores, w) <= MaxScore(scores)
  {
    assert w[PIVC] >= 0.0 && w[PLOA] >= 0.0 && w[PAA] >= 0.0 && w[PDC] >= 0.0;
    WeightedMeanBetween(scores[PIVC], scores[PLOA], scores[PAA], scores[PDC],
                        w[PIVC], w[PLOA], w[PAA], w[PDC], MinScore(scores), MaxScore(scores));
  }

  /** The loops `for p in weights: weights[p] = f(p, weights[p])`, over the
      dictionary order. */
  method UpdateEach(w: map<Principle, real>, f: (Principle, real) -> real) returns (r: map<Principle, real>)
    requires Complete(w)
    ensures Complete(r)
    ensures forall p: Principle :: r[p] == f(p, w[p])
  {
    r := w;
    for k := 0 to 4
      invariant Complete(r)
      invariant forall j :: 0 <= j < k ==> r[Order[j]] == f(Order[j], w[Order[j]])
      invariant forall j :: k <= j < 4 ==> r[Order[j]] == w[Order[j]]
    {
      var p := Order[k];
      r := r[p := f(p, r[p])];
    }
    forall p: Principle ensures r[p] == f(p, w[p]) {
      OrderCovers(p);
    }
  }

  // ---------------------------------------------------------------------------
  // Normalisation (`validate_calibration`)

  /** `validate_calibration`: every weight becomes 1/n when they sum to 0,
      otherwise each is divided by the sum. */
  function Normalized(w: map<Principle, real>): (r: map<Principle, real>)
    requires Complete(w)
    ensures Complete(r)
  {
    var total := Total(w);
    if total == 0.0 then map p: Principle | p in w :: 1.0 / |w| as real
    else map p: Principle | p in w :: w[p] / total
  }

  /** After normalisation the weights sum to 1. */
  lemma NormalizedSumsToOne(w: map<Principle, real>)
    requires Complete(w)
    ensures Total(Normalized(w)) == 1.0
  {
    CompleteSize(w);
    var total := Total(w);
    if total != 0.0 {
      var r := Normalized(w);
      assert Total(r) == (w[PIVC] + w[PLOA] + w[PAA] + w[PDC]) / total;
    }
  }

  /** Non-negative weights stay non-negative, so the result is normal. */
  lemma NormalizedNormal(w: map<Principle, real>)
    requires Complete(w) && NonNegative(w)
    ensures Normal(Normalized(w))
  {
    NormalizedSumsToOne(w);
    CompleteSize(w);
  }

  /** A second normalisation changes nothing. */
  lemma NormalizedIdempotent(w: map<Principle, real>)
    requires Complete(w)
    ensures Normalized(Normalized(w)) == Normalized(w)
  {
    NormalizedSumsToOne(w);
  }

  /** Weights that already sum to 1 are left as they are. */
  lemma NormalizedKeepsNormal(w: map<Principle, real>)
    requires Complete(w) && Total(w) == 1.0
    ensures Normalized(w) == w
  {
  }

  // ---------------------------------------------------------------------------
  // Correlation

  /** A square root as the script uses it: positive on positive input. */
  ghost predicate PositiveRoot(root: real -> real)
  {
    forall v: real :: v > 0.0 ==> root(v) > 0.0
  }

  function SumSquares(x: seq<real>): real
  {
    if x == [] then 0.0 else SumSquares(x[..|x| - 1]) + x[|x| - 1] * x[|x| - 1]
  }

  function SumProducts(x: seq<real>, y: seq<real>): real
    requires |x| == |y|
  {
    if x == [] then 0.0 else SumProducts(x[..|x| - 1], y[..|y| - 1]) + x[|x| - 1] * y[|y| - 1]
  }

  /** The end of `calculate_correlation` from the count and the five sums:
      0 for fewer than two values or a squared denominator that is not
      positive, otherwise the Pearson coefficient. */
  function CorrelationFrom(n: nat, sx: real, sy: real, sumx2: real, sumy2: real, sumxy: real,
                           root: real -> real): real
    requires PositiveRoot(root)
  {
    if n < 2 then 0.0
    else
      var num := n as real * sumxy - sx * sy;
      var denSq := (n as real * sumx2 - sx * sx) * (n as real * sumy2 - sy * sy);
      if denSq <= 0.0 then 0.0 else num / root(denSq)
  }

  /** `calculate_correlation(x, y)`; only the first `len(x)` values of `y`
      are read. */
  function CorrelationOf(x: seq<real>, y: seq<real>, root: real -> real): real
    requires |x| <= |y| && PositiveRoot(root)
  {
    var ys := y[..|x|];
    CorrelationFrom(|x|, Sum(x), Sum(ys), SumSquares(x), SumSquares(ys), SumProducts(x, ys), root)
  }

  lemma SumsStep(x: seq<real>, y: seq<real>, k: nat)
    requires k < |x| == |y|
    ensures Sum(x[..k + 1]) == Sum(x[..k]) + x[k]
    ensures SumSquares(x[..k + 1]) == SumSquares(x[..k]) + x[k] * x[k]
    ensures SumProducts(x[..k + 1], y[..k + 1]) == SumProducts(x[..k], y[..k]) + x[k] * y[k]
  {
    assert x[..k + 1][..k] == x[..k];
    assert y[..k + 1][..k] == y[..k];
  }

  /** The accumulator loop of `calculate_correlation`. */
  method Correlation(x: seq<real>, y: seq<real>, root: real -> real) returns (r: real)
    requires |x| <= |y| && PositiveRoot(root)
    ensures r == CorrelationOf(x, y, root)
    ensures |x| < 2 ==> r == 0.0
  {
    var n := |x|;
    if n < 2 {
      return 0.0;
    }
    var ys := y[..n];
    var sx, sumx2, sy, sumy2, sumxy := 0.0, 0.0, 0.0, 0.0, 0.0;
    for i := 0 to n
      invariant sx == Sum(x[..i]) && sumx2 == SumSquares(x[..i])
      invariant sy == Sum(ys[..i]) && sumy2 == SumSquares(ys[..i])
      invariant sumxy == SumProducts(x[..i], ys[..i])
    {
      SumsStep(x, ys, i);
      SumsStep(ys, x, i);
      sx := sx + x[i];
      sy := sy + y[i];
      sumx2 := sumx2 + x[i] * x[i];
      sumy2 := sumy2 + y[i] * y[i];
      sumxy := sumxy + x[i] * y[i];
    }
    assert x[..n] == x && ys[..n] == ys;
    r := CorrelationFrom(n, sx, sy, sumx2, sumy2, sumxy, root);
  }

  // ---------------------------------------------------------------------------
  // Films and calibration

  /** One historical film; `success` is the outcome the weights are fitted to. */
  datatype Film = Film(title: string, budget: int, boxOffice: int, imdbScore: real, success: real,
                       principles: map<Principle, real>)

  predicate AllComplete(films: seq<Film>)
  {
    forall i :: 0 <= i < |films| ==> Complete(films[i].principles)
  }

  function P4(pivc: real, ploa: real, paa: real, pdc: real): (r: map<Principle, real>)
    ensures Complete(r)
  {
    var r := map[PIVC := pivc, PLOA := ploa, PAA := paa, PDC := pdc];
    CompleteByCases(r);
    r
  }

  /** `load_extended_historical_data`: the ten science-fiction films the
      weights are calibrated on. */
  const HistoricalFilms: seq<Film> := [
    Film("Марсианин", 108_000_000, 630_200_000, 8.0, 1.0, P4(0.85, 0.80, 0.75, 0.70)),
    Film("Интерстеллар", 165_000_000, 677_500_000, 8.6, 1.0, P4(0.90, 0.85, 0.80, 0.75)),
    Film("Гравитация", 100_000_000, 723_200_000, 7.7, 1.0, P4(0.88, 0.82, 0.78, 0.72)),
    Film("Прибытие", 47_000_000, 203_400_000, 7.9, 0.8, P4(0.82, 0.75, 0.85, 0.68)),
    Film("Изгой-один", 200_000_000, 1_056_100_000, 7.8, 1.0, P4(0.78, 0.72, 0.70, 0.82)),
    Film("Первый человек", 70_000_000, 105_800_000, 7.3, 0.4, P4(0.75, 0.70, 0.65, 0.60)),
    Film("Артемис Фаул", 125_000_000, 167_800_000, 6.2, 0.3, P4(0.60, 0.55, 0.58, 0.52)),
    Film("Сфера", 80_000_000, 37_300_000, 6.6, 0.1, P4(0.45, 0.50, 0.40, 0.35)),
    Film("Время", 40_000_000, 18_000_000, 5.7, 0.1, P4(0.38, 0.42, 0.35, 0.30)),
    Film("Джонни-мнемоник", 28_000_000, 52_400_000, 5.6, 0.2, P4(0.42, 0.38, 0.45, 0.40))]

  /** Every historical film scores all four principles. */
  lemma HistoricalFilmsComplete()
    ensures |HistoricalFilms| == 10 && AllComplete(HistoricalFilms)
  {
  }

  /** `[f['principles'][p] for f in films]`. */
  function Column(films: seq<Film>, p: Principle): (r: seq<real>)
    requires AllComplete(films)
    ensures |r| == |films|
    ensures forall i :: 0 <= i < |films| ==> r[i] == films[i].principles[p]
  {
    seq(|films|, i requires 0 <= i < |films| => films[i].principles[p])
  }

  /** `[f['success'] for f in films]`. */
  function Successes(films: seq<Film>): (r: seq<real>)
    ensures |r| == |films|
    ensures forall i :: 0 <= i < |films| ==> r[i] == films[i].success
  {
    seq(|films|, i requires 0 <= i < |films| => films[i].success)
  }

  /** The level each correlation is divided by. */
  function Level(p: Principle): (r: real)
    ensures r >= 1.0
  {
    if p == PLOA || p == PAA then 2.0 else 1.0
  }

  /** The correlation of principle `p` with success over `films`. */
  function PrincipleCorrelation(films: seq<Film>, p: Principle, root: real -> real): real
    requires AllComplete(films) && PositiveRoot(root)
  {
    CorrelationOf(Column(films, p), Successes(films), root)
  }

  /** The dictionary `correlations` of the calibration: |corr| / level. */
  function RawCalibration(films: seq<Film>, root: real -> real): (r: map<Principle, real>)
    requires AllComplete(films) && PositiveRoot(root)
    ensures Complete(r)
  {
    var r := map p | p in AllPrinciples :: Abs(PrincipleCorrelation(films, p, root)) / Level(p);
    CompleteByCases(r);
    r
  }

  lemma RawCalibrationAt(films: seq<Film>, root: real -> real, p: Principle)
    requires AllComplete(films) && PositiveRoot(root)
    ensures RawCalibration(films, root)[p] == Abs(PrincipleCorrelation(films, p, root)) / Level(p)
  {
    OrderCovers(p);
  }

  /** Each value divided by the total, or by 1.0 when the total is 0
      (`sum(...) or 1.0`). */
  function Shares(raw: map<Principle, real>): (r: map<Principle, real>)
    requires Complete(raw)
    ensures Complete(r)
  {
    var total := Total(raw);
    var d := if total == 0.0 then 1.0 else total;
    map p | p in raw :: raw[p] / d
  }

  /** Two complete dictionaries that agree on every principle are equal. */
  lemma SameWeights(a: map<Principle, real>, b: map<Principle, real>)
    requires Complete(a) && Complete(b)
    requires forall p: Principle :: a[p] == b[p]
    ensures a == b
  {
    assert a.Keys == b.Keys;
  }

  /** Non-negative values give non-negative shares that sum to 1 when the
      total is not 0. */
  lemma SharesNormal(raw: map<Principle, real>)
    requires Complete(raw) && NonNegative(raw)
    ensures NonNegative(Shares(raw))
    ensures Total(raw) != 0.0 ==> Total(Shares(raw)) == 1.0
  {
    var total := Total(raw);
    var d := if total == 0.0 then 1.0 else total;
    var r := Shares(raw);
    assert d > 0.0 by {
      assert raw[PIVC] >= 0.0 && raw[PLOA] >= 0.0 && raw[PAA] >= 0.0 && raw[PDC] >= 0.0;
    }
    if total != 0.0 {
      DivideSum(raw[PIVC], raw[PLOA], raw[PAA], raw[PDC], total);
    }
    forall p: Principle ensures r[p] >= 0.0 {
      DivideNonNegative(raw[p], d);
    }
  }

  lemma DivideNonNegative(a: real, d: real)
    requires a >= 0.0 && d > 0.0
    ensures a / d >= 0.0
  {
  }

  lemma DivideSum(a: real, b: real, c: real, e: real, t: real)
    requires t != 0.0 && a + b + c + e == t
    ensures a / t + b / t + c / t + e / t == 1.0
  {
  }

  /** Non-negative values with total 0 are all 0, and so are their shares. */
  lemma SharesOfZero(raw: map<Principle, real>)
    requires Complete(raw) && NonNegative(raw) && Total(raw) == 0.0
    ensures forall p: Principle :: raw[p] == 0.0 && Shares(raw)[p] == 0.0
  {
    assert raw[PIVC] >= 0.0 && raw[PLOA] >= 0.0 && raw[PAA] >= 0.0 && raw[PDC] >= 0.0;
    forall p: Principle ensures raw[p] == 0.0 && Shares(raw)[p] == 0.0 {
      match p
      case PIVC =>
      case PLOA =>
      case PAA =>
      case PDC =>
    }
  }

  /** `simple_calibration` / `calibrate_on_subset` as a value. */
  function CalibrationOf(films: seq<Film>, root: real -> real): (r: map<Principle, real>)
    requires AllComplete(films) && PositiveRoot(root)
    ensures Complete(r)
  {
    Shares(RawCalibration(films, root))
  }

  /** The calibrated weights are non-negative; they sum to 1 exactly when
      some principle correlates with success, and are all 0 otherwise. */
  lemma CalibrationProperties(films: seq<Film>, root: real -> real)
    requires AllComplete(films) && PositiveRoot(root)
    ensures NonNegative(CalibrationOf(films, root))
    ensures Total(CalibrationOf(films, root)) == 1.0 <==>
              exists p: Principle :: PrincipleCorrelation(films, p, root) != 0.0
    ensures (forall p: Principle :: PrincipleCorrelation(films, p, root) == 0.0) ==>
              forall p: Principle :: CalibrationOf(films, root)[p] == 0.0
  {
    var raw := RawCalibration(films, root);
    forall p: Principle ensures raw[p] >= 0.0 && (raw[p] == 0.0 <==> PrincipleCorrelation(films, p, root) == 0.0) {
      RawCalibrationAt(films, root, p);
    }
    SharesNormal(raw);
    if Total(raw) == 0.0 {
      SharesOfZero(raw);
      assert Total(Shares(raw)) == 0.0;
    } else {
      assert raw[PIVC] != 0.0 || raw[PLOA] != 0.0 || raw[PAA] != 0.0 || raw[PDC] != 0.0;
    }
  }

  /** `simple_calibration` over `films`: the correlation loop over the
      principles, then the division by the total. */
  method Calibrate(films: seq<Film>, root: real -> real) returns (w: map<Principle, real>)
    requires AllComplete(films) && PositiveRoot(root)
    ensures w == CalibrationOf(films, root)
  {
    var raw := RawCalibration(films, root);
    var correlations: map<Principle, real> := map[];
    for k := 0 to 4
      invariant forall j :: 0 <= j < k ==> Order[j] in correlations
      invariant forall p: Principle :: p in correlations ==> correlations[p] == raw[p]
    {
      var p := Order[k];
      var corr := Correlation(Column(films, p), Successes(films), root);
      RawCalibrationAt(films, root, p);
      correlations := correlations[p := Abs(corr) / Level(p)];
    }
    forall p: Principle ensures p in correlations {
      OrderCovers(p);
    }
    SameWeights(correlations, raw);
    w := Shares(correlations);
  }

  // ---------------------------------------------------------------------------
  // The trailer shift (`apply_trailer_phi`)

  /** The audience reaction to a trailer; a missing entry takes the default
      of `trailer_metrics.get`. */
  datatype TrailerMetrics = TrailerMetrics(views: Option<real>, likeRatio: Option<real>, sentiment: Option<real>)

  function GetOr(o: Option<real>, default: real): real
  {
    if o.Some? then o.value else default
  }

  /** The perturbation energy, clamped to [0, 5]. */
  function DeltaEnergy(views: real, likeRatio: real, sentiment: real): (delta: real)
    ensures 0.0 <= delta <= 5.0
  {
    Clamp((views / 100_000_000.0) * sentiment * MaxR(0.5, likeRatio), 0.0, 5.0)
  }

  /** The weight adjustment: 0.04 per unit of energy, at most 0.2. */
  function TrailerAdjustment(m: TrailerMetrics): (adj: real)
    ensures 0.0 <= adj <= 0.2
  {
    var delta := DeltaEnergy(GetOr(m.views, 0.0), GetOr(m.likeRatio, 0.8), GetOr(m.sentiment, 0.8));
    MinR(0.2, 0.04 * delta)
  }

  /** PIVC and PDC grow by the adjustment, the other two shrink by half of it. */
  function Scale(p: Principle, adj: real): real
  {
    if p == PIVC || p == PDC then 1.0 + adj else 1.0 - adj * 0.5
  }

  function Shifted(w: map<Principle, real>, adj: real): (r: map<Principle, real>)
    requires Complete(w)
    ensures Complete(r)
  {
    map p | p in w :: w[p] * Scale(p, adj)
  }

  /** The weights after the trailer: shifted, then divided by their total. */
  function AfterTrailer(w: map<Principle, real>, m: TrailerMetrics): (r: map<Principle, real>)
    requires Complete(w)
    ensures Complete(r)
  {
    Shares(Shifted(w, TrailerAdjustment(m)))
  }

  lemma ScaledAtLeast(v: real, s: real)
    requires v >= 0.0 && s >= 0.9
    ensures v * s >= 0.9 * v >= 0.0
  {
    ProductNonNegative(v, s - 0.9);
  }

  /** A shifted weight keeps at least 0.9 of a non-negative weight. */
  lemma ShiftedAtLeast(w: map<Principle, real>, adj: real, p: Principle)
    requires Complete(w) && w[p] >= 0.0 && 0.0 <= adj <= 0.2
    ensures Shifted(w, adj)[p] >= 0.9 * w[p] >= 0.0
  {
    var v := w[p];
    var sc := Scale(p, adj);
    assert Shifted(w, adj)[p] == v * sc;
    ScaledAtLeast(v, sc);
  }

  /** Normal weights stay normal under every adjustment the trailer can
      produce: the shifted weights keep at least 0.9 of their total. */
  lemma ShiftedKeepsNormal(w: map<Principle, real>, adj: real)
    requires Normal(w) && 0.0 <= adj <= 0.2
    ensures Normal(Shares(Shifted(w, adj)))
  {
    var r := Shifted(w, adj);
    forall p: Principle ensures r[p] >= 0.0 {
      ShiftedAtLeast(w, adj, p);
    }
    ShiftedAtLeast(w, adj, PIVC);
    ShiftedAtLeast(w, adj, PLOA);
    ShiftedAtLeast(w, adj, PAA);
    ShiftedAtLeast(w, adj, PDC);
    assert Total(r) >= 0.9;
    SharesNormal(r);
  }

  /** A trailer with no views (or none reported) gives no adjustment. */
  lemma NoViewsNoAdjustment(m: TrailerMetrics)
    requires GetOr(m.views, 0.0) == 0.0
    ensures TrailerAdjustment(m) == 0.0
  {
    var sentiment := GetOr(m.sentiment, 0.8);
    var like := MaxR(0.5, GetOr(m.likeRatio, 0.8));
    assert GetOr(m.views, 0.0) / 100_000_000.0 == 0.0;
    assert 0.0 * sentiment * like == 0.0;
  }

  /** A zero adjustment leaves normal weights as they are. */
  lemma ZeroShiftKeepsWeights(w: map<Principle, real>)
    requires Normal(w)
    ensures Shares(Shifted(w, 0.0)) == w
  {
    var r := Shifted(w, 0.0);
    forall p: Principle ensures r[p] == w[p] {
    }
    SameWeights(r, w);
    var n := Shares(w);
    forall p: Principle ensures n[p] == w[p] {
    }
    SameWeights(n, w);
  }

  /** So a trailer with no views leaves normal weights as they are. */
  lemma NoViewsKeepsWeights(w: map<Principle, real>, m: TrailerMetrics)
    requires Normal(w) && GetOr(m.views, 0.0) == 0.0
    ensures AfterTrailer(w, m) == w
  {
    NoViewsNoAdjustment(m);
    ZeroShiftKeepsWeights(w);
  }

  /** The reaction to the trailer of Project Hail Mary (400 million views,
      like ratio 0.96, sentiment 0.87) gives energy 3.3408 and adjustment
      0.133632. */
  lemma HailMaryTrailerAdjustment()
    ensures DeltaEnergy(400_000_000.0, 0.96, 0.87) == 3.3408
    ensures TrailerAdjustment(TrailerMetrics(Some(400_000_000.0), Some(0.96), Some(0.87))) == 0.133632
  {
  }

  /** The stored sources, or the placeholder when none (or an empty
      dictionary) are given. */
  function SourcesOrDefault(sources: Option<map<string, string>>): (r: map<string, string>)
    ensures r != map[]
    ensures sources.Some? && sources.value != map[] ==> r == sources.value
  {
    if sources.Some? && sources.value != map[] then sources.value
    else
      var placeholder := map["unknown" := "no sources provided"];
      assert "unknown" in placeholder;
      placeholder
  }

  // ---------------------------------------------------------------------------
  // Cross-validation (`custom_cross_validation`)

  const FoldCount: nat := 5

  /** `max(1, len(data) // 5)`. */
  function FoldSize(n: nat): (fs: nat)
    ensures fs >= 1
  {
    if n / FoldCount > 1 then n / FoldCount else 1
  }

  function TestStart(n: nat, fold: nat): nat
  {
    fold * FoldSize(n)
  }

  /** The last fold runs to the end of the data. */
  function TestEnd(n: nat, fold: nat): nat
  {
    if fold < FoldCount - 1 then TestStart(n, fold) + FoldSize(n) else n
  }

  /** `data[test_start:test_end]`. */
  function TestSet<T>(data: seq<T>, fold: nat): seq<T>
  {
    Slice(data, TestStart(|data|, fold), TestEnd(|data|, fold))
  }

  /** `data[:test_start] + data[test_end:]`. */
  function TrainSet<T>(data: seq<T>, fold: nat): seq<T>
  {
    Slice(data, 0, TestStart(|data|, fold)) + Slice(data, TestEnd(|data|, fold), |data|)
  }

  /** Every fold splits the data: its training and test sets together hold
      each film exactly as often as the data does. */
  lemma FoldSplitsData<T>(data: seq<T>, fold: nat)
    ensures multiset(TrainSet(data, fold)) + multiset(TestSet(data, fold)) == multiset(data)
  {
    var n := |data|;
    var a := MinN(TestStart(n, fold), n);
    var b := MinN(TestEnd(n, fold), n);
    assert a <= b by {
      assert fold < FoldCount - 1 ==> TestEnd(n, fold) >= TestStart(n, fold);
    }
    assert TestSet(data, fold) == data[a..b];
    assert TrainSet(data, fold) == data[..a] + data[b..];
    assert data == data[..a] + data[a..b] + data[b..];
  }

  /** With at least five films each test set is the slice between its
      bounds, and each fold starts where the previous one ends. */
  lemma TestSetSlice<T>(data: seq<T>, fold: nat)
    requires |data| >= FoldCount && fold < FoldCount
    ensures TestStart(|data|, fold) <= TestEnd(|data|, fold) <= |data|
    ensures TestSet(data, fold) == data[TestStart(|data|, fold)..TestEnd(|data|, fold)]
    ensures fold + 1 < FoldCount ==> TestEnd(|data|, fold) == TestStart(|data|, fold + 1)
  {
    FoldBounds(|data|, fold);
  }

  /** With at least five films the five test sets, in order, are the data. */
  lemma TestSetsPartition<T>(data: seq<T>)
    requires |data| >= FoldCount
    ensures TestSet(data, 0) + TestSet(data, 1) + TestSet(data, 2) + TestSet(data, 3) + TestSet(data, 4) == data
  {
    var n := |data|;
    TestSetSlice(data, 0);
    TestSetSlice(data, 1);
    TestSetSlice(data, 2);
    TestSetSlice(data, 3);
    TestSetSlice(data, 4);
    var b1, b2, b3, b4 := TestStart(n, 1), TestStart(n, 2), TestStart(n, 3), TestStart(n, 4);
    assert TestSet(data, 0) == data[0..b1];
    assert TestSet(data, 4) == data[b4..n];
    SliceJoin(data, 0, b1, b2);
    SliceJoin(data, 0, b2, b3);
    SliceJoin(data, 0, b3, b4);
    SliceJoin(data, 0, b4, n);
    assert data[0..n] == data;
  }

  /** Two adjacent slices join into one. */
  lemma SliceJoin<T>(s: seq<T>, a: nat, b: nat, c: nat)
    requires a <= b <= c <= |s|
    ensures s[a..b] + s[b..c] == s[a..c]
  {
  }

  lemma FoldBounds(n: nat, fold: nat)
    requires n >= FoldCount && fold < FoldCount
    ensures TestStart(n, fold) < TestEnd(n, fold) <= n
    ensures n - (TestEnd(n, fold) - TestStart(n, fold)) >= 4
  {
    var fs := FoldSize(n);
    assert fs == n / 5 && 5 * fs <= n;
    if fold == 0 {
    } else if fold == 1 {
    } else if fold == 2 {
    } else if fold == 3 {
    } else {
      assert TestStart(n, fold) == 4 * fs;
    }
  }

  /** With at least five films every fold has a non-empty test set and at
      least four training films, so no fold is skipped. */
  lemma FoldsAllUsable<T>(data: seq<T>, fold: nat)
    requires |data| >= FoldCount && fold < FoldCount
    ensures |TestSet(data, fold)| >= 1 && |TrainSet(data, fold)| >= 4
  {
    var n := |data|;
    FoldBounds(n, fold);
    var a := TestStart(n, fold);
    var b := TestEnd(n, fold);
    assert TestSet(data, fold) == data[a..b];
    assert TrainSet(data, fold) == data[..a] + data[b..];
  }

  /** `sum(abs(pred - act))` over a test set scored with weights `w`. */
  function ErrorSum(test: seq<Film>, w: map<Principle, real>): (r: real)
    requires AllComplete(test) && Complete(w)
    ensures r >= 0.0
  {
    if test == [] then 0.0
    else ErrorSum(test[..|test| - 1], w) + Abs(Score(test[|test| - 1].principles, w) - test[|test| - 1].success)
  }

  /** The mean absolute error of one fold, None when the fold is skipped
      (fewer than two training films, or no test film). */
  function FoldError(data: seq<Film>, fold: nat, root: real -> real): (r: Option<real>)
    requires AllComplete(data) && PositiveRoot(root)
    ensures r.Some? ==> r.value >= 0.0
  {
    var test := TestSet(data, fold);
    var train := TrainSet(data, fold);
    FoldSetsComplete(data, fold);
    if |train| < 2 || test == [] then None
    else
      var sum := ErrorSum(test, CalibrationOf(train, root));
      DivideNonNegative(sum, |test| as real);
      Some(sum / |test| as real)
  }

  lemma FoldErrorCases(data: seq<Film>, fold: nat, root: real -> real)
    requires AllComplete(data) && PositiveRoot(root)
    ensures AllComplete(TestSet(data, fold)) && AllComplete(TrainSet(data, fold))
    ensures |TrainSet(data, fold)| < 2 || TestSet(data, fold) == [] ==> FoldError(data, fold, root) == None
    ensures |TrainSet(data, fold)| >= 2 && TestSet(data, fold) != [] ==>
              FoldError(data, fold, root)
              == Some(ErrorSum(TestSet(data, fold), CalibrationOf(TrainSet(data, fold), root)) / |TestSet(data, fold)| as real)
  {
    FoldSetsComplete(data, fold);
  }

  lemma FoldSetsComplete(data: seq<Film>, fold: nat)
    requires AllComplete(data)
    ensures AllComplete(TestSet(data, fold)) && AllComplete(TrainSet(data, fold))
  {
    FoldSplitsData(data, fold);
    forall f | f in TestSet(data, fold) || f in TrainSet(data, fold) ensures Complete(f.principles) {
      assert f in multiset(data);
    }
  }

  /** `mae_list`: the errors of the folds that were not skipped, in order. */
  function Kept(results: seq<Option<real>>): seq<real>
  {
    if results == [] then []
    else
      var prev := Kept(results[..|results| - 1]);
      match results[|results| - 1]
      case Some(mae) => prev + [mae]
      case None => prev
  }

  /** Adding one more fold result extends the kept errors by that fold's
      error, if it ran. */
  lemma KeptSnoc(results: seq<Option<real>>, k: nat)
    requires k < |results|
    ensures Kept(results[..k + 1])
            == Kept(results[..k]) + (if results[k].Some? then [results[k].value] else [])
  {
    assert results[..k + 1][..k] == results[..k];
  }

  /** The results of the five folds of `custom_cross_validation` on `data`. */
  function FoldResults(data: seq<Film>, root: real -> real): (r: seq<Option<real>>)
    requires AllComplete(data) && PositiveRoot(root)
    ensures |r| == FoldCount
    ensures forall fold :: 0 <= fold < FoldCount ==> r[fold] == FoldError(data, fold, root)
  {
    seq(FoldCount, (fold: int) requires 0 <= fold < FoldCount => FoldError(data, fold, root))
  }

  datatype Stability = High | Moderate

  datatype Validation = Validation(meanMae: real, folds: nat, stability: Stability)

  /** The report built from `mae_list`. */
  function Summarize(errors: seq<real>): Validation
  {
    var meanMae := if errors != [] then Sum(errors) / |errors| as real else 0.0;
    Validation(meanMae, |errors|, if meanMae < 0.2 then High else Moderate)
  }

  /** The report of `custom_cross_validation` on the shuffled data. */
  function ValidationOf(data: seq<Film>, root: real -> real): Validation
    requires AllComplete(data) && PositiveRoot(root)
  {
    Summarize(Kept(FoldResults(data, root)))
  }

  lemma {:induction false} KeptNonNegative(results: seq<Option<real>>)
    requires forall i :: 0 <= i < |results| && results[i].Some? ==> results[i].value >= 0.0
    ensures |Kept(results)| <= |results|
    ensures forall i :: 0 <= i < |Kept(results)| ==> Kept(results)[i] >= 0.0
  {
    if results != [] {
      KeptNonNegative(results[..|results| - 1]);
    }
  }

  lemma {:induction false} KeptAll(results: seq<Option<real>>)
    requires forall i :: 0 <= i < |results| ==> results[i].Some?
    ensures |Kept(results)| == |results|
  {
    if results != [] {
      KeptAll(results[..|results| - 1]);
    }
  }

  lemma {:induction false} SumNonNegative(xs: seq<real>)
    requires forall i :: 0 <= i < |xs| ==> xs[i] >= 0.0
    ensures Sum(xs) >= 0.0
  {
    if xs != [] {
      SumNonNegative(xs[..|xs| - 1]);
    }
  }

  /** With at least five films no fold is skipped. */
  lemma FoldsAllRun(data: seq<Film>, root: real -> real, fold: nat)
    requires AllComplete(data) && PositiveRoot(root)
    requires |data| >= FoldCount && fold < FoldCount
    ensures FoldError(data, fold, root).Some?
  {
    FoldsAllUsable(data, fold);
    FoldErrorCases(data, fold, root);
  }

  /** The mean error is 0 with no usable fold and never negative; the
      stability is high exactly when it is below 0.2; there are at most five
      folds, and exactly five with at least five films. */
  lemma ValidationProperties(data: seq<Film>, root: real -> real)
    requires AllComplete(data) && PositiveRoot(root)
    ensures ValidationOf(data, root).meanMae >= 0.0
    ensures ValidationOf(data, root).folds == 0 ==> ValidationOf(data, root).meanMae == 0.0
    ensures ValidationOf(data, root).stability == High <==> ValidationOf(data, root).meanMae < 0.2
    ensures ValidationOf(data, root).folds <= FoldCount
    ensures |data| >= FoldCount ==> ValidationOf(data, root).folds == FoldCount
  {
    var results := FoldResults(data, root);
    var errors := Kept(results);
    KeptNonNegative(results);
    SumNonNegative(errors);
    if errors != [] {
      DivideNonNegative(Sum(errors), |errors| as real);
    }
    if |data| >= FoldCount {
      forall fold | 0 <= fold < FoldCount ensures results[fold].Some? {
        FoldsAllRun(data, root, fold);
      }
      KeptAll(results);
    }
  }

  /** The inner loop of a fold: the test films scored with the training
      weights, and the mean absolute error; None when there is no test film. */
  method FoldMeanError(test: seq<Film>, w: map<Principle, real>) returns (mae: Option<real>)
    requires AllComplete(test) && Complete(w)
    ensures test == [] ==> mae == None
    ensures test != [] ==> mae == Some(ErrorSum(test, w) / |test| as real)
  {
    var total := 0.0;
    for i := 0 to |test|
      invariant total == ErrorSum(test[..i], w)
    {
      assert test[..i + 1][..i] == test[..i];
      total := total + Abs(Score(test[i].principles, w) - test[i].success);
    }
    if |test| == 0 {
      return None;
    }
    assert test[..|test|] == test;
    return Some(total / |test| as real);
  }

  /** One fold of `custom_cross_validation`: the test slice, the training
      complement, the calibration on it and the mean error on the test
      slice; None when the fold is skipped. */
  method RunFold(data: seq<Film>, fold: nat, root: real -> real) returns (mae: Option<real>)
    requires AllComplete(data) && PositiveRoot(root)
    ensures mae == FoldError(data, fold, root)
  {
    var n := |data|;
    var testStart := fold * FoldSize(n);
    var testEnd := if fold < FoldCount - 1 then testStart + FoldSize(n) else n;
    var test := Slice(data, testStart, testEnd);
    var train := Slice(data, 0, testStart) + Slice(data, testEnd, n);
    assert test == TestSet(data, fold) && train == TrainSet(data, fold);
    FoldSetsComplete(data, fold);
    FoldErrorCases(data, fold, root);
    if |train| < 2 {
      return None;
    }
    var w := Calibrate(train, root);
    mae := FoldMeanError(test, w);
  }

  /** The fold loop of `custom_cross_validation`: `mae_list`. */
  method FoldLoop(data: seq<Film>, root: real -> real) returns (errors: seq<real>)
    requires AllComplete(data) && PositiveRoot(root)
    ensures errors == Kept(FoldResults(data, root))
  {
    ghost var results := FoldResults(data, root);
    errors := [];
    for fold := 0 to FoldCount
      invariant errors == Kept(results[..fold])
    {
      var mae := RunFold(data, fold, root);
      KeptSnoc(results, fold);
      if mae.Some? {
        errors := errors + [mae.value];
      }
    }
    assert results[..FoldCount] == results;
  }

  /** `custom_cross_validation` on data already shuffled. */
  method CrossValidate(data: seq<Film>, root: real -> real) returns (v: Validation)
    requires AllComplete(data) && PositiveRoot(root)
    ensures v == ValidationOf(data, root)
  {
    var errors := FoldLoop(data, root);
    v := Summarize(errors);
  }

  // ---------------------------------------------------------------------------
  // Load, asymmetry, stress tests and breakdown

  /** The principle scores of Project Hail Mary. */
  const HailMary: map<Principle, real> := P4(0.85, 0.78, 0.80, 0.76)

  /** Above this ontological load the calibration is redone. */
  const CriticalLoad: real := 0.7

  /** `1 - min(values) / max(values)`, or 1.0 when the largest value is not
      positive. */
  function Asymmetry(values: map<Principle, real>): real
    requires Complete(values)
  {
    if MaxScore(values) > 0.0 then 1.0 - MinScore(values) / MaxScore(values) else 1.0
  }

  /** For non-negative values the asymmetry lies in [0, 1]; it is 0 exactly
      for equal positive values. */
  lemma AsymmetryBounds(values: map<Principle, real>)
    requires Complete(values) && NonNegative(values)
    ensures 0.0 <= Asymmetry(values) <= 1.0
    ensures MaxScore(values) > 0.0 ==> (Asymmetry(values) == 0.0 <==> MinScore(values) == MaxScore(values))
  {
    var lo := MinScore(values);
    var hi := MaxScore(values);
    assert lo >= 0.0 by {
      assert values[PIVC] >= 0.0 && values[PLOA] >= 0.0 && values[PAA] >= 0.0 && values[PDC] >= 0.0;
    }
    if hi > 0.0 {
      RatioAtMostOne(lo, hi);
    }
  }

  lemma RatioAtMostOne(lo: real, hi: real)
    requires 0.0 <= lo <= hi && hi > 0.0
    ensures 0.0 <= lo / hi <= 1.0
    ensures lo / hi == 1.0 <==> lo == hi
  {
  }

  /** With normal weights Project Hail Mary scores between 0.76 and 0.85, so
      its load stays between 0.15 and 0.24 and never reaches the critical
      load. */
  lemma HailMaryBelowCriticalLoad(w: map<Principle, real>)
    requires Normal(w)
    ensures 0.76 <= Score(HailMary, w) <= 0.85
    ensures 0.15 <= 1.0 - Score(HailMary, w) <= 0.24
    ensures !(1.0 - Score(HailMary, w) > CriticalLoad)
  {
    ScoreBetween(HailMary, w);
  }

  /** The asymmetry index of Project Hail Mary is 1 - 0.76/0.85 = 9/85. */
  lemma HailMaryAsymmetry()
    ensures 1.0 - MinScore(HailMary) / MaxScore(HailMary) == 9.0 / 85.0
  {
  }

  /** One stress case: a name and four principle scores. */
  datatype StressCase = StressCase(name: string, principles: map<Principle, real>)

  const IdealFilm: map<Principle, real> := P4(1.0, 1.0, 1.0, 1.0)
  const AntiFilm: map<Principle, real> := P4(0.0, 0.0, 0.0, 0.0)
  const AsymmetricFilm: map<Principle, real> := P4(0.9, 0.2, 0.2, 0.9)
  const OnlyPivcFilm: map<Principle, real> := P4(0.9, 0.1, 0.1, 0.1)

  const StressCases: seq<StressCase> := [
    StressCase("Идеальный фильм", IdealFilm), StressCase("Антифильм", AntiFilm),
    StressCase("Асимметричный", AsymmetricFilm), StressCase("Только PIVC", OnlyPivcFilm)]

  datatype StressResult = StressResult(name: string, molScore: real, oe: real, asymmetry: real)

  /** The row of one stress case: its score, the load 1 - score, and its
      asymmetry. */
  function StressResultOf(c: StressCase, w: map<Principle, real>): StressResult
    requires Complete(c.principles) && Complete(w)
  {
    var score := Score(c.principles, w);
    StressResult(c.name, score, 1.0 - score, Asymmetry(c.principles))
  }

  /** Under normal weights the ideal film scores 1 with load 0 and no
      asymmetry, and the anti-film scores 0 with load 1 and asymmetry 1. */
  lemma StressExtremes(w: map<Principle, real>)
    requires Normal(w)
    ensures StressResultOf(StressCase("", IdealFilm), w) == StressResult("", 1.0, 0.0, 0.0)
    ensures StressResultOf(StressCase("", AntiFilm), w) == StressResult("", 0.0, 1.0, 1.0)
  {
  }

  /** The asymmetric film has asymmetry 7/9 and the PIVC-only film 8/9. */
  lemma StressAsymmetries()
    ensures Asymmetry(AsymmetricFilm) == 7.0 / 9.0
    ensures Asymmetry(OnlyPivcFilm) == 8.0 / 9.0
  {
  }

  /** Under normal weights every stress case's load lies in [0, 1]: its score
      is a weighted mean of scores in [0, 1]. */
  lemma StressLoadsBounded(c: StressCase, w: map<Principle, real>)
    requires Complete(c.principles) && Normal(w)
    requires forall p: Principle :: 0.0 <= c.principles[p] <= 1.0
    ensures 0.0 <= StressResultOf(c, w).oe <= 1.0
  {
    ScoreBetween(c.principles, w);
    assert c.principles[PIVC] <= 1.0 && c.principles[PLOA] <= 1.0 && c.principles[PAA] <= 1.0 && c.principles[PDC] <= 1.0;
    assert c.principles[PIVC] >= 0.0 && c.principles[PLOA] >= 0.0 && c.principles[PAA] >= 0.0 && c.principles[PDC] >= 0.0;
  }

  /** One row of `get_detailed_breakdown`. */
  datatype Contribution = Contribution(score: real, weight: real, contribution: real, percentage: real)

  /** `get_detailed_breakdown`: each principle's score, weight, contribution
      and share of the total in percent (0 when the total is not positive). */
  function Breakdown(w: map<Principle, real>): (r: map<Principle, Contribution>)
    requires Complete(w)
    ensures forall p: Principle :: p in r
  {
    var total := Score(HailMary, w);
    map p | p in HailMary :: Contribution(HailMary[p], w[p], HailMary[p] * w[p],
                                          if total > 0.0 then HailMary[p] * w[p] / total * 100.0 else 0.0)
  }

  lemma PercentSum(a: real, b: real, c: real, d: real, t: real)
    requires t > 0.0 && a + b + c + d == t
    ensures a / t * 100.0 + b / t * 100.0 + c / t * 100.0 + d / t * 100.0 == 100.0
  {
    DivideSum(a, b, c, d, t);
  }

  /** The contributions add up to the score; the percentages add up to 100
      when the score is positive and are all 0 otherwise. */
  lemma BreakdownSums(w: map<Principle, real>)
    requires Complete(w)
    ensures var b := Breakdown(w);
            b[PIVC].contribution + b[PLOA].contribution + b[PAA].contribution + b[PDC].contribution
            == Score(HailMary, w)
    ensures var b := Breakdown(w);
            Score(HailMary, w) > 0.0 ==>
              b[PIVC].percentage + b[PLOA].percentage + b[PAA].percentage + b[PDC].percentage == 100.0
    ensures Score(HailMary, w) <= 0.0 ==> forall p: Principle :: Breakdown(w)[p].percentage == 0.0
  {
    var b := Breakdown(w);
    var total := Score(HailMary, w);
    if total > 0.0 {
      PercentSum(b[PIVC].contribution, b[PLOA].contribution, b[PAA].contribution, b[PDC].contribution, total);
    }
  }

  /** The reweighting loops of `apply_trailer_phi`: every weight scaled,
      then every weight divided by the total (or by 1.0 when it is 0). */
  method ShiftWeights(w: map<Principle, real>, adjustment: real) returns (newWeights: map<Principle, real>)
    requires Complete(w)
    ensures newWeights == Shares(Shifted(w, adjustment))
  {
    var shifted := UpdateEach(w, (p: Principle, v: real) => v * Scale(p, adjustment));
    SameWeights(shifted, Shifted(w, adjustment));
    var total := Total(shifted);
    if total == 0.0 {
      total := 1.0;
    }
    newWeights := UpdateEach(shifted, (p: Principle, v: real) => v / total);
    SameWeights(newWeights, Shares(shifted));
  }

  /** The report of `analyze_hail_mary` (the date and the box-office
      regression are not modelled). */
  datatype HailMaryReport = HailMaryReport(molScore: real, load: real, asymmetry: real, phiActivated: bool,
                                           validation: Validation, weights: map<Principle, real>,
                                           principles: map<Principle, real>, phiSources: map<string, string>)

  /** A permutation of complete films is complete. */
  lemma PermutationComplete(shuffled: seq<Film>, films: seq<Film>)
    requires AllComplete(films) && multiset(shuffled) == multiset(films)
    ensures AllComplete(shuffled)
  {
    forall i | 0 <= i < |shuffled| ensures Complete(shuffled[i].principles) {
      assert shuffled[i] in multiset(films);
    }
  }

  // ---------------------------------------------------------------------------
  // The analyzer

  /** `FullMOLAnalyzer`: the historical films, the weights every step
      rewrites, and the sources of the last trailer shift. */
  class FullMolAnalyzer {
    var historicalFilms: seq<Film>
    var calibratedWeights: map<Principle, real>
    var lastPhiSources: map<string, string>

    /** The weights are normal and every film scores every principle. */
    predicate Valid()
      reads this
    {
      AllComplete(historicalFilms) && Normal(calibratedWeights)
    }

    /** Loads the films, calibrates on them and normalises the weights (the
        same two steps as `recalibrate_phi`). */
    constructor (root: real -> real)
      requires PositiveRoot(root)
      ensures historicalFilms == HistoricalFilms
      ensures AllComplete(historicalFilms)
      ensures calibratedWeights == Normalized(CalibrationOf(historicalFilms, root))
      ensures lastPhiSources == map[]
      ensures Valid()
    {
      HistoricalFilmsComplete();
      historicalFilms := HistoricalFilms;
      calibratedWeights := map[];
      lastPhiSources := map[];
      new;
      RecalibratePhi(root);
    }

    /** `validate_calibration`: the weights rewritten in place by
        normalisation. */
    method ValidateCalibration()
      requires Complete(calibratedWeights)
      modifies this
      ensures calibratedWeights == Normalized(old(calibratedWeights))
      ensures historicalFilms == old(historicalFilms) && lastPhiSources == old(lastPhiSources)
    {
      var w := calibratedWeights;
      var total := Total(w);
      CompleteSize(w);
      var r;
      if total == 0.0 {
        var n := |w|;
        r := UpdateEach(w, (p: Principle, v: real) => 1.0 / n as real);
      } else {
        r := UpdateEach(w, (p: Principle, v: real) => v / total);
      }
      SameWeights(r, Normalized(w));
      calibratedWeights := r;
    }

    /** `recalibrate_phi`: calibrate again on the films, then normalise. */
    method RecalibratePhi(root: real -> real)
      requires AllComplete(historicalFilms) && PositiveRoot(root)
      modifies this
      ensures historicalFilms == old(historicalFilms) && lastPhiSources == old(lastPhiSources)
      ensures calibratedWeights == Normalized(CalibrationOf(historicalFilms, root))
      ensures Valid()
    {
      var w := Calibrate(historicalFilms, root);
      calibratedWeights := w;
      ValidateCalibration();
      CalibrationProperties(historicalFilms, root);
      NormalizedNormal(CalibrationOf(historicalFilms, root));
    }

    /** `apply_trailer_phi`: shift the weights towards PIVC and PDC by the
        trailer adjustment, divide by their total, and keep the sources. */
    method ApplyTrailerPhi(metrics: TrailerMetrics, sources: Option<map<string, string>>)
      requires Complete(calibratedWeights)
      modifies this
      ensures calibratedWeights == AfterTrailer(old(calibratedWeights), metrics)
      ensures lastPhiSources == SourcesOrDefault(sources)
      ensures historicalFilms == old(historicalFilms)
      ensures old(Valid()) ==> Valid()
    {
      var newWeights := ShiftWeights(calibratedWeights, TrailerAdjustment(metrics));
      if Valid() {
        ShiftedKeepsNormal(calibratedWeights, TrailerAdjustment(metrics));
      }
      calibratedWeights := newWeights;
      lastPhiSources := SourcesOrDefault(sources);
    }

    /** `analyze_hail_mary`: score, load and asymmetry of Project Hail Mary;
        the calibration is redone when the load exceeds the critical load;
        then the cross-validation on the shuffled films. */
    method AnalyzeHailMary(root: real -> real, shuffled: seq<Film>) returns (report: HailMaryReport)
      requires AllComplete(historicalFilms) && Complete(calibratedWeights) && PositiveRoot(root)
      requires multiset(shuffled) == multiset(historicalFilms)
      modifies this
      ensures historicalFilms == old(historicalFilms) && lastPhiSources == old(lastPhiSources)
      ensures AllComplete(shuffled)
      ensures report.molScore == Score(HailMary, old(calibratedWeights))
      ensures report.load == 1.0 - report.molScore
      ensures report.asymmetry == 1.0 - MinScore(HailMary) / MaxScore(HailMary)
      ensures report.phiActivated <==> report.load > CriticalLoad
      ensures report.phiActivated ==> calibratedWeights == Normalized(CalibrationOf(historicalFilms, root))
      ensures !report.phiActivated ==> calibratedWeights == old(calibratedWeights)
      ensures report.validation == ValidationOf(shuffled, root)
      ensures report.weights == calibratedWeights && report.phiSources == lastPhiSources
      ensures report.principles == HailMary
    {
      var molScore := Score(HailMary, calibratedWeights);
      var load := 1.0 - molScore;
      var asymmetry := 1.0 - MinScore(HailMary) / MaxScore(HailMary);
      var phiActivated := false;
      if load > CriticalLoad {
        RecalibratePhi(root);
        phiActivated := true;
      }
      PermutationComplete(shuffled, historicalFilms);
      var validation := CrossValidate(shuffled, root);
      report := HailMaryReport(molScore, load, asymmetry, phiActivated, validation, calibratedWeights,
                               HailMary, lastPhiSources);
    }

    /** `stress_tests`: one row per stress case, in order. */
    method StressTests() returns (results: seq<StressResult>)
      requires Complete(calibratedWeights)
      ensures |results| == |StressCases|
      ensures forall i :: 0 <= i < |results| ==> results[i] == StressResultOf(StressCases[i], calibratedWeights)
    {
      results := [];
      for i := 0 to |StressCases|
        invariant |results| == i
        invariant forall j :: 0 <= j < i ==> results[j] == StressResultOf(StressCases[j], calibratedWeights)
      {
        var c := StressCases[i];
        var score := Score(c.principles, calibratedWeights);
        results := results + [StressResult(c.name, score, 1.0 - score, Asymmetry(c.principles))];
      }
    }

    /** `get_detailed_breakdown` with the current weights. */
    method DetailedBreakdown() returns (breakdown: map<Principle, Contribution>)
      requires Complete(calibratedWeights)
      ensures breakdown == Breakdown(calibratedWeights)
    {
      breakdown := Breakdown(calibratedWeights);
    }
  }

  /** The sources `main` records for the trailer shift. */
  const TrailerSources: map<string, string> := map[
    "ScreenRant" := "https://screenrant.com/project-hail-mary-ryan-gosling-box-office-fall-guy-redemption/",
    "YouTube (official trailer)" := "https://www.youtube.com/watch?v=---",
    "Wikipedia" := "https://en.wikipedia.org/wiki/Project_Hail_Mary_(film)",
    "MOL Law DOI" := "https://doi.org/10.5281/zenodo.17445023"]

  /** `main`: build the analyzer, apply the reaction to the trailer, analyse
      Project Hail Mary. The weights stay normal throughout, so the
      recalibration is never triggered, and all five folds are used. */
  method Forecast(root: real -> real, shuffled: seq<Film>)
    returns (analyzer: FullMolAnalyzer, report: HailMaryReport)
    requires PositiveRoot(root) && multiset(shuffled) == multiset(HistoricalFilms)
    ensures fresh(analyzer) && analyzer.Valid()
    ensures !report.phiActivated
    ensures 0.15 <= report.load <= 0.24
    ensures report.validation.folds == FoldCount
  {
    analyzer := new FullMolAnalyzer(root);
    var trailer := TrailerMetrics(Some(400_000_000.0), Some(0.96), Some(0.87));
    analyzer.ApplyTrailerPhi(trailer, Some(TrailerSources));
    HailMaryBelowCriticalLoad(analyzer.calibratedWeights);
    report := analyzer.AnalyzeHailMary(root, shuffled);
    HistoricalFilmsComplete();
    PermutationComplete(shuffled, HistoricalFilms);
    assert |shuffled| == |HistoricalFilms| by {
      assert |multiset(shuffled)| == |multiset(HistoricalFilms)|;
    }
    ValidationProperties(shuffled, root);
  }
}
