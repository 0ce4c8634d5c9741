/**
 * The rule-based HER2 scorer of `CancerClassifier`: two whole-image
 * statistics and a handful of random draws become a severity result.
 * The statistics (numpy mean and standard deviation of the normalised
 * buffer) and the draws are inputs; everything computed from them is here.
 */
module CancerClassifier {
  import opened Wrappers
  import opened Images

  datatype Her2Status = Positive | Equivocal | Negative
  datatype StainingIntensity = Strong | Moderate | Weak
  datatype CancerGrade = Grade1 | Grade2 | Grade3

  /** The status string the result dictionary carries and the database stores. */
  function Her2Name(s: Her2Status): string
  {
    match s
    case Positive => "positive"
    case Equivocal => "equivocal"
    case Negative => "negative"
  }

  /** Mean and standard deviation of the normalised image buffer. */
  datatype ImageStats = ImageStats(mean: real, std: real)

  /**
   * The random draws of one call. `confidence`, `percentage` and `jitter`
   * are values of `random.random()`, which `random.uniform(lo, hi)` scales
   * to `lo + (hi - lo) * u`; `totalCells` is the value of
   * `random.randint(800, 1500)`.
   */
  datatype Draws = Draws(confidence: real, percentage: real, jitter: real, totalCells: int)

  predicate ValidDraws(d: Draws)
  {
    && 0.0 <= d.confidence <= 1.0
    && 0.0 <= d.percentage <= 1.0
    && 0.0 <= d.jitter <= 1.0
    && 800 <= d.totalCells <= 1500
  }

  /** The dictionary returned by `_generate_synthetic_predictions`. */
  datatype Prediction = Prediction(
    her2Status: Her2Status,
    confidence: real,
    cancerGrade: CancerGrade,
    biomarkerPercentage: real,
    stainingIntensity: StainingIntensity,
    positiveCells: int,
    totalCells: int,
    stainedArea: real)

  /** A closed interval that a draw is scaled into. */
  datatype Band = Band(lo: real, hi: real)

  predicate InBand(x: real, b: Band)
  {
    b.lo <= x <= b.hi
  }

  /**
   * What a severity result promises its readers: a confidence fraction, a
   * percentage, positive cells within the total, a stained area within
   * 100 %, and grade and intensity that agree with the thresholds.
   */
  predicate ValidPrediction(p: Prediction)
  {
    && 0.0 <= p.confidence <= 1.0
    && 0.0 <= p.biomarkerPercentage <= 100.0
    && 0 <= p.positiveCells <= p.totalCells
    && 0.0 <= p.stainedArea <= 100.0
    && p.cancerGrade == GradeFor(p.biomarkerPercentage)
    && p.stainingIntensity == IntensityFor(p.her2Status)
  }

  /** `preprocess_image`'s normalisation of one channel value: `v / 255.0`. */
  function UnitChannel(v: int): (x: real)
    ensures IsByte(v) ==> 0.0 <= x <= 1.0
    ensures v == 0 ==> x == 0.0
    ensures v == 255 ==> x == 1.0
  {
    v as real / 255.0
  }

  /** Scaling by a unit fraction stays between zero and the scaled value. */
  lemma ScaleWithin(a: real, u: real)
    requires 0.0 <= a && 0.0 <= u <= 1.0
    ensures 0.0 <= a * u <= a
  {
  }

  /** `random.uniform(lo, hi)` for the unit draw `u`. */
  function Uniform(lo: real, hi: real, u: real): (x: real)
    requires lo <= hi
    requires 0.0 <= u <= 1.0
    ensures lo <= x <= hi
    ensures u == 0.0 ==> x == lo
    ensures u == 1.0 ==> x == hi
  {
    var width := hi - lo;
    ScaleWithin(width, u);
    lo + width * u
  }

  /**
   * The status thresholds. Both comparisons are strict, and a mean of at
   * most 0.4 is negative whatever the standard deviation.
   */
  function Classify(stats: ImageStats): (s: Her2Status)
    ensures s == Positive <==> stats.mean > 0.6 && stats.std > 0.15
    ensures s == Negative <==> stats.mean <= 0.4
    ensures s == Equivocal <==> 0.4 < stats.mean && (stats.mean <= 0.6 || stats.std <= 0.15)
  {
    if stats.mean > 0.6 && stats.std > 0.15 then Positive
    else if stats.mean > 0.4 then Equivocal
    else Negative
  }

  function ConfidenceBand(s: Her2Status): (b: Band)
    ensures 0.5 <= b.lo <= b.hi <= 0.95
    ensures s == Positive ==> b == Band(0.75, 0.95)
    ensures s == Equivocal ==> b == Band(0.5, 0.75)
    ensures s == Negative ==> b == Band(0.8, 0.95)
  {
    match s
    case Positive => Band(0.75, 0.95)
    case Equivocal => Band(0.5, 0.75)
    case Negative => Band(0.8, 0.95)
  }

  function PercentageBand(s: Her2Status): (b: Band)
    ensures 0.0 <= b.lo <= b.hi <= 90.0
    ensures s == Positive ==> b == Band(60.0, 90.0)
    ensures s == Equivocal ==> b == Band(20.0, 60.0)
    ensures s == Negative ==> b == Band(0.0, 20.0)
  {
    match s
    case Positive => Band(60.0, 90.0)
    case Equivocal => Band(20.0, 60.0)
    case Negative => Band(0.0, 20.0)
  }

  /** The staining intensity is decided by the status alone. */
  function IntensityFor(s: Her2Status): (i: StainingIntensity)
    ensures i == Strong <==> s == Positive
    ensures i == Moderate <==> s == Equivocal
    ensures i == Weak <==> s == Negative
  {
    match s
    case Positive => Strong
    case Equivocal => Moderate
    case Negative => Weak
  }

  /** The grade thresholds on the biomarker percentage, strict like the status ones. */
  function GradeFor(pct: real): (g: CancerGrade)
    ensures g == Grade3 <==> pct > 70.0
    ensures g == Grade1 <==> pct <= 30.0
  {
    if pct > 70.0 then Grade3
    else if pct > 30.0 then Grade2
    else Grade1
  }

  /** `int(total * (pct / 100))`: truncation, which is the floor for these non-negative values. */
  function PositiveCells(total: int, pct: real): (n: int)
    requires 0 <= total
    requires 0.0 <= pct <= 100.0
    ensures 0 <= n <= total
    ensures n as real <= total as real * (pct / 100.0) < n as real + 1.0
  {
    var x := total as real * (pct / 100.0);
    assert 0.0 <= x <= total as real by {
      assert total as real * (pct / 100.0) <= total as real * 1.0;
    }
    x.Floor
  }

  /** `min(pct * factor, 100.0)`. */
  function StainedArea(pct: real, factor: real): (a: real)
    requires 0.0 <= pct
    requires 0.0 <= factor
    ensures 0.0 <= a <= 100.0
    ensures a <= pct * factor
    ensures pct * factor <= 100.0 ==> a == pct * factor
    ensures 100.0 <= pct * factor ==> a == 100.0
    ensures 0.8 <= factor <= 1.2 ==> a == 100.0 || 0.8 * pct <= a <= 1.2 * pct
  {
    var area := pct * factor;
    assert 0.8 <= factor <= 1.2 ==> 0.8 * pct <= area <= 1.2 * pct by {
      if 0.8 <= factor <= 1.2 {
        assert area - 0.8 * pct == pct * (factor - 0.8);
        assert 1.2 * pct - area == pct * (1.2 - factor);
        ScaleWithin(pct, factor - 0.8);
        ScaleWithin(pct, 1.2 - factor);
      }
    }
    if area <= 100.0 then area else 100.0
  }

  /** `_generate_synthetic_predictions` for the given statistics and draws. */
  function GenerateSyntheticPredictions(stats: ImageStats, d: Draws): (p: Prediction)
    requires ValidDraws(d)
    ensures p.her2Status == Classify(stats)
    ensures ValidPrediction(p)
    ensures InBand(p.confidence, ConfidenceBand(p.her2Status))
    ensures InBand(p.biomarkerPercentage, PercentageBand(p.her2Status))
    ensures 800 <= p.totalCells <= 1500
    ensures p.positiveCells as real <= p.totalCells as real * (p.biomarkerPercentage / 100.0)
              < p.positiveCells as real + 1.0
    ensures p.stainedArea == 100.0 || 0.8 * p.biomarkerPercentage <= p.stainedArea <= 1.2 * p.biomarkerPercentage
  {
    var status := Classify(stats);
    var confidence := Uniform(ConfidenceBand(status).lo, ConfidenceBand(status).hi, d.confidence);
    var pct := Uniform(PercentageBand(status).lo, PercentageBand(status).hi, d.percentage);
    var total := d.totalCells;
    var area := StainedArea(pct, Uniform(0.8, 1.2, d.jitter));
    Prediction(status, confidence, GradeFor(pct), pct, IntensityFor(status),
               PositiveCells(total, pct), total, area)
  }

  /**
   * `predict`: an unreadable image raises the loader's error; otherwise the
   * result is the synthetic prediction for the image's statistics.
   */
  function Predict(image: Option<ImageStats>, path: string, d: Draws): (r: Result<Prediction, string>)
    requires ValidDraws(d)
    ensures r.Failure? <==> image.None?
    ensures r.Failure? ==> r.error == LoadError(path)
    ensures r.Success? ==> ValidPrediction(r.value) && r.value.her2Status == Classify(image.value)
  {
    match image
    case None => Failure(LoadError(path))
    case Some(stats) => Success(GenerateSyntheticPredictions(stats, d))
  }

  /** The grade is tied to the status through the percentage bands. */
  lemma GradeFollowsStatus(stats: ImageStats, d: Draws)
    requires ValidDraws(d)
    ensures var p := GenerateSyntheticPredictions(stats, d);
            && (p.her2Status == Negative ==> p.cancerGrade == Grade1)
            && (p.her2Status == Positive ==> p.cancerGrade != Grade1)
            && (p.her2Status == Equivocal ==> p.cancerGrade != Grade3)
  {
  }

  /** Two calls with equal statistics agree on status and intensity, whatever they draw. */
  lemma CategoriesDependOnStatsOnly(stats: ImageStats, d1: Draws, d2: Draws)
    requires ValidDraws(d1) && ValidDraws(d2)
    ensures GenerateSyntheticPredictions(stats, d1).her2Status == GenerateSyntheticPredictions(stats, d2).her2Status
    ensures GenerateSyntheticPredictions(stats, d1).stainingIntensity
            == GenerateSyntheticPredictions(stats, d2).stainingIntensity
  {
  }

  /**
   * The grade is not decided by the statistics: an equivocal image is
   * Grade 1 when 20 % is drawn and Grade 2 when 60 % is drawn.
   */
  lemma GradeDependsOnDraw()
    ensures GenerateSyntheticPredictions(ImageStats(0.5, 0.0), Draws(0.0, 0.0, 0.0, 800)).cancerGrade == Grade1
    ensures GenerateSyntheticPredictions(ImageStats(0.5, 0.0), Draws(0.0, 1.0, 0.0, 800)).cancerGrade == Grade2
  {
  }

  /** Boundary cases of the strict comparisons and of the area cap. */
  lemma Boundaries()
    ensures Classify(ImageStats(0.6, 0.15)) == Equivocal
    ensures Classify(ImageStats(0.6, 1.0)) == Equivocal
    ensures Classify(ImageStats(0.4, 1.0)) == Negative
    ensures GradeFor(30.0) == Grade1 && GradeFor(70.0) == Grade2
    ensures StainedArea(90.0, Uniform(0.8, 1.2, 1.0)) == 100.0
  {
  }
}
