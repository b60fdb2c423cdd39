/**
 * DetectSpike: compares a current cost with a baseline mean and standard
 * deviation, and calls it a spike when both the percentage rise and the
 * z-score exceed their thresholds.
 */
module DetectSpike {
  import opened Outcomes

  /** A z-score: a real number, or the +∞ of a change over a zero deviation. */
  datatype ZScore = Finite(value: real) | PosInf

  /** `z > threshold` with ∞ above every real. */
  predicate Exceeds(z: ZScore, threshold: real)
  {
    z.PosInf? || z.value > threshold
  }

  /** Bounds of one confidence interval, each possibly missing. */
  datatype Interval = Interval(lower: Option<real>, upper: Option<real>)

  /** The baseline document: its two statistics and its intervals, or text that is not JSON. */
  datatype Baseline =
    | InvalidJson
    | BaselineDoc(mean: Field<real>, std: Field<real>, ci95: Interval, ci99: Interval)

  /** `lower <= value <= upper`, a missing lower bound being 0 and a missing upper bound ∞. */
  predicate Within(value: real, i: Interval)
  {
    i.lower.GetOr(0.0) <= value && (i.upper.None? || value <= i.upper.value)
  }

  /** Step 4: the percentage deviation and whether it exceeds the threshold. */
  function Deviation(current: real, mean: real, thresholdPct: real): (real, bool)
  {
    if mean == 0.0 then
      if current > 0.0 then (100.0, true) else (0.0, false)
    else
      var d := (current - mean) / mean * 100.0;
      (d, d > thresholdPct)
  }

  /** Step 5. */
  function ZScoreOf(current: real, mean: real, std: real): ZScore
  {
    if std == 0.0 then (if current == mean then Finite(0.0) else PosInf)
    else Finite((current - mean) / std)
  }

  datatype Severity = NoSeverity | LowSeverity | MediumSeverity | HighSeverity | Critical

  /** Step 7. */
  function SeverityOf(deviationPct: real): Severity
  {
    if deviationPct <= 20.0 then NoSeverity
    else if deviationPct <= 35.0 then LowSeverity
    else if deviationPct <= 50.0 then MediumSeverity
    else if deviationPct <= 100.0 then HighSeverity
    else Critical
  }

  function Rank(s: Severity): nat
  {
    match s
    case NoSeverity => 0
    case LowSeverity => 1
    case MediumSeverity => 2
    case HighSeverity => 3
    case Critical => 4
  }

  /** A larger deviation never gives a lower severity. */
  lemma SeverityMonotone(d1: real, d2: real)
    ensures d1 <= d2 ==> Rank(SeverityOf(d1)) <= Rank(SeverityOf(d2))
  {
  }

  function Min100(x: real): real
  {
    if x < 100.0 then x else 100.0
  }

  /** Step 8, before rounding: the mean of the two capped ratios, each scaled so the threshold scores 50. */
  function Confidence(z: ZScore, deviationPct: real, thresholdPct: real, zThreshold: real): real
    requires thresholdPct > 0.0 && zThreshold > 0.0
  {
    var zc := match z
      case PosInf => 100.0
      case Finite(v) => Min100((if v < 0.0 then -v else v) / zThreshold * 50.0);
    (zc + Min100(deviationPct / thresholdPct * 50.0)) / 2.0
  }

  /** The confidence never exceeds 100, and an infinite z-score alone contributes 50. */
  lemma ConfidenceBounds(z: ZScore, deviationPct: real, thresholdPct: real, zThreshold: real)
    requires thresholdPct > 0.0 && zThreshold > 0.0
    ensures Confidence(z, deviationPct, thresholdPct, zThreshold) <= 100.0
    ensures z.PosInf? ==> Confidence(z, deviationPct, thresholdPct, zThreshold) == 50.0 + Min100(deviationPct / thresholdPct * 50.0) / 2.0
  {
  }

  datatype SpikeReport = SpikeReport(
    isSpike: bool,
    current: real,
    mean: real,
    deviationAmount: real,
    deviationPct: real,
    z: ZScore,
    severity: Severity,
    confidence: real,
    thresholdPct: real,
    zThreshold: real,
    percentExceeded: bool,
    zExceeded: bool,
    within95: bool,
    within99: bool)

  /** Steps 4 to 10 for validated inputs. */
  function Analyse(current: real, mean: real, std: real, ci95: Interval, ci99: Interval,
                   thresholdPct: real, zThreshold: real): SpikeReport
    requires thresholdPct > 0.0 && zThreshold > 0.0
  {
    var (deviation, overPct) := Deviation(current, mean, thresholdPct);
    var z := ZScoreOf(current, mean, std);
    var overZ := Exceeds(z, zThreshold);
    SpikeReport(overPct && overZ, current, mean, current - mean, deviation, z, SeverityOf(deviation),
      Confidence(z, deviation, thresholdPct, zThreshold), thresholdPct, zThreshold, overPct, overZ,
      Within(current, ci95), Within(current, ci99))
  }

  const NegativeCurrent := "current_value cannot be negative. Provide valid cost value."
  const InvalidBaseline := "Invalid JSON in baseline parameter."
  const MissingBaseline := "baseline must contain 'baseline_mean' and 'std_deviation' fields."
  const MalformedBaseline := "Invalid baseline data structure."
  const BadThresholdPct := "threshold_percent must be greater than zero. Common values: 15-30%."
  const BadZThreshold := "z_score_threshold must be greater than zero."

  /** The tool's `run`. */
  function Detect(current: real, baseline: Baseline, thresholdPct: real, zThreshold: real): Outcome<SpikeReport>
  {
    if current < 0.0 then Error(NegativeCurrent)
    else if baseline.InvalidJson? then Error(InvalidBaseline)
    else if baseline.mean.Absent? || baseline.std.Absent? then
      Error(MissingBaseline)
    else if baseline.mean.Invalid? || baseline.std.Invalid? then Error(MalformedBaseline)
    else if thresholdPct <= 0.0 then Error(BadThresholdPct)
    else if zThreshold <= 0.0 then Error(BadZThreshold)
    else Ok(Analyse(current, baseline.mean.value, baseline.std.value, baseline.ci95, baseline.ci99, thresholdPct, zThreshold))
  }

  /** The tool answers exactly for a non-negative value, numeric mean and deviation and positive thresholds; it never warns. */
  lemma DetectAnswers(current: real, baseline: Baseline, thresholdPct: real, zThreshold: real)
    ensures !Detect(current, baseline, thresholdPct, zThreshold).Warning?
    ensures Detect(current, baseline, thresholdPct, zThreshold).Ok? <==>
      current >= 0.0 && baseline.BaselineDoc? && baseline.mean.Present? && baseline.std.Present?
      && thresholdPct > 0.0 && zThreshold > 0.0
  {
  }

  /**
   * The percentage and z-score tests, case by case: over a zero mean any
   * positive cost passes the percentage test with a deviation of 100; over
   * a zero deviation any change at all gives z = ∞; and a spike is exactly
   * the conjunction of the two tests.
   */
  lemma SpikeTests(current: real, mean: real, std: real, ci95: Interval, ci99: Interval, thresholdPct: real, zThreshold: real)
    requires thresholdPct > 0.0 && zThreshold > 0.0
    ensures var r := Analyse(current, mean, std, ci95, ci99, thresholdPct, zThreshold);
      && (r.isSpike <==> r.percentExceeded && r.zExceeded)
      && (mean == 0.0 ==> (r.percentExceeded <==> current > 0.0) && r.deviationPct == (if current > 0.0 then 100.0 else 0.0))
      && (mean != 0.0 ==> r.deviationPct == (current - mean) / mean * 100.0 && (r.percentExceeded <==> r.deviationPct > thresholdPct))
      && (std == 0.0 ==> (r.z == Finite(0.0) <==> current == mean) && (r.z == PosInf <==> current != mean))
      && (std != 0.0 ==> r.z == Finite((current - mean) / std))
      && (r.z.PosInf? ==> r.zExceeded)
      && r.confidence <= 100.0
  {
    var (deviation, _) := Deviation(current, mean, thresholdPct);
    ConfidenceBounds(ZScoreOf(current, mean, std), deviation, thresholdPct, zThreshold);
  }

  /**
   * Over a non-negative mean a spike is always a rise above the mean; over a
   * positive mean the rise exceeds the threshold, while over a zero mean any
   * positive cost counts, whatever the threshold.
   */
  lemma SpikeIsRise(current: real, mean: real, std: real, ci95: Interval, ci99: Interval, thresholdPct: real, zThreshold: real)
    requires thresholdPct > 0.0 && zThreshold > 0.0 && mean >= 0.0
    requires Analyse(current, mean, std, ci95, ci99, thresholdPct, zThreshold).isSpike
    ensures current > mean
    ensures mean > 0.0 ==> Analyse(current, mean, std, ci95, ci99, thresholdPct, zThreshold).deviationPct > thresholdPct
  {
    DeviationRise(current, mean, thresholdPct);
  }

  lemma DeviationRise(current: real, mean: real, thresholdPct: real)
    requires thresholdPct > 0.0 && mean >= 0.0
    requires Deviation(current, mean, thresholdPct).1
    ensures current > mean
    ensures mean > 0.0 ==> Deviation(current, mean, thresholdPct).0 > thresholdPct
  {
    if mean > 0.0 {
      var q := (current - mean) / mean;
      assert q * 100.0 > thresholdPct;
      PositiveNumerator(current - mean, mean);
    }
  }

  lemma PositiveNumerator(x: real, y: real)
    requires y > 0.0 && x / y > 0.0
    ensures x > 0.0
  {
    assert x == (x / y) * y;
  }

  /** Missing interval bounds default to [0, ∞): a non-negative value lies within an interval with no bounds. */
  lemma WithinDefaults(value: real)
    requires value >= 0.0
    ensures Within(value, Interval(None, None))
    ensures forall u :: Within(value, Interval(None, Some(u))) <==> value <= u
  {
  }
}
