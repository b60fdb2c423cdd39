/**
 * DetectTrendChange: fits a least-squares line through the most recent
 * daily costs (x being the position 0, 1, … of each point after sorting by
 * date) and reports its direction, strength and significance.
 *
 * The valid points are collected in a loop and sorted in place, as the
 * tool does; the regression is a set of sums over those points.
 */
module DetectTrendChange {
  import opened Outcomes
  import opened Seqs
  import opened Sorting
  import opened Text

  /** One history entry: `cost` must pass `float()` and `date` must parse as YYYY-MM-DD, here a day number. */
  datatype HistoryEntry = HistoryEntry(cost: Field<real>, date: Field<int>)

  datatype HistoryInput = InvalidJson | NotAList | Entries(entries: seq<HistoryEntry>)

  datatype Point = Point(date: int, cost: real)

  predicate Usable(e: HistoryEntry)
  {
    e.cost.Present? && e.date.Present?
  }

  function PointOf(e: HistoryEntry): Point
  {
    Point(if e.date.Present? then e.date.value else 0, if e.cost.Present? then e.cost.value else 0.0)
  }

  /** Step 3's loop: entries with a missing or unparsable field are skipped. */
  method ExtractPoints(entries: seq<HistoryEntry>) returns (points: seq<Point>)
    ensures points == MapFilter(entries, Usable, PointOf)
  {
    points := [];
    var i := 0;
    while i < |entries|
      invariant 0 <= i <= |entries|
      invariant points == MapFilter(entries[..i], Usable, PointOf)
    {
      assert entries[..i + 1][..i] == entries[..i];
      var e := entries[i];
      if e.cost.Present? && e.date.Present? {
        points := points + [Point(e.date.value, e.cost.value)];
      }
      i := i + 1;
    }
    assert entries[..|entries|] == entries;
  }

  function DateKey(p: Point): real
  {
    p.date as real
  }

  /** `data_points.sort(key=lambda x: x["date"])`, in place. */
  method SortByDate(points: seq<Point>) returns (sorted: seq<Point>)
    ensures sorted == SortBy(points, DateKey)
  {
    var a := new Point[|points|](k requires 0 <= k < |points| => points[k]);
    assert a[..] == points;
    SortInPlace(a, DateKey);
    sorted := a[..];
  }

  /** `s[-k:]`: the last `k` elements, or all of them when there are fewer. */
  function LastN<T>(s: seq<T>, k: nat): (r: seq<T>)
    ensures |r| == (if k < |s| then k else |s|)
    ensures r == s[|s| - |r|..]
  {
    if k < |s| then s[|s| - k..] else s
  }

  function Sq(x: real): real
  {
    x * x
  }

  lemma SqNonNegative(x: real)
    ensures Sq(x) >= 0.0
  {
    if x < 0.0 {
      assert Sq(x) == (-x) * (-x);
    }
  }

  lemma SqPositive(x: real)
    requires x != 0.0
    ensures Sq(x) > 0.0
  {
    if x > 0.0 {
      calc {
        Sq(x);
        x * x;
      >
        0.0;
      }
    } else {
      calc {
        Sq(x);
        (-x) * (-x);
      >
        0.0;
      }
    }
  }

  function Id(y: real): real
  {
    y
  }

  /** `statistics.mean`. */
  function Mean(ys: seq<real>): real
    requires ys != []
  {
    SumOf(ys, Id) / |ys| as real
  }

  /** The x values `range(n)`. */
  function Indices(n: nat): (r: seq<real>)
    ensures |r| == n
    ensures forall k :: 0 <= k < n ==> r[k] == k as real
  {
    seq(n, k => k as real)
  }

  /** `sum((x - mean_x) ** 2 for x in range(n))`. */
  function Denominator(n: nat, meanX: real): real
  {
    if n == 0 then 0.0 else Denominator(n - 1, meanX) + Sq((n - 1) as real - meanX)
  }

  /** `sum((x - mean_x) * (y - mean_y) ...)` with x the position of y. */
  function Numerator(ys: seq<real>, meanX: real, meanY: real): real
  {
    if ys == [] then 0.0
    else Numerator(ys[..|ys| - 1], meanX, meanY) + ((|ys| - 1) as real - meanX) * (ys[|ys| - 1] - meanY)
  }

  /** `sum((y - mean_y) ** 2 for y in ys)`. */
  function SsTotal(ys: seq<real>, meanY: real): real
  {
    if ys == [] then 0.0 else SsTotal(ys[..|ys| - 1], meanY) + Sq(ys[|ys| - 1] - meanY)
  }

  /** `sum((y - (slope * x + intercept)) ** 2 ...)`. */
  function SsResidual(ys: seq<real>, slope: real, intercept: real): real
  {
    if ys == [] then 0.0
    else SsResidual(ys[..|ys| - 1], slope, intercept) + Sq(ys[|ys| - 1] - (slope * (|ys| - 1) as real + intercept))
  }

  lemma {:induction false} DenominatorGrows(n: nat, m: nat, meanX: real)
    requires m <= n
    ensures Denominator(m, meanX) <= Denominator(n, meanX)
    decreases n
  {
    if m < n {
      DenominatorGrows(n - 1, m, meanX);
      SqNonNegative((n - 1) as real - meanX);
    }
  }

  /**
   * With two or more points the x values are not all equal, so the
   * denominator is positive whatever the mean: the tool's "all dates are
   * identical" error can never be returned.
   */
  lemma DenominatorPositive(n: nat, meanX: real)
    requires n >= 2
    ensures Denominator(n, meanX) > 0.0
  {
    DenominatorGrows(n, 2, meanX);
    SqNonNegative(0.0 - meanX);
    SqNonNegative(1.0 - meanX);
    if meanX == 0.0 {
      assert Sq(1.0 - meanX) == 1.0;
    } else {
      SqPositive(0.0 - meanX);
    }
    assert Denominator(1, meanX) == Sq(0.0 - meanX);
    assert Denominator(2, meanX) == Sq(0.0 - meanX) + Sq(1.0 - meanX);
  }

  lemma {:induction false} SsNonNegative(ys: seq<real>, meanY: real, slope: real, intercept: real)
    ensures SsTotal(ys, meanY) >= 0.0 && SsResidual(ys, slope, intercept) >= 0.0
  {
    if ys != [] {
      SsNonNegative(ys[..|ys| - 1], meanY, slope, intercept);
      SqNonNegative(ys[|ys| - 1] - meanY);
      SqNonNegative(ys[|ys| - 1] - (slope * (|ys| - 1) as real + intercept));
    }
  }

  predicate Constant(ys: seq<real>)
  {
    forall i, j :: 0 <= i < |ys| && 0 <= j < |ys| ==> ys[i] == ys[j]
  }

  /** The total sum of squares about a value is zero exactly when every cost equals that value. */
  lemma {:induction false} SsTotalZero(ys: seq<real>, meanY: real)
    ensures SsTotal(ys, meanY) == 0.0 <==> forall k :: 0 <= k < |ys| ==> ys[k] == meanY
  {
    if ys != [] {
      var init := ys[..|ys| - 1];
      SsTotalZero(init, meanY);
      SsNonNegative(init, meanY, 0.0, 0.0);
      SqNonNegative(ys[|ys| - 1] - meanY);
      if ys[|ys| - 1] != meanY {
        SqPositive(ys[|ys| - 1] - meanY);
      }
      assert forall k :: 0 <= k < |ys| - 1 ==> init[k] == ys[k];
    }
  }

  lemma {:induction false} SumOfConstant(ys: seq<real>, c: real)
    requires forall k :: 0 <= k < |ys| ==> ys[k] == c
    ensures SumOf(ys, Id) == |ys| as real * c
  {
    if ys != [] {
      SumOfConstant(ys[..|ys| - 1], c);
    }
  }

  /** The mean of equal costs is that cost. */
  lemma MeanOfConstant(ys: seq<real>)
    requires ys != [] && Constant(ys)
    ensures Mean(ys) == ys[0]
  {
    SumOfConstant(ys, ys[0]);
  }

  /** The total sum of squares about the mean is zero exactly when the costs are all equal. */
  lemma SsTotalZeroIffConstant(ys: seq<real>)
    requires ys != []
    ensures SsTotal(ys, Mean(ys)) == 0.0 <==> Constant(ys)
  {
    SsTotalZero(ys, Mean(ys));
    if Constant(ys) {
      MeanOfConstant(ys);
    }
  }

  /** `1 - ss_residual / ss_total`, or 0 when the costs do not vary. */
  function RSquared(ssTotal: real, ssResidual: real): real
  {
    if ssTotal == 0.0 then 0.0 else 1.0 - ssResidual / ssTotal
  }

  datatype Direction = Stable | Increasing | Decreasing

  function Abs(x: real): real
  {
    if x < 0.0 then -x else x
  }

  /** Step 7. */
  function DirectionOf(slope: real, threshold: real): Direction
  {
    if Abs(slope) < threshold then Stable else if slope > 0.0 then Increasing else Decreasing
  }

  /** Step 9. */
  predicate Significant(rSquared: real, slope: real, threshold: real)
  {
    rSquared > 0.5 && Abs(slope) >= threshold && Abs(slope * 30.0) > 100.0
  }

  /** Stable exactly below the threshold, otherwise the sign of the slope; a significant trend is never stable and moves more than 10/3 a day. */
  lemma DirectionFacts(rSquared: real, slope: real, threshold: real)
    ensures DirectionOf(slope, threshold) == Stable <==> Abs(slope) < threshold
    ensures DirectionOf(slope, threshold) == Increasing <==> Abs(slope) >= threshold && slope > 0.0
    ensures DirectionOf(slope, threshold) == Decreasing <==> Abs(slope) >= threshold && slope <= 0.0
    ensures Significant(rSquared, slope, threshold) ==> DirectionOf(slope, threshold) != Stable && Abs(slope) > 100.0 / 30.0
  {
  }

  function Min30(x: real): real
  {
    if x < 30.0 then x else 30.0
  }

  /** Step 10, before rounding. */
  function TrendConfidence(rSquared: real, n: nat): real
  {
    rSquared * 70.0 + Min30(n as real / 14.0 * 30.0)
  }

  datatype Strength = VeryStrong | Strong | Moderate | Weak | NoClearTrend

  /** `_interpret_r_squared`. */
  function Interpret(rSquared: real): Strength
  {
    if rSquared >= 0.9 then VeryStrong
    else if rSquared >= 0.7 then Strong
    else if rSquared >= 0.5 then Moderate
    else if rSquared >= 0.3 then Weak
    else NoClearTrend
  }

  function StrengthRank(s: Strength): nat
  {
    match s
    case NoClearTrend => 0
    case Weak => 1
    case Moderate => 2
    case Strong => 3
    case VeryStrong => 4
  }

  /** A better fit never reads as a weaker trend, and a significant trend is at least moderate. */
  lemma InterpretMonotone(r1: real, r2: real)
    ensures r1 <= r2 ==> StrengthRank(Interpret(r1)) <= StrengthRank(Interpret(r2))
    ensures r1 > 0.5 ==> StrengthRank(Interpret(r1)) >= 2
  {
  }

  datatype TrendReport = TrendReport(
    direction: Direction,
    slope: real,
    intercept: real,
    rSquared: real,
    strength: Strength,
    isSignificant: bool,
    confidence: real,
    projected7: real,
    projected30: real,
    projected90: real,
    daysAnalysed: nat,
    start: Point,
    end: Point,
    totalChange: real,
    minSlope: real,
    lookbackDays: int)

  /** `[p["cost"] for p in recent_points]`. */
  function Costs(points: seq<Point>): (r: seq<real>)
    ensures |r| == |points|
    ensures forall k :: 0 <= k < |points| ==> r[k] == points[k].cost
  {
    seq(|points|, k requires 0 <= k < |points| => points[k].cost)
  }

  /** Steps 4 to 11 on the sorted points. */
  function Regression(sorted: seq<Point>, lookbackDays: int, threshold: real): Outcome<TrendReport>
    requires |sorted| >= 7 && lookbackDays >= 7
  {
    var recent := LastN(sorted, lookbackDays as nat);
    var window := if |recent| < 7 then sorted else recent;
    var n := |window|;
    var ys := Costs(window);
    var meanX := Mean(Indices(n));
    var meanY := Mean(ys);
    var denominator := Denominator(n, meanX);
    if denominator == 0.0 then Error(IdenticalDates)
    else
      var slope := Numerator(ys, meanX, meanY) / denominator;
      var intercept := meanY - slope * meanX;
      var r2 := RSquared(SsTotal(ys, meanY), SsResidual(ys, slope, intercept));
      Ok(TrendReport(DirectionOf(slope, threshold), slope, intercept, r2, Interpret(r2),
        Significant(r2, slope, threshold), TrendConfidence(r2, n), slope * 7.0, slope * 30.0, slope * 90.0,
        n, window[0], window[n - 1], window[n - 1].cost - window[0].cost, threshold, lookbackDays))
  }

  const IdenticalDates := "Cannot calculate trend - all dates are identical."
  const InvalidHistory := "Invalid JSON in cost_history."
  const NotEntries := "cost_history must be JSON array of objects with 'date' and 'cost' fields."
  const InsufficientPrefix := "Insufficient data for trend analysis. Provided "
  const InsufficientSuffix := " data points, minimum 7 required."
  const ShortLookback := "lookback_days must be at least 7 for meaningful trend analysis."
  const NegativeThreshold := "min_slope_threshold must be positive."
  const OnlyPrefix := "Only "
  const OnlySuffix := " valid cost entries found after validation. Need at least 7."

  /** Steps 1 and 2. */
  function InputError(history: HistoryInput, lookbackDays: int, threshold: real): Option<string>
  {
    if history.InvalidJson? then Some(InvalidHistory)
    else if history.NotAList? then Some(NotEntries)
    else if |history.entries| < 7 then
      Some(InsufficientPrefix + NatToString(|history.entries|) + InsufficientSuffix)
    else if lookbackDays < 7 then Some(ShortLookback)
    else if threshold < 0.0 then Some(NegativeThreshold)
    else None
  }

  function TooFewPoints(n: nat): string
  {
    OnlyPrefix + NatToString(n) + OnlySuffix
  }

  /** The tool's `run`. */
  function Detect(history: HistoryInput, lookbackDays: int, threshold: real): Outcome<TrendReport>
  {
    match InputError(history, lookbackDays, threshold)
    case Some(msg) => Error(msg)
    case None =>
      var points := MapFilter(history.entries, Usable, PointOf);
      if |points| < 7 then Error(TooFewPoints(|points|))
      else
        SortByPermutes(points, DateKey);
        Regression(SortBy(points, DateKey), lookbackDays, threshold)
  }

  /** The tool's `run`: the extraction loop and the in-place sort, then the regression. */
  method Run(history: HistoryInput, lookbackDays: int, threshold: real) returns (r: Outcome<TrendReport>)
    ensures r == Detect(history, lookbackDays, threshold)
  {
    var problem := InputError(history, lookbackDays, threshold);
    if problem.Some? {
      return Error(problem.value);
    }
    var points := ExtractPoints(history.entries);
    if |points| < 7 {
      return Error(TooFewPoints(|points|));
    }
    var sorted := SortByDate(points);
    SortByPermutes(points, DateKey);
    r := Regression(sorted, lookbackDays, threshold);
  }

  /**
   * The window is the last min(lookback, n) points in date order, always
   * at least 7 of them, so the fallback to all points never applies and
   * the identical-dates error is never returned.
   */
  lemma WindowFacts(sorted: seq<Point>, lookbackDays: int, threshold: real)
    requires |sorted| >= 7 && lookbackDays >= 7
    ensures |LastN(sorted, lookbackDays as nat)| >= 7
    ensures Regression(sorted, lookbackDays, threshold).Ok?
    ensures Regression(sorted, lookbackDays, threshold).value.daysAnalysed ==
      (if lookbackDays < |sorted| then lookbackDays else |sorted|)
  {
    var n := |LastN(sorted, lookbackDays as nat)|;
    DenominatorPositive(n, Mean(Indices(n)));
  }

  /**
   * The tool answers exactly for a JSON list of at least 7 entries, a
   * lookback of at least 7 days, a non-negative threshold and at least 7
   * usable entries; the analysed points are date-ordered.
   */
  lemma DetectAnswers(history: HistoryInput, lookbackDays: int, threshold: real)
    ensures !Detect(history, lookbackDays, threshold).Warning?
    ensures Detect(history, lookbackDays, threshold).Ok? <==>
      history.Entries? && |history.entries| >= 7 && lookbackDays >= 7 && threshold >= 0.0
      && |Filter(history.entries, Usable)| >= 7
    ensures Detect(history, lookbackDays, threshold).Ok? ==>
      Detect(history, lookbackDays, threshold).value.start.date <= Detect(history, lookbackDays, threshold).value.end.date
  {
    if InputError(history, lookbackDays, threshold).None? {
      var points := MapFilter(history.entries, Usable, PointOf);
      MapFilterFacts(history.entries, Usable, PointOf);
      if |points| >= 7 {
        var sorted := SortBy(points, DateKey);
        SortByPermutes(points, DateKey);
        SortBySorted(points, DateKey);
        WindowFacts(sorted, lookbackDays, threshold);
        var window := LastN(sorted, lookbackDays as nat);
        assert DateKey(sorted[|sorted| - |window|]) <= DateKey(sorted[|sorted| - 1]);
      }
    }
  }

  /** Equal costs over the window give a zero total sum of squares and so an R² of 0. */
  lemma ConstantCostsNoFit(ys: seq<real>, slope: real, intercept: real)
    requires ys != [] && Constant(ys)
    ensures SsTotal(ys, Mean(ys)) == 0.0
    ensures RSquared(SsTotal(ys, Mean(ys)), SsResidual(ys, slope, intercept)) == 0.0
  {
    SsTotalZeroIffConstant(ys);
  }

  /** R² never exceeds 1, so the confidence never exceeds 100, and 7 or more points give at least 15 for sample size. */
  lemma ConfidenceBounds(ys: seq<real>, slope: real, intercept: real, n: nat)
    requires ys != [] && n >= 7
    ensures var r2 := RSquared(SsTotal(ys, Mean(ys)), SsResidual(ys, slope, intercept));
      && r2 <= 1.0
      && TrendConfidence(r2, n) <= 100.0
      && TrendConfidence(r2, n) >= r2 * 70.0 + 15.0
  {
    var sst := SsTotal(ys, Mean(ys));
    var ssr := SsResidual(ys, slope, intercept);
    SsNonNegative(ys, Mean(ys), slope, intercept);
    if sst != 0.0 {
      assert ssr / sst >= 0.0;
    }
  }
}
