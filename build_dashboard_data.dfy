/**
 * BuildDashboardData: validates the aggregation level and the requested
 * chart types, then turns the cost records into chart datasets — a service
 * pie chart (top ten services and an "Other" slice), a provider bar chart,
 * trend indicators, a regional heatmap — and the dashboard's alerts.
 *
 * The chart builders divide by the total cost (and the heatmap by its
 * largest region cost) without the `if total_cost > 0` guard the alerts
 * use, so a dashboard over records costing nothing in all fails with a
 * float division by zero. `BuildAsWritten` keeps that behaviour and
 * `Build` is the guarded tool; `guarded` selects between the two
 * everywhere a percentage is computed.
 */
module BuildDashboardData {
  import opened Outcomes
  import opened Seqs
  import opened Sorting
  import opened Text
  import opened CostRecords

  const Granularities: seq<string> := ["hourly", "daily", "weekly", "monthly"]
  const ChartNames: seq<string> := ["timeseries", "breakdown", "comparison", "trend", "heatmap", "all"]
  const AllCharts: seq<string> := ["timeseries", "breakdown", "comparison", "trend", "heatmap"]
  const TopServices: nat := 10
  /** The month-over-month and year-over-year growth the tool reports as fixed figures. */
  const MonthOverMonth: real := 5.2
  const YearOverYear: real := 18.7

  const AggregationPrefix: string := "Invalid aggregation_level '"
  const AggregationHint: string := "'. Must be one of: hourly, daily, weekly, monthly"
  const ChartPrefix: string := "Unknown chart type '"
  const ChartHint: string := "'. Valid options: timeseries, breakdown, comparison, trend, heatmap, all. Proceeding with recognized types only."

  function BadAggregation(level: string): string
  {
    AggregationPrefix + level + AggregationHint
  }

  function UnknownChart(chart: string): string
  {
    ChartPrefix + chart + ChartHint
  }

  const InvalidData: string := "Invalid JSON in raw_data."
  const NoRecordsKey: string := "raw_data must contain 'records' array. Provide output from NormalizeCostData or Fetch tools."
  const NoRecords: string := "No cost records to process. Provide data with cost entries."
  const DivisionByZero: string := "Error building dashboard data: float division by zero. Verify raw_data structure and parameters."

  // ---------------------------------------------------------------------
  // Requested charts
  // ---------------------------------------------------------------------

  /** `[c.strip() for c in chart_types.split(",")]`. */
  function RequestedCharts(chartTypes: string): seq<string>
  {
    var parts := SplitOn(chartTypes, ",");
    seq(|parts|, i requires 0 <= i < |parts| => Strip(parts[i]))
  }

  /** The first requested name that is not a chart type, which the tool reports in its warning. */
  function FirstUnknown(requested: seq<string>): Option<string>
  {
    if requested == [] then None
    else if requested[0] !in ChartNames then Some(requested[0])
    else FirstUnknown(requested[1..])
  }

  /** No name is reported exactly when all are known; a reported name is the first unknown one. */
  lemma {:induction false} FirstUnknownFacts(requested: seq<string>)
    ensures FirstUnknown(requested).None? <==> forall i :: 0 <= i < |requested| ==> requested[i] in ChartNames
    ensures FirstUnknown(requested).Some? ==>
      exists i :: 0 <= i < |requested| && requested[i] == FirstUnknown(requested).value
        && requested[i] !in ChartNames && forall j :: 0 <= j < i ==> requested[j] in ChartNames
  {
    if requested != [] && requested[0] in ChartNames {
      var tail := requested[1..];
      FirstUnknownFacts(tail);
      assert forall i :: 0 <= i < |tail| ==> tail[i] == requested[i + 1];
      if FirstUnknown(tail).Some? {
        var i :| 0 <= i < |tail| && tail[i] == FirstUnknown(tail).value
          && tail[i] !in ChartNames && forall j :: 0 <= j < i ==> tail[j] in ChartNames;
        assert requested[i + 1] == tail[i];
      } else {
        forall i | 0 <= i < |requested|
          ensures requested[i] in ChartNames
        {
          if i > 0 { assert requested[i] == tail[i - 1]; }
        }
      }
    }
  }

  /** The loop over the requested names that returns at the first unknown one. */
  method FindUnknown(requested: seq<string>) returns (r: Option<string>)
    ensures r == FirstUnknown(requested)
  {
    var i := 0;
    while i < |requested|
      invariant 0 <= i <= |requested|
      invariant FirstUnknown(requested[i..]) == FirstUnknown(requested)
    {
      if requested[i] !in ChartNames {
        return Some(requested[i]);
      }
      assert requested[i..][1..] == requested[i + 1..];
      i := i + 1;
    }
    return None;
  }

  /** `"all"` anywhere in the list stands for the five charts. */
  function Expand(requested: seq<string>): seq<string>
  {
    if "all" in requested then AllCharts else requested
  }

  /** Once every name is known, the expanded list names only charts, and a chart is in it exactly when it or "all" was requested. */
  lemma ExpandFacts(requested: seq<string>)
    requires forall i :: 0 <= i < |requested| ==> requested[i] in ChartNames
    ensures forall c :: c in Expand(requested) ==> c in AllCharts
    ensures forall c :: c in AllCharts ==> (c in Expand(requested) <==> c in requested || "all" in requested)
  {
    forall c | c in Expand(requested) && "all" !in requested
      ensures c in AllCharts
    {
      var i :| 0 <= i < |requested| && requested[i] == c;
    }
  }

  // ---------------------------------------------------------------------
  // Percentages
  // ---------------------------------------------------------------------

  /** `part / whole * 100`, unguarded as the chart builders write it, or behind the alerts' `if whole > 0` guard. */
  function Share(part: real, whole: real, guarded: bool): real
    requires guarded || whole != 0.0
  {
    if guarded then Percent(part, whole) else part / whole * 100.0
  }

  function Shares(items: seq<(string, real)>, whole: real, guarded: bool): seq<real>
    requires guarded || whole != 0.0
  {
    seq(|items|, i requires 0 <= i < |items| => Share(items[i].1, whole, guarded))
  }

  function Value(x: real): real
  {
    x
  }

  /** Over a positive whole, the shares of some items add up to their summed cost as a percentage of it. */
  lemma {:induction false} SharesSum(items: seq<(string, real)>, whole: real, guarded: bool)
    requires whole > 0.0
    ensures SumOf(Shares(items, whole, guarded), Value) == SumOf(items, ItemCost) / whole * 100.0
  {
    if items != [] {
      var front := items[..|items| - 1];
      var x := items[|items| - 1];
      var s := Shares(items, whole, guarded);
      assert s[..|s| - 1] == Shares(front, whole, guarded);
      SharesSum(front, whole, guarded);
      assert (SumOf(front, ItemCost) + x.1) / whole == SumOf(front, ItemCost) / whole + x.1 / whole;
    }
  }

  /** A whole split into shares: its own items' shares make 100. */
  lemma SharesOfWhole(items: seq<(string, real)>, guarded: bool)
    requires SumOf(items, ItemCost) > 0.0
    ensures SumOf(Shares(items, SumOf(items, ItemCost), guarded), Value) == 100.0
  {
    var whole := SumOf(items, ItemCost);
    SharesSum(items, whole, guarded);
    assert whole / whole == 1.0;
  }

  /** A descending ranking of a breakdown still sums to the total cost. */
  lemma RankingTotal(rs: seq<CostEntry>, key: CostEntry -> string)
    ensures SumOf(SortByDescending(Breakdown(rs, key), ItemCost), ItemCost) == Total(rs)
    ensures |SortByDescending(Breakdown(rs, key), ItemCost)| == |Breakdown(rs, key)|
  {
    SortByDescendingFacts(Breakdown(rs, key), ItemCost, 0.0);
    SumOfPermutation(SortByDescending(Breakdown(rs, key), ItemCost), Breakdown(rs, key), ItemCost);
    BreakdownTotal(rs, key);
  }

  /** At least one record gives at least one breakdown entry. */
  lemma BreakdownNonEmpty(rs: seq<CostEntry>, key: CostEntry -> string)
    requires rs != []
    ensures Breakdown(rs, key) != []
  {
    BreakdownNames(rs, key);
    var i :| 0 <= i < |Breakdown(rs, key)| && Breakdown(rs, key)[i].0 == key(rs[0]);
  }

  /** Items summing to more than zero include one costing more than zero. */
  lemma {:induction false} SomePositive(items: seq<(string, real)>)
    requires SumOf(items, ItemCost) > 0.0
    ensures exists i :: 0 <= i < |items| && items[i].1 > 0.0
  {
    var front := items[..|items| - 1];
    if items[|items| - 1].1 <= 0.0 {
      SomePositive(front);
      var i :| 0 <= i < |front| && front[i].1 > 0.0;
      assert items[i] == front[i];
    }
  }

  /** `max(items, key=lambda x: x[1])`: the first item of the largest cost. */
  function FirstMax(items: seq<(string, real)>): (r: (string, real))
    requires items != []
    ensures r in items
    ensures forall i :: 0 <= i < |items| ==> items[i].1 <= r.1
    ensures exists j :: 0 <= j < |items| && items[j] == r && forall i :: 0 <= i < j ==> items[i].1 < r.1
  {
    if |items| == 1 then items[0]
    else
      var front := items[..|items| - 1];
      var m := FirstMax(front);
      var x := items[|items| - 1];
      assert forall i :: 0 <= i < |front| ==> front[i] == items[i];
      if x.1 > m.1 then x else m
  }

  // ---------------------------------------------------------------------
  // Chart 2: the service breakdown
  // ---------------------------------------------------------------------

  /** Labels with their costs, and each cost as a percentage of the total. */
  datatype PieChart = PieChart(slices: seq<(string, real)>, percentages: seq<real>)

  /** The services by decreasing cost. */
  function ServiceRanking(rs: seq<CostEntry>): seq<(string, real)>
  {
    SortByDescending(Breakdown(rs, ServiceOf), ItemCost)
  }

  /** The top ten services, and an "Other" slice holding the rest of the total when that is positive. */
  function Slices(rs: seq<CostEntry>): seq<(string, real)>
  {
    var top := Take(ServiceRanking(rs), TopServices);
    var other := Total(rs) - SumOf(top, ItemCost);
    if other > 0.0 then top + [("Other", other)] else top
  }

  function Pie(rs: seq<CostEntry>, guarded: bool): PieChart
    requires guarded || Total(rs) != 0.0
  {
    PieChart(Slices(rs), Shares(Slices(rs), Total(rs), guarded))
  }

  /** The first slices are the most expensive services, none cheaper than any service left out. */
  lemma TopSlices(rs: seq<CostEntry>)
    ensures var ranked := ServiceRanking(rs); var n := |Take(ranked, TopServices)|;
      && n == (if |ranked| < TopServices then |ranked| else TopServices)
      && (forall i, j :: 0 <= i < n <= j < |ranked| ==> ranked[i].1 >= ranked[j].1)
      && (forall i, j :: 0 <= i < j < n ==> ranked[i].1 >= ranked[j].1)
      && multiset(ranked) == multiset(Breakdown(rs, ServiceOf))
  {
    SortByDescendingFacts(Breakdown(rs, ServiceOf), ItemCost, 0.0);
  }

  /**
   * The "Other" slice is the cost of the services beyond the top ten, and
   * it appears exactly when that is positive — never with ten services or
   * fewer. With it, the slices sum to the total; without it, to the total
   * less the (not positive) cost left out.
   */
  lemma SlicesFacts(rs: seq<CostEntry>)
    ensures var ranked := ServiceRanking(rs); var n := |Take(ranked, TopServices)|;
      var rest := SumOf(ranked[n..], ItemCost);
      && Slices(rs) == ranked[..n] + (if rest > 0.0 then [("Other", rest)] else [])
      && (|ranked| <= TopServices ==> Slices(rs) == ranked)
      && |Slices(rs)| <= TopServices + 1
      && SumOf(Slices(rs), ItemCost) == (if rest > 0.0 then Total(rs) else Total(rs) - rest)
  {
    var ranked := ServiceRanking(rs);
    var top := Take(ranked, TopServices);
    var n := |top|;
    var rest := SumOf(ranked[n..], ItemCost);
    RankingTotal(rs, ServiceOf);
    assert ranked == top + ranked[n..];
    SumOfAppend(top, ranked[n..], ItemCost);
    if rest > 0.0 {
      SumOfAppend(top, [("Other", rest)], ItemCost);
      SumOfSingle(("Other", rest), ItemCost);
    }
    if |ranked| <= TopServices {
      assert ranked[n..] == [];
    }
  }

  /** With no negative cost, each breakdown entry is at least zero. */
  lemma {:induction false} KeyTotalNonNegative(rs: seq<CostEntry>, key: CostEntry -> string, k: string)
    requires forall i :: 0 <= i < |rs| ==> Cost(rs[i]) >= 0.0
    ensures KeyTotal(rs, key, k) >= 0.0
  {
    if rs != [] {
      KeyTotalNonNegative(rs[..|rs| - 1], key, k);
    }
  }

  /** With no negative cost, no entry of a ranked breakdown is below zero. */
  lemma RankingNonNegative(rs: seq<CostEntry>, key: CostEntry -> string)
    requires forall i :: 0 <= i < |rs| ==> Cost(rs[i]) >= 0.0
    ensures forall j :: 0 <= j < |SortByDescending(Breakdown(rs, key), ItemCost)| ==>
      SortByDescending(Breakdown(rs, key), ItemCost)[j].1 >= 0.0
  {
    var b := Breakdown(rs, key);
    var ranked := SortByDescending(b, ItemCost);
    SortByDescendingFacts(b, ItemCost, 0.0);
    forall j | 0 <= j < |ranked|
      ensures ranked[j].1 >= 0.0
    {
      assert ranked[j] in multiset(b);
      var i :| 0 <= i < |b| && b[i] == ranked[j];
      KeyTotalNonNegative(rs, key, b[i].0);
    }
  }

  /** With no negative cost, the slices sum to the total, and with a positive total their percentages make 100. */
  lemma PieOfCosts(rs: seq<CostEntry>, guarded: bool)
    requires forall i :: 0 <= i < |rs| ==> Cost(rs[i]) >= 0.0
    ensures SumOf(Slices(rs), ItemCost) == Total(rs)
    ensures Total(rs) > 0.0 ==> SumOf(Pie(rs, guarded).percentages, Value) == 100.0
  {
    var ranked := ServiceRanking(rs);
    var n := |Take(ranked, TopServices)|;
    SlicesFacts(rs);
    RankingNonNegative(rs, ServiceOf);
    var tail := ranked[n..];
    assert forall k :: 0 <= k < |tail| ==> tail[k] == ranked[n + k];
    SumOfNonNegative(tail, ItemCost);
    if Total(rs) > 0.0 {
      SharesOfWhole(Slices(rs), guarded);
    }
  }

  method BuildPie(rs: seq<CostEntry>, total: real) returns (pie: PieChart)
    requires total == Total(rs)
    ensures pie == Pie(rs, true)
  {
    var totals, items := BreakdownOf(rs, ServiceOf);
    var ranked := RankItems(items);
    var top := Take(ranked, TopServices);
    var topTotal := SumCosts(top);
    var other := total - topTotal;
    var slices := if other > 0.0 then top + [("Other", other)] else top;
    pie := PieChart(slices, Shares(slices, total, true));
  }

  // ---------------------------------------------------------------------
  // Chart 3: the provider comparison
  // ---------------------------------------------------------------------

  /** `record.get("provider", "unknown").upper()`. */
  function ProviderKey(e: CostEntry): string
  {
    Upper(ProviderOf(e))
  }

  /** A bar per provider in order of first appearance, with its cost and its percentage of the total. */
  datatype BarChart = BarChart(providers: seq<(string, real)>, percentages: seq<real>)

  function Bars(rs: seq<CostEntry>, guarded: bool): BarChart
    requires guarded || Total(rs) != 0.0
  {
    var b := Breakdown(rs, ProviderKey);
    BarChart(b, Shares(b, Total(rs), guarded))
  }

  /** One bar per provider name up to case, and a bar for every record's provider. */
  lemma BarNames(rs: seq<CostEntry>, guarded: bool)
    requires guarded || Total(rs) != 0.0
    ensures var bars := Bars(rs, guarded).providers;
      && (forall i, j :: 0 <= i < j < |bars| ==> bars[i].0 != bars[j].0)
      && (forall k :: 0 <= k < |rs| ==> exists i :: 0 <= i < |bars| && bars[i].0 == Upper(ProviderOf(rs[k])))
  {
    assert Bars(rs, guarded).providers == Breakdown(rs, ProviderKey);
    BreakdownNames(rs, ProviderKey);
  }

  /** Every bar is labelled in upper case. */
  lemma BarsUpperCase(rs: seq<CostEntry>, guarded: bool)
    requires guarded || Total(rs) != 0.0
    ensures var bars := Bars(rs, guarded).providers;
      forall i, c :: 0 <= i < |bars| && 0 <= c < |bars[i].0| ==> !('a' <= bars[i].0[c] <= 'z')
  {
    var bars := Breakdown(rs, ProviderKey);
    assert Bars(rs, guarded).providers == bars;
    BreakdownItems(rs, ProviderKey);
    forall i | 0 <= i < |bars|
      ensures forall c :: 0 <= c < |bars[i].0| ==> !('a' <= bars[i].0[c] <= 'z')
    {
      var k :| 0 <= k < |rs| && ProviderKey(rs[k]) == bars[i].0;
      UpperChars(ProviderOf(rs[k]));
    }
  }

  /** Each bar costs the records of its provider; the bars sum to the total, and with a positive total their percentages make 100. */
  lemma BarCosts(rs: seq<CostEntry>, guarded: bool)
    requires guarded || Total(rs) != 0.0
    ensures var bars := Bars(rs, guarded).providers;
      && (forall i :: 0 <= i < |bars| ==> bars[i].1 == SumOf(Filter(rs, KeyIs(ProviderKey, bars[i].0)), Cost))
      && SumOf(bars, ItemCost) == Total(rs)
      && |Bars(rs, guarded).percentages| == |bars|
      && (Total(rs) > 0.0 ==> SumOf(Bars(rs, guarded).percentages, Value) == 100.0)
  {
    var bars := Breakdown(rs, ProviderKey);
    assert Bars(rs, guarded).providers == bars;
    BreakdownItems(rs, ProviderKey);
    BreakdownTotal(rs, ProviderKey);
    if Total(rs) > 0.0 {
      SharesOfWhole(bars, guarded);
    }
  }

  method BuildBars(rs: seq<CostEntry>, total: real) returns (bars: BarChart)
    requires total == Total(rs)
    ensures bars == Bars(rs, true)
  {
    var totals, items := BreakdownOf(rs, ProviderKey);
    bars := BarChart(items, Shares(items, total, true));
  }

  // ---------------------------------------------------------------------
  // Chart 4: trend indicators
  // ---------------------------------------------------------------------

  /** `r.get("date", "")`. */
  function DateOf(e: CostEntry): string
  {
    e.date.GetOr("")
  }

  /** `set(r.get("date", "") for r in records)`. */
  function Dates(rs: seq<CostEntry>): set<string>
  {
    if rs == [] then {} else Dates(rs[..|rs| - 1]) + {DateOf(rs[|rs| - 1])}
  }

  /** The distinct dates of the records, no more of them than records. */
  lemma {:induction false} DatesFacts(rs: seq<CostEntry>)
    ensures forall d :: d in Dates(rs) <==> exists k :: 0 <= k < |rs| && DateOf(rs[k]) == d
    ensures |Dates(rs)| <= |rs|
  {
    if rs != [] {
      var front := rs[..|rs| - 1];
      DatesFacts(front);
      assert forall k :: 0 <= k < |front| ==> front[k] == rs[k];
      forall d | d in Dates(rs)
        ensures exists k :: 0 <= k < |rs| && DateOf(rs[k]) == d
      {
        if d !in Dates(front) {
          assert DateOf(rs[|rs| - 1]) == d;
        }
      }
    }
  }

  const Red: string := "#e74c3c"
  const Amber: string := "#f39c12"
  const Green: string := "#2ecc71"

  datatype Growth = Growth(percent: real, up: bool, color: string)

  datatype TrendIndicators = TrendIndicators(currentMonthTotal: real, avgDailyCost: real, monthOverMonth: Growth, yearOverYear: Growth)

  /** A growth figure: up when positive, red above its alarm level and `calm` otherwise. */
  function GrowthOf(percent: real, alarm: real, calm: string): Growth
  {
    Growth(percent, percent > 0.0, if percent > alarm then Red else calm)
  }

  /** `max(1, len(set(...)))`. */
  function DayCount(rs: seq<CostEntry>): nat
  {
    var days := |Dates(rs)|;
    if days > 1 then days else 1
  }

  function Trend(rs: seq<CostEntry>): TrendIndicators
  {
    TrendIndicators(Total(rs), Total(rs) / DayCount(rs) as real,
      GrowthOf(MonthOverMonth, 10.0, Amber), GrowthOf(YearOverYear, 15.0, Green))
  }

  /** The average daily cost spreads the total evenly over the days counted. */
  lemma TrendAverage(rs: seq<CostEntry>)
    ensures Trend(rs).avgDailyCost * DayCount(rs) as real == Total(rs)
    ensures Trend(rs).currentMonthTotal == Total(rs)
  {
    Spread(Total(rs), DayCount(rs));
  }

  /** Both fixed growth figures point up, month-over-month in amber and year-over-year in red. */
  lemma TrendGrowth(rs: seq<CostEntry>)
    ensures Trend(rs).monthOverMonth == Growth(5.2, true, Amber)
    ensures Trend(rs).yearOverYear == Growth(18.7, true, Red)
  {
  }

  lemma Spread(total: real, days: nat)
    requires days >= 1
    ensures total / days as real * days as real == total
  {
  }

  /** The loop that collects the distinct dates. */
  method DistinctDates(rs: seq<CostEntry>) returns (dates: set<string>)
    ensures dates == Dates(rs)
  {
    dates := {};
    var i := 0;
    while i < |rs|
      invariant 0 <= i <= |rs|
      invariant dates == Dates(rs[..i])
    {
      assert rs[..i + 1][..i] == rs[..i];
      dates := dates + {DateOf(rs[i])};
      i := i + 1;
    }
    assert rs[..i] == rs;
  }

  method BuildTrend(rs: seq<CostEntry>) returns (t: TrendIndicators)
    ensures t == Trend(rs)
  {
    var total := TotalCost(rs);
    var dates := DistinctDates(rs);
    var days := if |dates| > 1 then |dates| else 1;
    t := TrendIndicators(total, total / days as real,
      GrowthOf(MonthOverMonth, 10.0, Amber), GrowthOf(YearOverYear, 15.0, Green));
  }

  // ---------------------------------------------------------------------
  // Chart 5: the regional heatmap
  // ---------------------------------------------------------------------

  datatype HeatCell = HeatCell(name: string, cost: real, intensity: real)

  /** The regions by decreasing cost. */
  function RegionRanking(rs: seq<CostEntry>): seq<(string, real)>
  {
    SortByDescending(Breakdown(rs, RegionOf), ItemCost)
  }

  /** Intensities divide by the largest cost unless they are guarded or there is no cost at all. */
  predicate Divisible(ranked: seq<(string, real)>)
  {
    ranked != [] ==> FirstMax(ranked).1 != 0.0
  }

  predicate HeatmapDivides(rs: seq<CostEntry>)
  {
    Divisible(RegionRanking(rs))
  }

  /** A cell per item, its intensity the cost as a percentage of the largest. */
  function Cells(ranked: seq<(string, real)>, guarded: bool): seq<HeatCell>
    requires guarded || Divisible(ranked)
  {
    if ranked == [] then []
    else
      var top := FirstMax(ranked).1;
      seq(|ranked|, i requires 0 <= i < |ranked| => HeatCell(ranked[i].0, ranked[i].1, Share(ranked[i].1, top, guarded)))
  }

  /** A cell per region by decreasing cost. */
  function Heatmap(rs: seq<CostEntry>, guarded: bool): seq<HeatCell>
    requires guarded || HeatmapDivides(rs)
  {
    Cells(RegionRanking(rs), guarded)
  }

  /** A quotient by a positive number is at most 100% of it exactly when the dividend is at most that number. */
  lemma ShareAtMostWhole(part: real, whole: real)
    requires whole > 0.0
    ensures part / whole * 100.0 <= 100.0 <==> part <= whole
  {
    var q := part / whole;
    assert q * whole == part;
    ScaleMonotone(q, 1.0, whole);
  }

  /** In a list ordered by decreasing cost the largest cost is the first. */
  lemma FirstMaxOfRanked(items: seq<(string, real)>)
    requires items != []
    requires forall i, j :: 0 <= i < j < |items| ==> items[i].1 >= items[j].1
    ensures FirstMax(items).1 == items[0].1
  {
    var j :| 0 <= j < |items| && items[j] == FirstMax(items);
    if j > 0 {
      assert items[0].1 >= items[j].1;
    }
  }

  /** The regions ordered by decreasing cost, with the largest first. */
  lemma RegionRankingFacts(rs: seq<CostEntry>)
    ensures var ranked := RegionRanking(rs);
      && (forall i, j :: 0 <= i < j < |ranked| ==> ranked[i].1 >= ranked[j].1)
      && SumOf(ranked, ItemCost) == Total(rs)
      && (rs != [] ==> ranked != [] && FirstMax(ranked).1 == ranked[0].1)
  {
    var ranked := RegionRanking(rs);
    RankingTotal(rs, RegionOf);
    SortByDescendingFacts(Breakdown(rs, RegionOf), ItemCost, 0.0);
    if rs != [] {
      BreakdownNonEmpty(rs, RegionOf);
      FirstMaxOfRanked(ranked);
    }
  }

  /** A cell per region in decreasing order of cost, the cell costs summing to the total. */
  lemma HeatmapOrder(rs: seq<CostEntry>, guarded: bool)
    requires rs != []
    requires guarded || HeatmapDivides(rs)
    ensures var ranked := RegionRanking(rs); var cells := Heatmap(rs, guarded);
      && |cells| == |ranked| >= 1
      && (forall i :: 0 <= i < |cells| ==> cells[i].name == ranked[i].0 && cells[i].cost == ranked[i].1)
      && (forall i, j :: 0 <= i < j < |cells| ==> cells[i].cost >= cells[j].cost)
      && SumOf(ranked, ItemCost) == Total(rs)
  {
    RegionRankingFacts(rs);
  }

  /** Over costs in decreasing order led by a positive one, the first cell is at 100. */
  lemma CellsTop(ranked: seq<(string, real)>, guarded: bool)
    requires ranked != [] && ranked[0].1 > 0.0
    requires forall i, j :: 0 <= i < j < |ranked| ==> ranked[i].1 >= ranked[j].1
    requires guarded || Divisible(ranked)
    ensures |Cells(ranked, guarded)| == |ranked|
    ensures Cells(ranked, guarded)[0].intensity == 100.0
  {
    FirstMaxOfRanked(ranked);
    var top := ranked[0].1;
    assert Cells(ranked, guarded)[0].intensity == top / top * 100.0;
    assert top / top == 1.0;
  }

  /** When the largest cost is positive, no cell is above 100. */
  lemma CellsBounded(ranked: seq<(string, real)>, guarded: bool)
    requires ranked != [] && FirstMax(ranked).1 > 0.0
    ensures |Cells(ranked, guarded)| == |ranked|
    ensures forall i :: 0 <= i < |ranked| ==> Cells(ranked, guarded)[i].intensity <= 100.0
  {
    var cells := Cells(ranked, guarded);
    var top := FirstMax(ranked).1;
    forall i | 0 <= i < |ranked|
      ensures cells[i].intensity <= 100.0
    {
      assert cells[i].intensity == ranked[i].1 / top * 100.0;
      ShareAtMostWhole(ranked[i].1, top);
    }
  }

  /** When the costliest region costs more than zero, its cell is at 100 and no cell is above it. */
  lemma HeatmapIntensity(rs: seq<CostEntry>, guarded: bool)
    requires guarded || HeatmapDivides(rs)
    requires RegionRanking(rs) != [] && RegionRanking(rs)[0].1 > 0.0
    ensures |Heatmap(rs, guarded)| == |RegionRanking(rs)|
    ensures Heatmap(rs, guarded)[0].intensity == 100.0
    ensures forall i :: 0 <= i < |Heatmap(rs, guarded)| ==> Heatmap(rs, guarded)[i].intensity <= 100.0
  {
    RegionRankingFacts(rs);
    CellsTop(RegionRanking(rs), guarded);
    CellsBounded(RegionRanking(rs), guarded);
  }

  method BuildHeatmap(rs: seq<CostEntry>) returns (cells: seq<HeatCell>)
    ensures cells == Heatmap(rs, true)
  {
    var totals, items := BreakdownOf(rs, RegionOf);
    var ranked := RankItems(items);
    if ranked == [] {
      cells := [];
    } else {
      var top := FirstMax(ranked).1;
      cells := seq(|ranked|, i requires 0 <= i < |ranked| => HeatCell(ranked[i].0, ranked[i].1, Share(ranked[i].1, top, true)));
    }
    assert cells == Cells(ranked, true);
  }

  // ---------------------------------------------------------------------
  // Alerts
  // ---------------------------------------------------------------------

  datatype DashboardInsight =
    | Concentration(service: string, percent: real, high: bool)
    | TaggingCompliance(percent: real, cost: real)

  /** `not record.get("tags") or not record.get("tags", {}).get("environment")`. */
  predicate Untagged(e: CostEntry)
  {
    e.tags.None? || "environment" !in e.tags.value || e.tags.value["environment"] == ""
  }

  function UntaggedCost(rs: seq<CostEntry>): real
  {
    SumOf(Filter(rs, Untagged), Cost)
  }

  /** The concentration alert: the costliest service, when above 40% of the total (high above 60%). */
  function ConcentrationAlerts(services: seq<(string, real)>, total: real): seq<DashboardInsight>
  {
    if services == [] then []
    else
      var top := FirstMax(services);
      var p := Percent(top.1, total);
      if p > 40.0 then [Concentration(top.0, p, p > 60.0)] else []
  }

  /** The tagging alert: the untagged records' cost, when positive and above 10% of the total. */
  function TaggingAlerts(untagged: real, total: real): seq<DashboardInsight>
  {
    var q := Percent(untagged, total);
    if untagged > 0.0 && q > 10.0 then [TaggingCompliance(q, untagged)] else []
  }

  function Insights(rs: seq<CostEntry>): seq<DashboardInsight>
  {
    ConcentrationAlerts(Breakdown(rs, ServiceOf), Total(rs)) + TaggingAlerts(UntaggedCost(rs), Total(rs))
  }

  /** A concentration alert appears exactly when some service costs more than 40% of a positive total. */
  lemma ConcentrationAppears(services: seq<(string, real)>, total: real)
    ensures |ConcentrationAlerts(services, total)| <= 1
    ensures ConcentrationAlerts(services, total) != [] <==>
      total > 0.0 && exists i :: 0 <= i < |services| && services[i].1 * 100.0 > 40.0 * total
  {
    if services != [] {
      PercentAbove(FirstMax(services).1, total, 40.0);
      TopAbove(services, 40.0 * total);
    }
  }

  /** The alert names the first of the costliest services, and is high exactly when that one is above 60% of the total. */
  lemma ConcentrationSeverity(services: seq<(string, real)>, total: real)
    requires ConcentrationAlerts(services, total) != []
    ensures services != []
    ensures ConcentrationAlerts(services, total)[0].Concentration?
    ensures ConcentrationAlerts(services, total)[0].service == FirstMax(services).0
    ensures ConcentrationAlerts(services, total)[0].high <==> total > 0.0 && FirstMax(services).1 * 100.0 > 60.0 * total
  {
    PercentAbove(FirstMax(services).1, total, 60.0);
  }

  /** Some item costs more than a bound exactly when the first costliest one does. */
  lemma TopAbove(items: seq<(string, real)>, bound: real)
    requires items != []
    ensures (exists i :: 0 <= i < |items| && items[i].1 * 100.0 > bound) <==> FirstMax(items).1 * 100.0 > bound
  {
    var top := FirstMax(items);
    if exists i :: 0 <= i < |items| && items[i].1 * 100.0 > bound {
      var i :| 0 <= i < |items| && items[i].1 * 100.0 > bound;
      assert top.1 >= items[i].1;
    }
    if top.1 * 100.0 > bound {
      var j :| 0 <= j < |items| && items[j] == top;
    }
  }

  /**
   * A tagging alert appears exactly when the records without an environment
   * tag cost more than a tenth of a positive total; it carries that cost and
   * its percentage of the total.
   */
  lemma TaggingFacts(untagged: real, total: real)
    ensures var alerts := TaggingAlerts(untagged, total);
      && |alerts| <= 1
      && (alerts != [] <==> total > 0.0 && untagged * 100.0 > 10.0 * total)
      && (alerts != [] ==> alerts[0].TaggingCompliance? && alerts[0].cost == untagged && alerts[0].percent * total == untagged * 100.0)
  {
    PercentAbove(untagged, total, 10.0);
    if total > 0.0 {
      assert untagged / total * total == untagged;
    }
  }

  method DashboardInsights(rs: seq<CostEntry>, total: real) returns (insights: seq<DashboardInsight>)
    requires total == Total(rs)
    ensures insights == Insights(rs)
  {
    var totals, services := BreakdownOf(rs, ServiceOf);
    insights := [];
    if services != [] {
      var top := FirstMax(services);
      var p := Percent(top.1, total);
      if p > 40.0 {
        insights := [Concentration(top.0, p, p > 60.0)];
      }
    }
    var untagged := SumOf(Filter(rs, Untagged), Cost);
    if untagged > 0.0 {
      var q := Percent(untagged, total);
      if q > 10.0 {
        insights := insights + [TaggingCompliance(q, untagged)];
      }
    }
  }

  // ---------------------------------------------------------------------
  // The dashboard
  // ---------------------------------------------------------------------

  /**
   * The charts built; the time series is only marked present, its buckets
   * are not modelled.
   */
  datatype ChartSet = ChartSet(
    timeseries: bool,
    breakdown: Option<PieChart>,
    comparison: Option<BarChart>,
    trend: Option<TrendIndicators>,
    heatmap: Option<seq<HeatCell>>)

  /** `c in dashboard_data["charts"]`. */
  predicate Built(charts: ChartSet, c: string)
  {
    || (c == "timeseries" && charts.timeseries)
    || (c == "breakdown" && charts.breakdown.Some?)
    || (c == "comparison" && charts.comparison.Some?)
    || (c == "trend" && charts.trend.Some?)
    || (c == "heatmap" && charts.heatmap.Some?)
  }

  datatype Dashboard = Dashboard(
    recordCount: nat,
    totalCost: real,
    currency: string,
    aggregation: string,
    charts: ChartSet,
    insights: seq<DashboardInsight>,
    currencySymbol: string,
    chartCount: nat,
    requested: seq<string>)

  /** The unguarded divisions the requested charts make have non-zero divisors. */
  predicate Divides(rs: seq<CostEntry>, requested: seq<string>)
  {
    && (("breakdown" in requested || "comparison" in requested) ==> Total(rs) != 0.0)
    && ("heatmap" in requested ==> HeatmapDivides(rs))
  }

  function Charts(rs: seq<CostEntry>, requested: seq<string>, guarded: bool): ChartSet
    requires guarded || Divides(rs, requested)
  {
    ChartSet(
      "timeseries" in requested,
      if "breakdown" in requested then Some(Pie(rs, guarded)) else None,
      if "comparison" in requested then Some(Bars(rs, guarded)) else None,
      if "trend" in requested then Some(Trend(rs)) else None,
      if "heatmap" in requested then Some(Heatmap(rs, guarded)) else None)
  }

  /** Steps 4-8 for validated records. */
  function Assemble(aggregation: string, requested: seq<string>, rs: seq<CostEntry>, guarded: bool): Dashboard
    requires guarded || Divides(rs, requested)
  {
    var charts := Charts(rs, requested, guarded);
    var currency := Currency(rs);
    Dashboard(|rs|, Total(rs), currency, aggregation, charts, Insights(rs),
      if currency == "USD" then "$" else currency,
      CountWhere(requested, c => Built(charts, c)), requested)
  }

  /** Step 3: the records of the document, or the message the tool answers with. */
  function RecordsOf(data: RecordsDocument): Outcome<seq<CostEntry>>
  {
    if data.InvalidJson? then Error(InvalidData)
    else if data.records.None? then Error(NoRecordsKey)
    else if data.records.value == [] then Warning(NoRecords)
    else Ok(data.records.value)
  }

  /** Steps 1-3: the charts to build and the records, or the message the tool answers with. */
  function Validated(aggregation: string, chartTypes: string, data: RecordsDocument): Outcome<(seq<string>, seq<CostEntry>)>
  {
    if aggregation !in Granularities then Error(BadAggregation(aggregation))
    else
      match FirstUnknown(RequestedCharts(chartTypes))
      case Some(c) => Warning(UnknownChart(c))
      case None =>
        match RecordsOf(data)
        case Error(m) => Error(m)
        case Warning(m) => Warning(m)
        case Ok(rs) => Ok((Expand(RequestedCharts(chartTypes)), rs))
  }

  /** The tool as written: an unguarded division by zero ends in the error answer. */
  function BuildAsWritten(aggregation: string, chartTypes: string, data: RecordsDocument): Outcome<Dashboard>
  {
    match Validated(aggregation, chartTypes, data)
    case Error(m) => Error(m)
    case Warning(m) => Warning(m)
    case Ok(v) => if Divides(v.1, v.0) then Ok(Assemble(aggregation, v.0, v.1, false)) else Error(DivisionByZero)
  }

  /** The tool with its percentages guarded as its alerts guard them. */
  function Build(aggregation: string, chartTypes: string, data: RecordsDocument): Outcome<Dashboard>
  {
    match Validated(aggregation, chartTypes, data)
    case Error(m) => Error(m)
    case Warning(m) => Warning(m)
    case Ok(v) => Ok(Assemble(aggregation, v.0, v.1, true))
  }

  /** Steps 1-3. */
  method Validate(aggregation: string, chartTypes: string, data: RecordsDocument) returns (v: Outcome<(seq<string>, seq<CostEntry>)>)
    ensures v == Validated(aggregation, chartTypes, data)
  {
    if aggregation !in Granularities {
      return Error(BadAggregation(aggregation));
    }
    var requested := RequestedCharts(chartTypes);
    var unknown := FindUnknown(requested);
    if unknown.Some? {
      return Warning(UnknownChart(unknown.value));
    }
    var records := RecordsOf(data);
    match records
    case Error(m) => v := Error(m);
    case Warning(m) => v := Warning(m);
    case Ok(rs) => v := Ok((Expand(requested), rs));
  }

  method Run(aggregation: string, chartTypes: string, data: RecordsDocument) returns (r: Outcome<Dashboard>)
    ensures r == Build(aggregation, chartTypes, data)
  {
    var v := Validate(aggregation, chartTypes, data);
    match v
    case Error(m) => r := Error(m);
    case Warning(m) => r := Warning(m);
    case Ok(checked) =>
      var d := BuildCharts(aggregation, checked.0, checked.1);
      r := Ok(d);
  }

  /** Steps 4-8: the charts requested, the alerts and the rendering hints. */
  method BuildCharts(aggregation: string, requested: seq<string>, rs: seq<CostEntry>) returns (d: Dashboard)
    ensures d == Assemble(aggregation, requested, rs, true)
  {
    var total := TotalCost(rs);
    var currency := Currency(rs);
    var breakdown: Option<PieChart> := None;
    if "breakdown" in requested {
      var pie := BuildPie(rs, total);
      breakdown := Some(pie);
    }
    var comparison: Option<BarChart> := None;
    if "comparison" in requested {
      var bars := BuildBars(rs, total);
      comparison := Some(bars);
    }
    var trend: Option<TrendIndicators> := None;
    if "trend" in requested {
      var t := BuildTrend(rs);
      trend := Some(t);
    }
    var heatmap: Option<seq<HeatCell>> := None;
    if "heatmap" in requested {
      var cells := BuildHeatmap(rs);
      heatmap := Some(cells);
    }
    var insights := DashboardInsights(rs, total);
    var charts := ChartSet("timeseries" in requested, breakdown, comparison, trend, heatmap);
    d := Dashboard(|rs|, total, currency, aggregation, charts, insights,
      if currency == "USD" then "$" else currency,
      CountWhere(requested, c => Built(charts, c)), requested);
  }

  // ---------------------------------------------------------------------
  // Properties of the whole tool
  // ---------------------------------------------------------------------

  /**
   * Validation succeeds exactly for a known aggregation level, known chart
   * names and a document with a non-empty "records" array.
   */
  lemma ValidatedOk(aggregation: string, chartTypes: string, data: RecordsDocument)
    ensures var requested := RequestedCharts(chartTypes);
      Validated(aggregation, chartTypes, data).Ok? <==>
        aggregation in Granularities && (forall i :: 0 <= i < |requested| ==> requested[i] in ChartNames)
        && data.Document? && data.records.Some? && data.records.value != []
  {
    FirstUnknownFacts(RequestedCharts(chartTypes));
  }

  /**
   * A successful validation yields the document's records and the expanded
   * request, every name of which was known (so `ExpandFacts` says which
   * charts are built).
   */
  lemma ValidatedValue(aggregation: string, chartTypes: string, data: RecordsDocument)
    requires Validated(aggregation, chartTypes, data).Ok?
    ensures var requested := RequestedCharts(chartTypes);
      && Validated(aggregation, chartTypes, data).value == (Expand(requested), data.records.value)
      && forall i :: 0 <= i < |requested| ==> requested[i] in ChartNames
  {
    var requested := RequestedCharts(chartTypes);
    assert FirstUnknown(requested).None?;
    assert RecordsOf(data) == Ok(data.records.value);
    FirstUnknownFacts(requested);
  }

  /** An unknown chart name is reported, as a warning, before the JSON is looked at. */
  lemma UnknownChartFirst(aggregation: string, chartTypes: string, data: RecordsDocument)
    requires aggregation in Granularities && FirstUnknown(RequestedCharts(chartTypes)).Some?
    ensures Validated(aggregation, chartTypes, data) == Validated(aggregation, chartTypes, InvalidJson)
    ensures Validated(aggregation, chartTypes, data).Warning?
  {
  }

  /**
   * Exactly the requested charts are built, so the chart count is the
   * number of requested names; the record count and total are the records'.
   */
  lemma AssembleFacts(aggregation: string, requested: seq<string>, rs: seq<CostEntry>, guarded: bool)
    requires guarded || Divides(rs, requested)
    requires forall c :: c in requested ==> c in AllCharts
    ensures var d := Assemble(aggregation, requested, rs, guarded);
      && (forall c :: c in AllCharts ==> (Built(d.charts, c) <==> c in requested))
      && d.chartCount == |requested|
      && d.recordCount == |rs| && d.totalCost == Total(rs)
      && d.requested == requested
  {
    var charts := Charts(rs, requested, guarded);
    forall k | 0 <= k < |requested|
      ensures Built(charts, requested[k])
    {
      assert requested[k] in AllCharts;
    }
    FilterAll(requested, c => Built(charts, c));
  }

  /** A single record costing nothing. */
  function FreeRecord(): CostEntry
  {
    CostEntry(Some("aws"), Some("EC2"), Some("us-east-1"), None, Some(0.0), Some("USD"), None, None)
  }

  /**
   * As written, a valid request for the breakdown over records that cost
   * nothing in all fails with a division by zero; the guarded tool builds
   * the dashboard.
   */
  lemma ZeroCostFails(aggregation: string, chartTypes: string)
    requires Validated(aggregation, chartTypes, Document(Some([FreeRecord()]))).Ok?
    requires "breakdown" in Validated(aggregation, chartTypes, Document(Some([FreeRecord()]))).value.0
    ensures BuildAsWritten(aggregation, chartTypes, Document(Some([FreeRecord()]))) == Error(DivisionByZero)
    ensures Build(aggregation, chartTypes, Document(Some([FreeRecord()]))).Ok?
  {
    var data := Document(Some([FreeRecord()]));
    var v := Validated(aggregation, chartTypes, data).value;
    assert RecordsOf(data) == Ok([FreeRecord()]);
    assert v.1 == [FreeRecord()];
    SumOfSingle(FreeRecord(), Cost);
    assert Total(v.1) == 0.0;
    UnguardedFails(aggregation, chartTypes, data);
  }

  /** A breakdown over records whose total is zero ends the tool as written in the error answer. */
  lemma UnguardedFails(aggregation: string, chartTypes: string, data: RecordsDocument)
    requires Validated(aggregation, chartTypes, data).Ok?
    requires var v := Validated(aggregation, chartTypes, data).value; "breakdown" in v.0 && Total(v.1) == 0.0
    ensures BuildAsWritten(aggregation, chartTypes, data) == Error(DivisionByZero)
  {
    var v := Validated(aggregation, chartTypes, data).value;
    assert !Divides(v.1, v.0);
  }

  /** `chart_types="all"` parses to the single request "all". */
  lemma AllRequested()
    ensures RequestedCharts("all") == ["all"]
  {
    var s := "all";
    forall j | 0 <= j <= |s| - 1
      ensures !OccursAt(s, ",", j)
    {
      assert s[j..j + 1][0] == s[j];
    }
    assert !ContainsSub(s, ",");
    assert SplitOn("all", ",") == ["all"];
    assert TrimRight("all") == "all";
    assert TrimLeft("all") == "all";
  }

  /**
   * The tool's default request, daily and all charts, over one record that
   * costs nothing fails as written and succeeds when guarded.
   */
  lemma DailyAllZeroCost()
    ensures BuildAsWritten("daily", "all", Document(Some([FreeRecord()]))) == Error(DivisionByZero)
    ensures Build("daily", "all", Document(Some([FreeRecord()]))).Ok?
  {
    AllRequested();
    assert FirstUnknown(["all"]) == None by {
      FirstUnknownFacts(["all"]);
    }
    ExpandFacts(["all"]);
    assert "breakdown" in AllCharts;
    ZeroCostFails("daily", "all");
  }

  /** Over a positive whole, guarded and unguarded shares agree. */
  lemma SharesAgree(items: seq<(string, real)>, whole: real)
    requires whole > 0.0
    ensures Shares(items, whole, false) == Shares(items, whole, true)
  {
  }

  /** With a positive total, the costliest region costs more than zero. */
  lemma TopRegionPositive(rs: seq<CostEntry>)
    requires Total(rs) > 0.0
    ensures RegionRanking(rs) != [] && FirstMax(RegionRanking(rs)).1 > 0.0
  {
    var ranked := RegionRanking(rs);
    RegionRankingFacts(rs);
    SomePositive(ranked);
    var i :| 0 <= i < |ranked| && ranked[i].1 > 0.0;
  }

  /** Over a positive total the written pie chart is the guarded one. */
  lemma PieAgrees(rs: seq<CostEntry>)
    requires Total(rs) > 0.0
    ensures Pie(rs, false) == Pie(rs, true)
  {
    SharesAgree(Slices(rs), Total(rs));
  }

  /** Over a positive total the written bar chart is the guarded one. */
  lemma BarsAgree(rs: seq<CostEntry>)
    requires Total(rs) > 0.0
    ensures Bars(rs, false) == Bars(rs, true)
  {
    SharesAgree(Breakdown(rs, ProviderKey), Total(rs));
  }

  /** Over a positive total the heatmap divides by a positive maximum, and the written cells are the guarded ones. */
  lemma HeatmapAgrees(rs: seq<CostEntry>)
    requires Total(rs) > 0.0
    ensures HeatmapDivides(rs)
    ensures Heatmap(rs, false) == Heatmap(rs, true)
  {
    TopRegionPositive(rs);
    var ranked := RegionRanking(rs);
    var top := FirstMax(ranked).1;
    assert forall i :: 0 <= i < |ranked| ==> Share(ranked[i].1, top, false) == Share(ranked[i].1, top, true);
  }

  /** With a positive total no requested chart divides by zero, and the guarded charts are the written ones. */
  lemma ChartsAgree(rs: seq<CostEntry>, requested: seq<string>)
    requires Total(rs) > 0.0
    ensures Divides(rs, requested)
    ensures Charts(rs, requested, false) == Charts(rs, requested, true)
  {
    PieAgrees(rs);
    BarsAgree(rs);
    HeatmapAgrees(rs);
  }

  /** With a positive total the written dashboard is the guarded one. */
  lemma AssembleAgrees(aggregation: string, requested: seq<string>, rs: seq<CostEntry>)
    requires Total(rs) > 0.0
    ensures Divides(rs, requested)
    ensures Assemble(aggregation, requested, rs, false) == Assemble(aggregation, requested, rs, true)
  {
    ChartsAgree(rs, requested);
  }

  /** Whenever the records' total is positive the written and the guarded tool agree. */
  lemma AsWrittenAgrees(aggregation: string, chartTypes: string, data: RecordsDocument)
    requires data.Document? && data.records.Some? ==> Total(data.records.value) > 0.0
    ensures BuildAsWritten(aggregation, chartTypes, data) == Build(aggregation, chartTypes, data)
  {
    match Validated(aggregation, chartTypes, data)
    case Error(_) =>
    case Warning(_) =>
    case Ok(v) =>
      ValidatedValue(aggregation, chartTypes, data);
      AssembleAgrees(aggregation, v.0, v.1);
  }
}
