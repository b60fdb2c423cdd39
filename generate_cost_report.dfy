/**
 * GenerateCostReport: validates the output format and the aggregation
 * level, totals the cost records, breaks the total down by provider and by
 * the chosen level, ranks the level's items by cost and derives the
 * report's insights and its CSV form.
 *
 * Both breakdowns are Python dictionaries filled in a loop; the model keeps
 * a dictionary as the order in which its keys were first inserted together
 * with a map from key to accumulated cost, which is what `.items()` walks.
 */
module GenerateCostReport {
  import opened Outcomes
  import opened Seqs
  import opened Sorting
  import opened CostRecords

  const Formats: seq<string> := ["json", "csv", "html", "markdown"]
  const Levels: seq<string> := ["service", "region", "account", "tag", "environment", "provider"]

  /** The key a record is aggregated under at `level`; the last branch looks up the tag named after the level itself. */
  function KeyOf(level: string, e: CostEntry): string
  {
    if level == "service" then ServiceOf(e)
    else if level == "region" then RegionOf(e)
    else if level == "account" then e.accountId.GetOr("unknown")
    else if level == "provider" then ProviderOf(e)
    else if level == "environment" then TagOf(e, "environment")
    else TagOf(e, level)
  }

  function LevelKey(level: string): CostEntry -> string
  {
    e => KeyOf(level, e)
  }

  /**
   * "environment" reads the environment tag and "provider" the provider;
   * "tag" reads a tag whose name is literally "tag", so a record tagged only
   * with an environment counts as untagged there.
   */
  lemma KeyFacts(e: CostEntry)
    ensures KeyOf("environment", e) == TagOf(e, "environment")
    ensures KeyOf("tag", e) == TagOf(e, "tag")
    ensures KeyOf("provider", e) == ProviderOf(e)
    ensures e.tags.None? ==> KeyOf("environment", e) == "untagged" && KeyOf("tag", e) == "untagged"
    ensures e.tags == Some(map["environment" := "prod"]) ==> KeyOf("environment", e) == "prod" && KeyOf("tag", e) == "untagged"
  {
  }

  // ---------------------------------------------------------------------
  // Insights
  // ---------------------------------------------------------------------

  datatype Insight =
    | TopDriver(level: string, name: string, cost: real, percent: real)
    | MultiCloud(providers: nat)
    | UntaggedWarning(percent: real, cost: real)

  /** `aggregated_costs.get("untagged", 0)`. */
  function UntaggedCost(totals: map<string, real>): real
  {
    if "untagged" in totals then totals["untagged"] else 0.0
  }

  predicate WarnsUntagged(untagged: real, total: real)
  {
    untagged > 0.0 && Percent(untagged, total) > 10.0
  }

  function Insights(level: string, ranked: seq<(string, real)>, providers: nat, untagged: real, total: real): seq<Insight>
  {
    (if ranked != [] then [TopDriver(level, ranked[0].0, ranked[0].1, Percent(ranked[0].1, total))] else [])
    + (if providers > 1 then [MultiCloud(providers)] else [])
    + (if WarnsUntagged(untagged, total) then [UntaggedWarning(Percent(untagged, total), untagged)] else [])
  }

  /** The untagged warning fires exactly when the total is positive and the untagged cost is more than a tenth of it. */
  lemma WarnsUntaggedIff(untagged: real, total: real)
    ensures WarnsUntagged(untagged, total) <==> total > 0.0 && 10.0 * untagged > total
  {
    PercentAbove(untagged, total, 10.0);
  }

  /**
   * The top item leads the insights; a multi-cloud insight appears exactly
   * when there is more than one provider, and the untagged warning exactly
   * when untagged cost exceeds a tenth of a positive total.
   */
  lemma InsightFacts(level: string, ranked: seq<(string, real)>, providers: nat, untagged: real, total: real)
    ensures var ins := Insights(level, ranked, providers, untagged, total);
      && |ins| <= 3
      && (ranked != [] ==> ins[0] == TopDriver(level, ranked[0].0, ranked[0].1, Percent(ranked[0].1, total)))
      && ((exists i :: 0 <= i < |ins| && ins[i].MultiCloud?) <==> providers > 1)
      && ((exists i :: 0 <= i < |ins| && ins[i].UntaggedWarning?) <==> total > 0.0 && 10.0 * untagged > total)
  {
    var ins := Insights(level, ranked, providers, untagged, total);
    WarnsUntaggedIff(untagged, total);
    if providers > 1 {
      var at := if ranked != [] then 1 else 0;
      assert ins[at].MultiCloud?;
    }
    if WarnsUntagged(untagged, total) {
      assert ins[|ins| - 1].UntaggedWarning?;
    }
  }

  // ---------------------------------------------------------------------
  // CSV report
  // ---------------------------------------------------------------------

  /** A CSV line, before its numbers are formatted. */
  datatype CsvLine =
    | Title(timeRange: string)
    | Generated(at: string)
    | Blank
    | Header(level: string, currency: string)
    | Row(name: string, cost: real, percent: real)
    | TotalLine(total: real)

  function CsvRows(items: seq<(string, real)>, total: real): seq<CsvLine>
  {
    seq(|items|, i requires 0 <= i < |items| => Row(items[i].0, items[i].1, Percent(items[i].1, total)))
  }

  /** `_generate_csv_report`, as a list of lines. */
  function CsvLines(timeRange: string, now: string, level: string, currency: string, items: seq<(string, real)>): seq<CsvLine>
  {
    var total := SumOf(items, ItemCost);
    [Title(timeRange), Generated(now), Blank, Header(level, currency)] + CsvRows(items, total) + [Blank, TotalLine(total)]
  }

  method CsvReport(timeRange: string, now: string, level: string, currency: string, items: seq<(string, real)>)
    returns (lines: seq<CsvLine>)
    ensures lines == CsvLines(timeRange, now, level, currency, items)
  {
    lines := [Title(timeRange), Generated(now), Blank, Header(level, currency)];
    var total := 0.0;
    var i := 0;
    while i < |items|
      invariant 0 <= i <= |items|
      invariant total == SumOf(items[..i], ItemCost)
    {
      assert items[..i + 1][..i] == items[..i];
      total := total + items[i].1;
      i := i + 1;
    }
    assert items[..i] == items;
    i := 0;
    while i < |items|
      invariant 0 <= i <= |items|
      invariant lines == [Title(timeRange), Generated(now), Blank, Header(level, currency)] + CsvRows(items[..i], total)
    {
      assert CsvRows(items[..i + 1], total) == CsvRows(items[..i], total) + [Row(items[i].0, items[i].1, Percent(items[i].1, total))];
      lines := lines + [Row(items[i].0, items[i].1, Percent(items[i].1, total))];
      i := i + 1;
    }
    assert items[..i] == items;
    lines := lines + [Blank, TotalLine(total)];
  }

  function RowPercent(total: real): ((string, real)) -> real
  {
    (item: (string, real)) => Percent(item.1, total)
  }

  /** With a positive total, the items' percentages are their summed cost as a percentage of it. */
  lemma {:induction false} PercentsAdd(items: seq<(string, real)>, total: real)
    requires total > 0.0
    ensures SumOf(items, RowPercent(total)) == SumOf(items, ItemCost) / total * 100.0
  {
    if items != [] {
      var front := items[..|items| - 1];
      var x := items[|items| - 1];
      PercentsAdd(front, total);
      assert (SumOf(front, ItemCost) + x.1) / total == SumOf(front, ItemCost) / total + x.1 / total;
    }
  }

  /**
   * Four header lines, a row per item in order, a blank line and a TOTAL
   * line holding the items' sum.
   */
  lemma CsvLayout(timeRange: string, now: string, level: string, currency: string, items: seq<(string, real)>)
    ensures var lines := CsvLines(timeRange, now, level, currency, items); var total := SumOf(items, ItemCost);
      && |lines| == |items| + 6
      && lines[..4] == [Title(timeRange), Generated(now), Blank, Header(level, currency)]
      && (forall i :: 0 <= i < |items| ==> lines[4 + i].Row? && lines[4 + i].name == items[i].0 && lines[4 + i].cost == items[i].1)
      && lines[|items| + 4] == Blank
      && lines[|items| + 5] == TotalLine(total)
      && lines[4..|items| + 4] == CsvRows(items, total)
  {
  }

  /** The percentage a CSV line prints in its third column. */
  function LinePercent(line: CsvLine): real
  {
    if line.Row? then line.percent else 0.0
  }

  lemma {:induction false} RowsPercentSum(items: seq<(string, real)>, total: real)
    ensures SumOf(CsvRows(items, total), LinePercent) == SumOf(items, RowPercent(total))
  {
    if items != [] {
      var front := items[..|items| - 1];
      var rows := CsvRows(items, total);
      assert rows[..|rows| - 1] == CsvRows(front, total);
      RowsPercentSum(front, total);
    }
  }

  /** With a positive sum, the item rows' percentages add up to the 100% the TOTAL line prints. */
  lemma CsvPercents(items: seq<(string, real)>)
    requires SumOf(items, ItemCost) > 0.0
    ensures SumOf(CsvRows(items, SumOf(items, ItemCost)), LinePercent) == 100.0
  {
    var total := SumOf(items, ItemCost);
    RowsPercentSum(items, total);
    PercentsAdd(items, total);
    assert total / total == 1.0;
  }

  // ---------------------------------------------------------------------
  // The report
  // ---------------------------------------------------------------------

  datatype TopItem = TopItem(name: string, cost: real, percent: real)

  /** The report content: the CSV lines, or the name of a format whose rendering is not modelled. */
  datatype Content = Csv(lines: seq<CsvLine>) | Rendered(format: string)

  datatype CostReport = CostReport(
    timeRange: string,
    format: string,
    level: string,
    recordCount: nat,
    totalCost: real,
    currency: string,
    providerBreakdown: seq<(string, real)>,
    ranked: seq<(string, real)>,
    topFive: seq<TopItem>,
    insights: seq<Insight>,
    content: Content)

  function BadFormat(format: string): string
  {
    "Invalid format '" + format + "'. Must be one of: json, csv, html, markdown"
  }

  function BadLevel(level: string): string
  {
    "Invalid aggregation_level '" + level + "'. Must be one of: service, region, account, tag, environment, provider"
  }

  const InvalidData: string := "Invalid JSON in data parameter."
  const NoRecordsKey: string := "data must contain 'records' array with cost entries."
  const NoRecords: string := "No cost records to report."
  const DivisionByZero: string := "Error generating report: division by zero."

  /** Steps 1-3: format, aggregation level, then the records. */
  function Validated(format: string, level: string, data: RecordsDocument): (r: Outcome<seq<CostEntry>>)
    ensures r.Ok? ==> r.value != []
  {
    if format !in Formats then Error(BadFormat(format))
    else if level !in Levels then Error(BadLevel(level))
    else if data.InvalidJson? then Error(InvalidData)
    else if data.records.None? then Error(NoRecordsKey)
    else if data.records.value == [] then Warning(NoRecords)
    else Ok(data.records.value)
  }

  function Ranked(rs: seq<CostEntry>, level: string): seq<(string, real)>
  {
    SortByDescending(Breakdown(rs, LevelKey(level)), ItemCost)
  }

  /** `top_5_items` as the code reads it: the percentage divides by the total unguarded. */
  function TopFiveAsWritten(ranked: seq<(string, real)>, total: real): seq<TopItem>
    requires total != 0.0 || ranked == []
  {
    var five := Take(ranked, 5);
    seq(|five|, i requires 0 <= i < |five| => TopItem(five[i].0, five[i].1, five[i].1 / total * 100.0))
  }

  /** `top_5_items` with the guard the JSON report and the insights use. */
  function TopFive(ranked: seq<(string, real)>, total: real): seq<TopItem>
  {
    var five := Take(ranked, 5);
    seq(|five|, i requires 0 <= i < |five| => TopItem(five[i].0, five[i].1, Percent(five[i].1, total)))
  }

  /** Steps 4-9 for validated records, given the top-five list. */
  function Summarise(format: string, timeRange: string, level: string, now: string, rs: seq<CostEntry>, topFive: seq<TopItem>): CostReport
  {
    var total := Total(rs);
    var ranked := Ranked(rs, level);
    var providers := Breakdown(rs, ProviderOf);
    var insights := Insights(level, ranked, |providers|, UntaggedCost(Tallied(rs, LevelKey(level))), total);
    var content := if format == "csv" then Csv(CsvLines(timeRange, now, level, Currency(rs), ranked)) else Rendered(format);
    CostReport(timeRange, format, level, |rs|, total, Currency(rs), providers, ranked, topFive, insights, content)
  }

  /** The tool's `run` as written: a zero total makes the top-five percentage raise. */
  function GenerateAsWritten(format: string, timeRange: string, level: string, data: RecordsDocument, now: string): Outcome<CostReport>
  {
    match Validated(format, level, data)
    case Error(m) => Error(m)
    case Warning(m) => Warning(m)
    case Ok(rs) =>
      if Total(rs) == 0.0 && Ranked(rs, level) != [] then Error(DivisionByZero)
      else Ok(Summarise(format, timeRange, level, now, rs, TopFiveAsWritten(Ranked(rs, level), Total(rs))))
  }

  /** The tool's `run` with the top-five percentage guarded as elsewhere in the tool. */
  function Generate(format: string, timeRange: string, level: string, data: RecordsDocument, now: string): Outcome<CostReport>
  {
    match Validated(format, level, data)
    case Error(m) => Error(m)
    case Warning(m) => Warning(m)
    case Ok(rs) => Ok(Report(format, timeRange, level, now, rs))
  }

  /** The report built from validated records. */
  function Report(format: string, timeRange: string, level: string, now: string, rs: seq<CostEntry>): CostReport
  {
    Summarise(format, timeRange, level, now, rs, TopFive(Ranked(rs, level), Total(rs)))
  }

  method Run(format: string, timeRange: string, level: string, data: RecordsDocument, now: string) returns (r: Outcome<CostReport>)
    ensures r == Generate(format, timeRange, level, data, now)
  {
    if format !in Formats {
      return Error(BadFormat(format));
    }
    if level !in Levels {
      return Error(BadLevel(level));
    }
    if data.InvalidJson? {
      return Error(InvalidData);
    }
    if data.records.None? {
      return Error(NoRecordsKey);
    }
    var rs := data.records.value;
    if rs == [] {
      return Warning(NoRecords);
    }
    var report := Summarize(format, timeRange, level, now, rs);
    r := Ok(report);
  }

  /** Steps 4-9 of `run`: totals, breakdowns, ranking, insights and content. */
  method Summarize(format: string, timeRange: string, level: string, now: string, rs: seq<CostEntry>) returns (report: CostReport)
    ensures report == Report(format, timeRange, level, now, rs)
  {
    var total := TotalCost(rs);
    var currency := if rs != [] then rs[0].currency.GetOr("USD") else "USD";
    var _, providers := BreakdownOf(rs, ProviderOf);
    var totals, items := BreakdownOf(rs, LevelKey(level));
    var ranked := RankItems(items);
    var insights := Insights(level, ranked, |providers|, UntaggedCost(totals), total);
    var content;
    if format == "csv" {
      var lines := CsvReport(timeRange, now, level, currency, ranked);
      content := Csv(lines);
    } else {
      content := Rendered(format);
    }
    report := CostReport(timeRange, format, level, |rs|, total, currency, providers, ranked, TopFive(ranked, total), insights, content);
  }

  // ---------------------------------------------------------------------
  // Properties of the report
  // ---------------------------------------------------------------------

  /**
   * An unknown format or level, unparsable data and a missing "records"
   * array are errors, an empty array is a warning, and anything else gives
   * the report of those records.
   */
  lemma GenerateAnswers(format: string, timeRange: string, level: string, data: RecordsDocument, now: string)
    ensures var r := Generate(format, timeRange, level, data, now);
      && (r.Ok? <==> format in Formats && level in Levels && data.Document? && data.records.Some? && data.records.value != [])
      && (r.Warning? <==> format in Formats && level in Levels && data.Document? && data.records == Some([]))
      && (format !in Formats || level !in Levels ==> r.Error?)
      && (r.Ok? ==> r.value == Report(format, timeRange, level, now, data.records.value))
  {
  }

  /** The provider breakdown, the level breakdown and the ranked items all sum to the total cost of the records. */
  lemma ReportTotals(format: string, timeRange: string, level: string, now: string, rs: seq<CostEntry>)
    ensures var r := Report(format, timeRange, level, now, rs);
      && r.recordCount == |rs|
      && r.totalCost == SumOf(rs, Cost)
      && SumOf(r.providerBreakdown, ItemCost) == r.totalCost
      && SumOf(Breakdown(rs, LevelKey(level)), ItemCost) == r.totalCost
      && SumOf(r.ranked, ItemCost) == r.totalCost
  {
    var items := Breakdown(rs, LevelKey(level));
    BreakdownTotal(rs, ProviderOf);
    BreakdownTotal(rs, LevelKey(level));
    SortByDescendingFacts(items, ItemCost, 0.0);
    SumOfPermutation(SortByDescending(items, ItemCost), items, ItemCost);
  }

  /**
   * The ranking is the level's breakdown reordered by cost, highest first,
   * with equal costs kept in insertion order; its first item is the most
   * expensive one.
   */
  lemma RankingFacts(rs: seq<CostEntry>, level: string, v: real)
    requires rs != []
    ensures var ranked := Ranked(rs, level); var items := Breakdown(rs, LevelKey(level));
      && multiset(ranked) == multiset(items)
      && (forall i, j :: 0 <= i < j < |ranked| ==> ranked[i].1 >= ranked[j].1)
      && WithKey(ranked, ItemCost, v) == WithKey(items, ItemCost, v)
      && ranked != []
      && (forall x :: x in items ==> x.1 <= ranked[0].1)
  {
    var items := Breakdown(rs, LevelKey(level));
    var ranked := Ranked(rs, level);
    SortByDescendingFacts(items, ItemCost, v);
    BreakdownNames(rs, LevelKey(level));
    assert exists i :: 0 <= i < |items| && items[i].0 == KeyOf(level, rs[0]);
    forall x | x in items
      ensures x.1 <= ranked[0].1
    {
      assert x in multiset(ranked);
      var j :| 0 <= j < |ranked| && ranked[j] == x;
    }
  }

  /** The top item leads the insights. */
  lemma TopInsight(format: string, timeRange: string, level: string, now: string, rs: seq<CostEntry>)
    requires rs != []
    ensures var r := Report(format, timeRange, level, now, rs);
      && r.ranked != []
      && r.insights[0].TopDriver? && r.insights[0].name == r.ranked[0].0 && r.insights[0].cost == r.ranked[0].1
  {
    var r := Report(format, timeRange, level, now, rs);
    var ranked := Ranked(rs, level);
    var n := |Breakdown(rs, ProviderOf)|;
    var u := UntaggedCost(Tallied(rs, LevelKey(level)));
    assert r.ranked == ranked;
    assert r.insights == Insights(level, ranked, n, u, Total(rs));
    RankingFacts(rs, level, 0.0);
    InsightFacts(level, ranked, n, u, Total(rs));
  }

  /** The top five are the first five ranked items, or all of them when there are fewer. */
  lemma TopFiveFacts(format: string, timeRange: string, level: string, now: string, rs: seq<CostEntry>)
    ensures var r := Report(format, timeRange, level, now, rs);
      && |r.topFive| == (if |r.ranked| < 5 then |r.ranked| else 5)
      && (forall i :: 0 <= i < |r.topFive| ==> r.topFive[i].name == r.ranked[i].0 && r.topFive[i].cost == r.ranked[i].1)
  {
    var r := Report(format, timeRange, level, now, rs);
    assert r.ranked == Ranked(rs, level);
    assert r.topFive == TopFive(Ranked(rs, level), Total(rs));
  }

  /** `aggregated_costs.get("untagged", 0)` is the cost of the records keyed "untagged" at this level. */
  lemma UntaggedOfRecords(rs: seq<CostEntry>, level: string)
    ensures UntaggedCost(Tallied(rs, LevelKey(level))) == SumOf(Filter(rs, KeyIs(LevelKey(level), "untagged")), Cost)
  {
    var key := LevelKey(level);
    KeyTotalIsFilteredSum(rs, key, "untagged");
    if "untagged" !in Tallied(rs, key) {
      KeyTotalAbsent(rs, key, "untagged");
    }
  }

  /**
   * The multi-cloud insight appears exactly when two records name different
   * providers; the untagged warning exactly when the records keyed
   * "untagged" at this level cost more than a tenth of a positive total.
   */
  lemma InsightsOfReport(format: string, timeRange: string, level: string, now: string, rs: seq<CostEntry>)
    ensures var r := Report(format, timeRange, level, now, rs);
      var untagged := SumOf(Filter(rs, KeyIs(LevelKey(level), "untagged")), Cost);
      && ((exists i :: 0 <= i < |r.insights| && r.insights[i].MultiCloud?) <==>
          exists i, j :: 0 <= i < |rs| && 0 <= j < |rs| && ProviderOf(rs[i]) != ProviderOf(rs[j]))
      && ((exists i :: 0 <= i < |r.insights| && r.insights[i].UntaggedWarning?) <==>
          r.totalCost > 0.0 && 10.0 * untagged > r.totalCost)
  {
    var r := Report(format, timeRange, level, now, rs);
    var ranked := Ranked(rs, level);
    var n := |Breakdown(rs, ProviderOf)|;
    var u := UntaggedCost(Tallied(rs, LevelKey(level)));
    assert r.insights == Insights(level, ranked, n, u, Total(rs));
    assert r.totalCost == Total(rs);
    InsightFacts(level, ranked, n, u, Total(rs));
    KeyCount(rs, ProviderOf);
    UntaggedOfRecords(rs, level);
  }

  /** Only a CSV request gets CSV content; its TOTAL line is the report's total cost, and with a positive total its percent column adds up to 100. */
  lemma CsvOfReport(format: string, timeRange: string, level: string, now: string, rs: seq<CostEntry>)
    ensures var r := Report(format, timeRange, level, now, rs);
      && (r.content.Csv? <==> format == "csv")
      && (r.content.Csv? ==>
          |r.content.lines| == |r.ranked| + 6
          && r.content.lines[|r.ranked| + 5] == TotalLine(r.totalCost)
          && r.content.lines[3] == Header(level, r.currency)
          && (r.totalCost > 0.0 ==> SumOf(r.content.lines[4..|r.ranked| + 4], LinePercent) == 100.0))
  {
    var r := Report(format, timeRange, level, now, rs);
    ReportTotals(format, timeRange, level, now, rs);
    CsvLayout(timeRange, now, level, r.currency, r.ranked);
    if r.totalCost > 0.0 {
      CsvPercents(r.ranked);
    }
  }

  /** A single record is its own breakdown and ranking. */
  lemma SingleRecord(e: CostEntry, level: string)
    ensures Total([e]) == Cost(e)
    ensures Ranked([e], level) == [(KeyOf(level, e), Cost(e))]
  {
    var rs := [e];
    var key := LevelKey(level);
    assert rs[..0] == [];
    assert KeysOf(rs, key) == [KeyOf(level, e)];
    assert FirstSeen(rs, key) == [KeyOf(level, e)];
    assert key(e) == KeyOf(level, e);
    assert KeyTotal(rs, key, KeyOf(level, e)) == KeyTotal(rs[..0], key, KeyOf(level, e)) + Cost(e);
    var items := Breakdown(rs, key);
    assert items == [(KeyOf(level, e), Cost(e))];
    assert SortBy(items, Negated(ItemCost)) == [items[0]] by {
      assert items[..0] == [];
    }
    SumOfSingle(e, Cost);
  }

  /** A single record costing nothing: the code as written fails on the top-five percentage, the guarded report answers 0%. */
  lemma ZeroTotalFails()
    ensures var data := Document(Some([CostEntry(Some("aws"), Some("EC2"), None, None, Some(0.0), None, None, None)]));
      && GenerateAsWritten("json", "2025-12", "service", data, "now").Error?
      && Generate("json", "2025-12", "service", data, "now").Ok?
      && Generate("json", "2025-12", "service", data, "now").value.topFive == [TopItem("EC2", 0.0, 0.0)]
  {
    var e := CostEntry(Some("aws"), Some("EC2"), None, None, Some(0.0), None, None, None);
    SingleRecord(e, "service");
    assert TopFive(Ranked([e], "service"), Total([e])) == [TopItem("EC2", 0.0, 0.0)];
  }

  /** Whenever the records' total is positive the written and the guarded report agree. */
  lemma AsWrittenAgrees(format: string, timeRange: string, level: string, data: RecordsDocument, now: string)
    requires Validated(format, level, data).Ok? ==> Total(Validated(format, level, data).value) > 0.0
    ensures GenerateAsWritten(format, timeRange, level, data, now) == Generate(format, timeRange, level, data, now)
  {
    if Validated(format, level, data).Ok? {
      var rs := Validated(format, level, data).value;
      var ranked := Ranked(rs, level);
      assert TopFiveAsWritten(ranked, Total(rs)) == TopFive(ranked, Total(rs));
    }
  }
}
