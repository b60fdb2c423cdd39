/**
 * FetchGCPBillingExport: checks the date range and the optional project
 * filter, then filters the billing rows of the export to that project and
 * totals them.
 *
 * The rows are a parameter (the tool itself uses three fixed rows in place
 * of the BigQuery query, given here as `SampleRows`), and each date is given
 * both as its text and as the day number `strptime` would parse it to.
 */
module FetchGCPBillingExport {
  import opened Outcomes
  import opened Seqs

  datatype BillingRow = BillingRow(
    projectId: string,
    serviceDescription: string,
    skuDescription: string,
    usageStartTime: string,
    usageEndTime: string,
    cost: real,
    currency: string,
    usageAmount: real,
    usageUnit: string)

  /** A date argument: its text, and its day number when it parses as YYYY-MM-DD. */
  datatype DateArg = DateArg(text: string, day: Option<int>)

  const MaxReturned: nat := 10

  predicate Lowercase(c: char)
  {
    'a' <= c <= 'z'
  }

  predicate Digit(c: char)
  {
    '0' <= c <= '9'
  }

  /** `[a-z][a-z0-9-]{4,28}[a-z0-9]`, matched against the whole text. */
  predicate ProjectIdPattern(s: string)
  {
    6 <= |s| <= 30
    && Lowercase(s[0])
    && (Lowercase(s[|s| - 1]) || Digit(s[|s| - 1]))
    && forall k :: 1 <= k < |s| - 1 ==> Lowercase(s[k]) || Digit(s[k]) || s[k] == '-'
  }

  /**
   * `re.match(r'^...$', s)` as written: Python's `$` also matches just before
   * a final newline, so one trailing "\n" gets through.
   */
  predicate ProjectIdAcceptedAsWritten(s: string)
  {
    ProjectIdPattern(s) || (|s| >= 1 && s[|s| - 1] == '\n' && ProjectIdPattern(s[..|s| - 1]))
  }

  /** The check as intended: the whole filter is a project id. */
  predicate ProjectIdAccepted(s: string)
  {
    ProjectIdPattern(s)
  }

  /** An accepted filter is 6 to 30 characters of lower-case letters, digits and hyphens, starting with a letter and not ending with a hyphen. */
  lemma ProjectIdFacts(s: string)
    requires ProjectIdAccepted(s)
    ensures 6 <= |s| <= 30
    ensures forall k :: 0 <= k < |s| ==> Lowercase(s[k]) || Digit(s[k]) || s[k] == '-'
    ensures Lowercase(s[0]) && s[|s| - 1] != '-'
    ensures '\n' !in s
  {
  }

  /** The written check accepts "finops-prod\n", which is not a project id and matches no row exactly. */
  lemma TrailingNewlineAccepted()
    ensures ProjectIdAcceptedAsWritten("finops-prod\n")
    ensures !ProjectIdAccepted("finops-prod\n")
  {
    var s := "finops-prod\n";
    assert s[..|s| - 1] == "finops-prod";
  }

  /** On text without a newline the two checks agree. */
  lemma ProjectIdChecksAgree(s: string)
    requires '\n' !in s
    ensures ProjectIdAcceptedAsWritten(s) <==> ProjectIdAccepted(s)
  {
    if |s| >= 1 {
      assert s[|s| - 1] in s;
    }
  }

  predicate InProject(filter: string, r: BillingRow)
  {
    r.projectId == filter
  }

  function RowCost(r: BillingRow): real
  {
    r.cost
  }

  /** The rows the filter keeps: all of them when it is empty. */
  function Kept(rows: seq<BillingRow>, filter: string): seq<BillingRow>
  {
    if filter == "" then rows else Filter(rows, r => InProject(filter, r))
  }

  datatype BillingReport = BillingReport(
    dateRange: string,
    projectFilter: string,
    totalCost: real,
    currency: string,
    recordCount: nat,
    records: seq<BillingRow>)

  const BadDateFormat := "Invalid date format. Use YYYY-MM-DD."
  const EndBeforePrefix := "end_date ("
  const EndBeforeMiddle := ") cannot be before start_date ("
  const BadFilterPrefix := "Invalid project_filter format '"

  /** The tool's `run` after the credential checks, with the check as written. */
  function FetchAsWritten(start: DateArg, end: DateArg, filter: string, rows: seq<BillingRow>): Outcome<BillingReport>
  {
    if start.day.None? || end.day.None? then Error(BadDateFormat)
    else if end.day.value < start.day.value then
      Error(EndBeforePrefix + end.text + EndBeforeMiddle + start.text + ").")
    else if filter != "" && !ProjectIdAcceptedAsWritten(filter) then Error(BadFilterPrefix + filter + "'.")
    else Ok(Report(start, end, filter, rows))
  }

  /** The tool's `run` after the credential checks, with the intended project-id check. */
  function Fetch(start: DateArg, end: DateArg, filter: string, rows: seq<BillingRow>): Outcome<BillingReport>
  {
    if start.day.None? || end.day.None? then Error(BadDateFormat)
    else if end.day.value < start.day.value then
      Error(EndBeforePrefix + end.text + EndBeforeMiddle + start.text + ").")
    else if filter != "" && !ProjectIdAccepted(filter) then Error(BadFilterPrefix + filter + "'.")
    else Ok(Report(start, end, filter, rows))
  }

  function Report(start: DateArg, end: DateArg, filter: string, rows: seq<BillingRow>): BillingReport
  {
    var kept := Kept(rows, filter);
    BillingReport(start.text + " to " + end.text, if filter == "" then "all_projects" else filter,
      SumOf(kept, RowCost), "USD", |kept|, Take(kept, MaxReturned))
  }

  /** With the written check, a filter with a trailing newline passes validation and then matches no row. */
  lemma NewlineFilterReturnsNothing(start: DateArg, end: DateArg, rows: seq<BillingRow>)
    requires start.day.Some? && end.day.Some? && start.day.value <= end.day.value
    requires forall k :: 0 <= k < |rows| ==> '\n' !in rows[k].projectId
    ensures FetchAsWritten(start, end, "finops-prod\n", rows).Ok?
    ensures FetchAsWritten(start, end, "finops-prod\n", rows).value.recordCount == 0
    ensures Fetch(start, end, "finops-prod\n", rows).Error?
  {
    TrailingNewlineAccepted();
    var p := (r: BillingRow) => InProject("finops-prod\n", r);
    forall k | 0 <= k < |rows|
      ensures !p(rows[k])
    {
      assert "finops-prod\n"[11] == '\n';
    }
    MapFilterFacts(rows, p, RowCost);
  }

  /** The written and the intended tool agree on every filter without a newline. */
  lemma FetchAgrees(start: DateArg, end: DateArg, filter: string, rows: seq<BillingRow>)
    requires '\n' !in filter
    ensures FetchAsWritten(start, end, filter, rows) == Fetch(start, end, filter, rows)
  {
    ProjectIdChecksAgree(filter);
  }

  /**
   * Dates out of order are rejected while equal dates are accepted; an
   * invalid non-empty filter is rejected; an empty filter is reported as
   * "all_projects".
   */
  lemma FetchAnswers(start: DateArg, end: DateArg, filter: string, rows: seq<BillingRow>)
    ensures Fetch(start, end, filter, rows).Ok? <==>
      start.day.Some? && end.day.Some? && start.day.value <= end.day.value
      && (filter == "" || ProjectIdAccepted(filter))
    ensures !Fetch(start, end, filter, rows).Warning?
    ensures start.day.Some? && start.day == end.day && filter == "" ==>
      Fetch(start, end, filter, rows).Ok? && Fetch(start, end, filter, rows).value.projectFilter == "all_projects"
  {
  }

  /**
   * A filter keeps exactly the rows of that project; the total is their
   * cost, the count is how many there are, and at most the first 10 are
   * returned.
   */
  lemma ReportFacts(start: DateArg, end: DateArg, filter: string, rows: seq<BillingRow>)
    ensures var r := Report(start, end, filter, rows); var kept := Kept(rows, filter);
      && (filter != "" ==> forall x :: x in kept <==> x in rows && x.projectId == filter)
      && (filter == "" ==> kept == rows)
      && r.recordCount == |kept| <= |rows|
      && r.totalCost == SumOf(kept, RowCost)
      && |r.records| <= MaxReturned && r.records <= kept
  {
    FilterMembers(rows, r => InProject(filter, r));
  }

  /** The three rows the tool stands in for the BigQuery result. */
  function SampleRows(start: string, end: string): seq<BillingRow>
  {
    [ BillingRow("finops-prod", "Compute Engine", "N1 Predefined Instance Core running in Americas",
        start + "T00:00:00Z", start + "T01:00:00Z", 5.42, "USD", 120.0, "hour"),
      BillingRow("finops-prod", "BigQuery", "Analysis",
        start + "T00:00:00Z", start + "T23:59:59Z", 3.75, "USD", 750.0, "gibibyte"),
      BillingRow("finops-dev", "Cloud Storage", "Standard Storage US Multi-region",
        start + "T00:00:00Z", end + "T23:59:59Z", 2.10, "USD", 100.0, "gibibyte month") ]
  }

  /** Filtering the sample rows to "finops-prod" keeps its two rows, costing 9.17. */
  lemma SampleProdRows(start: DateArg, end: DateArg)
    requires start.day.Some? && end.day.Some? && start.day.value <= end.day.value
    ensures Fetch(start, end, "finops-prod", SampleRows(start.text, end.text)).Ok?
    ensures Fetch(start, end, "finops-prod", SampleRows(start.text, end.text)).value.recordCount == 2
    ensures Fetch(start, end, "finops-prod", SampleRows(start.text, end.text)).value.totalCost == 9.17
  {
    var rows := SampleRows(start.text, end.text);
    var p := (r: BillingRow) => InProject("finops-prod", r);
    assert rows[..2][..1] == rows[..1];
    assert rows[..3] == rows;
    assert Filter(rows[..1], p) == [rows[0]];
    assert Filter(rows[..2], p) == [rows[0], rows[1]];
    assert Filter(rows, p) == [rows[0], rows[1]];
    var two := [rows[0], rows[1]];
    assert two[..1] == [rows[0]];
    SumOfSingle(rows[0], RowCost);
    assert SumOf(two, RowCost) == 5.42 + 3.75;
  }
}
