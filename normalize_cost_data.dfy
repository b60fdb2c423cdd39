/**
 * NormalizeCostData: turns the output of one provider's fetch tool into
 * records of one shared schema, then summarises them (count, total cost,
 * currency, distinct services, the first 20 records).
 *
 * Each provider's normaliser is a loop appending one record per input item;
 * a missing required key is Python's KeyError, which ends the run with an
 * error naming that key.
 */
module NormalizeCostData {
  import opened Outcomes
  import opened Values
  import opened Text
  import opened Seqs

  const Providers: seq<string> := ["aws", "gcp", "azure"]
  const MaxReturned: nat := 20

  /** One item of an AWS or Azure `breakdown` list. */
  datatype BreakdownItem = BreakdownItem(dimension: Option<string>, cost: Option<Value>, date: Option<string>)

  /** One item of a GCP `records` list. */
  datatype GcpItem = GcpItem(
    projectId: Option<string>,
    skuDescription: Option<string>,
    serviceDescription: Option<string>,
    cost: Option<Value>,
    currency: Option<string>,
    usageAmount: Option<Value>,
    usageUnit: Option<string>,
    usageStartTime: Option<string>,
    usageEndTime: Option<string>)

  /**
   * The parsed `raw_data` object. A list key is `Invalid` when present but
   * not a list, which the loop cannot iterate over.
   */
  datatype RawDoc = RawDoc(
    accountId: Option<string>,
    subscriptionId: Option<string>,
    region: Option<string>,
    currency: Option<string>,
    dateRange: Option<string>,
    granularity: Option<string>,
    groupBy: Option<string>,
    breakdown: Field<seq<BreakdownItem>>,
    records: Field<seq<GcpItem>>)

  datatype RawInput = InvalidJson | Parsed(doc: RawDoc)

  datatype Metadata = Grouping(granularity: string, groupBy: string) | Sku(description: string)

  /** A record of the unified schema; its `tags` are always empty and are not represented. */
  datatype CostRecord = CostRecord(
    provider: string,
    accountId: string,
    resourceId: string,
    resourceName: string,
    resourceType: string,
    service: string,
    region: string,
    cost: Value,
    currency: string,
    usageAmount: Value,
    usageUnit: string,
    periodStart: string,
    periodEnd: string,
    metadata: Metadata)

  const Separator: string := " to "

  /** `date_range.split(" to ")[0]`. */
  function RangeStart(dateRange: string): string
  {
    SplitOn(dateRange, Separator)[0]
  }

  /** `date_range.split(" to ")[1] if " to " in date_range else ""`. */
  function RangeEnd(dateRange: string): string
  {
    if ContainsSub(dateRange, Separator) then
      SplitFacts(dateRange, Separator);
      SplitOn(dateRange, Separator)[1]
    else ""
  }

  lemma SplitFacts(s: string, sep: string)
    requires |sep| > 0 && ContainsSub(s, sep)
    ensures |SplitOn(s, sep)| >= 2
  {
  }

  /**
   * The start is the text before the first " to ", or all of it when there
   * is none, in which case the end is empty.
   */
  lemma RangeSplitFacts(dateRange: string)
    ensures FindSub(dateRange, Separator).None? ==> RangeStart(dateRange) == dateRange && RangeEnd(dateRange) == ""
    ensures FindSub(dateRange, Separator).Some? ==>
      RangeStart(dateRange) == dateRange[..FindSub(dateRange, Separator).value]
      && !ContainsSub(RangeStart(dateRange), Separator)
  {
    match FindSub(dateRange, Separator)
    case None =>
    case Some(i) =>
      PrefixBeforeFirst(dateRange, Separator, i);
  }

  predicate NoSpace(s: string)
  {
    forall k :: 0 <= k < |s| ==> s[k] != ' '
  }

  lemma NoSpaceNoSeparator(s: string)
    requires NoSpace(s)
    ensures !ContainsSub(s, Separator)
  {
    forall j | 0 <= j <= |s| - |Separator|
      ensures !OccursAt(s, Separator, j)
    {
      assert s[j..j + 4][0] == s[j];
    }
  }

  /** A range written "start to end" with space-free dates, as the fetch tools write it, splits back into its two dates. */
  lemma RangeRoundTrip(start: string, end: string)
    requires NoSpace(start) && NoSpace(end)
    ensures RangeStart(start + Separator + end) == start
    ensures RangeEnd(start + Separator + end) == end
  {
    var s := start + Separator + end;
    assert OccursAt(s, Separator, |start|) by {
      assert s[|start|..|start| + 4] == Separator;
    }
    forall j | 0 <= j < |start|
      ensures !OccursAt(s, Separator, j)
    {
      assert s[j] == start[j];
      if j + 4 <= |s| {
        assert s[j..j + 4][0] == s[j];
      }
    }
    assert FindSub(s, Separator) == Some(|start|);
    assert s[..|start|] == start;
    assert s[|start| + 4..] == end;
    NoSpaceNoSeparator(end);
    assert SplitOn(end, Separator) == [end];
  }

  /** The KeyError handler's message. */
  function MissingField(key: string): string
  {
    MissingFieldPrefix + key + ClosingQuote
  }

  /** The record of one AWS breakdown item: `item['dimension']` is read before `item["cost"]`. */
  function AwsRecord(doc: RawDoc, item: BreakdownItem): Outcome<CostRecord>
  {
    if item.dimension.None? then Error(MissingField("dimension"))
    else if item.cost.None? then Error(MissingField("cost"))
    else
      var dr := doc.dateRange.GetOr("");
      Ok(CostRecord("aws", doc.accountId.GetOr("unknown"), "aws:" + item.dimension.value, item.dimension.value,
        "service", item.dimension.value, doc.region.GetOr("global"), item.cost.value, doc.currency.GetOr("USD"),
        VNum(0.0), "unit", RangeStart(dr), RangeEnd(dr),
        Grouping(doc.granularity.GetOr("DAILY"), doc.groupBy.GetOr("SERVICE"))))
  }

  function AzureRecord(doc: RawDoc, item: BreakdownItem): Outcome<CostRecord>
  {
    if item.dimension.None? then Error(MissingField("dimension"))
    else if item.cost.None? then Error(MissingField("cost"))
    else
      var dr := doc.dateRange.GetOr("");
      Ok(CostRecord("azure", doc.subscriptionId.GetOr("unknown"), "azure:" + item.dimension.value, item.dimension.value,
        "service", item.dimension.value, doc.region.GetOr("global"), item.cost.value, doc.currency.GetOr("USD"),
        VNum(0.0), "unit", item.date.GetOr(RangeStart(dr)), item.date.GetOr(RangeEnd(dr)),
        Grouping(doc.granularity.GetOr("Daily"), doc.groupBy.GetOr("ServiceName"))))
  }

  function GcpRecord(item: GcpItem): CostRecord
  {
    var sku := item.skuDescription.GetOr("unknown");
    var service := item.serviceDescription.GetOr("unknown");
    CostRecord("gcp", item.projectId.GetOr("unknown"), "gcp:" + sku, sku, service, service, "global",
      item.cost.GetOr(VNum(0.0)), item.currency.GetOr("USD"), item.usageAmount.GetOr(VNum(0.0)),
      item.usageUnit.GetOr("unit"), item.usageStartTime.GetOr(""), item.usageEndTime.GetOr(""),
      Sku(item.skuDescription.GetOr("")))
  }

  /**
   * The generic handler's message when the item list is not a list: an
   * abbreviation of the text Python's `TypeError` carries (for example
   * "'int' object is not iterable"), whose type name is not modelled.
   */
  const NotIterable: string := "Error normalizing data: object is not iterable."

  function AwsNormalized(doc: RawDoc): Outcome<seq<CostRecord>>
  {
    match doc.breakdown
    case Absent => Ok([])
    case Invalid => Error(NotIterable)
    case Present(items) => MapAll(items, item => AwsRecord(doc, item))
  }

  function AzureNormalized(doc: RawDoc): Outcome<seq<CostRecord>>
  {
    match doc.breakdown
    case Absent => Ok([])
    case Invalid => Error(NotIterable)
    case Present(items) => MapAll(items, item => AzureRecord(doc, item))
  }

  function GcpNormalized(doc: RawDoc): Outcome<seq<CostRecord>>
  {
    match doc.records
    case Absent => Ok([])
    case Invalid => Error(NotIterable)
    case Present(items) => Ok(seq(|items|, k requires 0 <= k < |items| => GcpRecord(items[k])))
  }

  /** `_normalize_aws`: the loop appending one record per breakdown item. */
  method NormalizeAws(doc: RawDoc) returns (r: Outcome<seq<CostRecord>>)
    ensures r == AwsNormalized(doc)
  {
    if doc.breakdown.Absent? {
      return Ok([]);
    } else if doc.breakdown.Invalid? {
      return Error(NotIterable);
    }
    var items := doc.breakdown.value;
    var f := item => AwsRecord(doc, item);
    var normalized := [];
    var i := 0;
    while i < |items|
      invariant 0 <= i <= |items|
      invariant MapAll(items[..i], f) == Ok(normalized)
    {
      assert items[..i + 1][..i] == items[..i];
      var record := AwsRecord(doc, items[i]);
      if record.Error? {
        MapAllFailure(items, i + 1, f);
        return Error(record.msg);
      }
      normalized := normalized + [record.value];
      i := i + 1;
    }
    assert items[..|items|] == items;
    r := Ok(normalized);
  }

  /** `_normalize_azure`. */
  method NormalizeAzure(doc: RawDoc) returns (r: Outcome<seq<CostRecord>>)
    ensures r == AzureNormalized(doc)
  {
    if doc.breakdown.Absent? {
      return Ok([]);
    } else if doc.breakdown.Invalid? {
      return Error(NotIterable);
    }
    var items := doc.breakdown.value;
    var f := item => AzureRecord(doc, item);
    var normalized := [];
    var i := 0;
    while i < |items|
      invariant 0 <= i <= |items|
      invariant MapAll(items[..i], f) == Ok(normalized)
    {
      assert items[..i + 1][..i] == items[..i];
      var record := AzureRecord(doc, items[i]);
      if record.Error? {
        MapAllFailure(items, i + 1, f);
        return Error(record.msg);
      }
      normalized := normalized + [record.value];
      i := i + 1;
    }
    assert items[..|items|] == items;
    r := Ok(normalized);
  }

  /** `_normalize_gcp`: every key has a default, so it never fails on an item. */
  method NormalizeGcp(doc: RawDoc) returns (r: Outcome<seq<CostRecord>>)
    ensures r == GcpNormalized(doc)
  {
    if doc.records.Absent? {
      return Ok([]);
    } else if doc.records.Invalid? {
      return Error(NotIterable);
    }
    var items := doc.records.value;
    var normalized := [];
    var i := 0;
    while i < |items|
      invariant 0 <= i <= |items|
      invariant |normalized| == i
      invariant forall k :: 0 <= k < i ==> normalized[k] == GcpRecord(items[k])
    {
      normalized := normalized + [GcpRecord(items[i])];
      i := i + 1;
    }
    assert normalized == seq(|items|, k requires 0 <= k < |items| => GcpRecord(items[k]));
    r := Ok(normalized);
  }

  /**
   * An AWS breakdown normalises exactly when every item has a dimension and
   * a cost, giving one record per item in order, keyed "aws:" + dimension.
   */
  lemma AwsFacts(doc: RawDoc)
    requires doc.breakdown.Present?
    ensures var items := doc.breakdown.value;
      && (AwsNormalized(doc).Ok? <==> forall k :: 0 <= k < |items| ==> items[k].dimension.Some? && items[k].cost.Some?)
      && (AwsNormalized(doc).Ok? ==>
        var rs := AwsNormalized(doc).value;
        |rs| == |items|
        && forall k :: 0 <= k < |items| ==>
          rs[k].provider == "aws" && rs[k].resourceId == "aws:" + items[k].dimension.value
          && rs[k].service == items[k].dimension.value && rs[k].cost == items[k].cost.value
          && rs[k].accountId == doc.accountId.GetOr("unknown"))
  {
    MapAllFacts(doc.breakdown.value, item => AwsRecord(doc, item));
  }

  /** The error names the key missing from the first incomplete item, `dimension` before `cost`. */
  lemma AwsFirstMissing(doc: RawDoc, i: nat)
    requires doc.breakdown.Present? && i < |doc.breakdown.value|
    requires forall k :: 0 <= k < i ==> doc.breakdown.value[k].dimension.Some? && doc.breakdown.value[k].cost.Some?
    requires doc.breakdown.value[i].dimension.None? || doc.breakdown.value[i].cost.None?
    ensures AwsNormalized(doc) ==
      Error(MissingField(if doc.breakdown.value[i].dimension.None? then "dimension" else "cost"))
  {
    MapAllFirstError(doc.breakdown.value, i, item => AwsRecord(doc, item));
  }

  /** The same for Azure, with each item's own `date` overriding both ends of the document's range. */
  lemma AzureFacts(doc: RawDoc)
    requires doc.breakdown.Present?
    ensures var items := doc.breakdown.value;
      && (AzureNormalized(doc).Ok? <==> forall k :: 0 <= k < |items| ==> items[k].dimension.Some? && items[k].cost.Some?)
      && (AzureNormalized(doc).Ok? ==>
        var rs := AzureNormalized(doc).value;
        |rs| == |items|
        && forall k :: 0 <= k < |items| ==>
          rs[k].resourceId == "azure:" + items[k].dimension.value && rs[k].cost == items[k].cost.value
          && rs[k].accountId == doc.subscriptionId.GetOr("unknown")
          && (items[k].date.Some? ==> rs[k].periodStart == items[k].date.value && rs[k].periodEnd == items[k].date.value)
          && (items[k].date.None? ==>
                rs[k].periodStart == RangeStart(doc.dateRange.GetOr("")) && rs[k].periodEnd == RangeEnd(doc.dateRange.GetOr(""))))
  {
    MapAllFacts(doc.breakdown.value, item => AzureRecord(doc, item));
  }

  /** GCP records normalise one to one, falling back to "unknown", 0, "USD" and region "global". */
  lemma GcpFacts(doc: RawDoc)
    requires doc.records.Present?
    ensures GcpNormalized(doc).Ok?
    ensures var items := doc.records.value; var rs := GcpNormalized(doc).value;
      |rs| == |items|
      && forall k :: 0 <= k < |items| ==>
        rs[k].region == "global"
        && (items[k].projectId.None? ==> rs[k].accountId == "unknown")
        && (items[k].serviceDescription.None? ==> rs[k].service == "unknown")
        && (items[k].cost.None? ==> rs[k].cost == VNum(0.0))
        && (items[k].currency.None? ==> rs[k].currency == "USD")
        && rs[k].resourceId == "gcp:" + rs[k].resourceName
  {
  }

  /** Whether `isinstance(cost, (int, float, type(None)))`; a boolean is an int in Python. */
  predicate Counted(r: CostRecord)
  {
    r.cost.VNum? || r.cost.VNull? || r.cost.VBool?
  }

  /** `float(cost or 0)`. */
  function CountedCost(r: CostRecord): real
  {
    match r.cost
    case VNum(n) => n
    case VBool(b) => if b then 1.0 else 0.0
    case _ => 0.0
  }

  function ServiceOf(r: CostRecord): string
  {
    r.service
  }

  datatype NormalizeReport = NormalizeReport(
    normalizedCount: nat,
    totalCost: real,
    currency: string,
    uniqueServices: nat,
    provider: string,
    records: seq<CostRecord>)

  const BadProviderPrefix := "Invalid source_provider '"
  const BadProviderSuffix := "'. Must be one of: aws, gcp, azure"
  const InvalidJsonMessage := "Invalid JSON in raw_data parameter."
  const NoRecordsPrefix := "Normalization produced no records. Check raw_data structure for provider '"
  const ClosingQuote := "'."
  const MissingFieldPrefix := "Missing required field in raw_data: '"

  /** The tool's `run`. */
  function Normalize(provider: string, raw: RawInput): Outcome<NormalizeReport>
  {
    if provider !in Providers then Error(BadProviderPrefix + provider + BadProviderSuffix)
    else if raw.InvalidJson? then Error(InvalidJsonMessage)
    else
      var normalized :=
        if provider == "aws" then AwsNormalized(raw.doc)
        else if provider == "gcp" then GcpNormalized(raw.doc)
        else AzureNormalized(raw.doc);
      match normalized
      case Error(m) => Error(m)
      case Warning(m) => Warning(m)
      case Ok(rs) =>
        if rs == [] then Warning(NoRecordsPrefix + provider + ClosingQuote)
        else Ok(Summary(provider, rs))
  }

  /** The tool's `run`, calling the normaliser methods. */
  method Run(provider: string, raw: RawInput) returns (r: Outcome<NormalizeReport>)
    ensures r == Normalize(provider, raw)
  {
    if provider !in Providers {
      return Error(BadProviderPrefix + provider + BadProviderSuffix);
    }
    if raw.InvalidJson? {
      return Error(InvalidJsonMessage);
    }
    var normalized;
    if provider == "aws" {
      normalized := NormalizeAws(raw.doc);
    } else if provider == "gcp" {
      normalized := NormalizeGcp(raw.doc);
    } else {
      normalized := NormalizeAzure(raw.doc);
    }
    match normalized {
      case Error(m) => return Error(m);
      case Warning(m) => return Warning(m);
      case Ok(rs) =>
        if rs == [] {
          return Warning(NoRecordsPrefix + provider + ClosingQuote);
        }
        r := Ok(Summary(provider, rs));
    }
  }

  /**
   * An unknown provider and unparsable JSON are errors; a document with no
   * item list for its provider gives the no-records warning.
   */
  lemma NormalizeAnswers(provider: string, raw: RawInput)
    ensures provider !in Providers ==> Normalize(provider, raw).Error?
    ensures provider in Providers && raw.Parsed? && (if provider == "gcp" then raw.doc.records.Absent? else raw.doc.breakdown.Absent?)
      ==> Normalize(provider, raw).Warning?
    ensures provider == "gcp" && raw.Parsed? && raw.doc.records.Present? ==>
      (Normalize(provider, raw).Ok? <==> raw.doc.records.value != [])
  {
  }

  /** `[r["service"] for r in normalized]`. */
  function Services(normalized: seq<CostRecord>): (r: seq<string>)
    ensures |r| == |normalized|
    ensures forall k :: 0 <= k < |normalized| ==> r[k] == normalized[k].service
  {
    seq(|normalized|, k requires 0 <= k < |normalized| => normalized[k].service)
  }

  function Summary(provider: string, normalized: seq<CostRecord>): NormalizeReport
    requires normalized != []
  {
    NormalizeReport(|normalized|, SumOf(Filter(normalized, Counted), CountedCost), normalized[0].currency,
      |Dedup(Services(normalized))|, provider, Take(normalized, MaxReturned))
  }

  /**
   * The count is the full number of records while at most 20 are returned,
   * those being the first ones, and there are between 1 and `count`
   * distinct services.
   */
  lemma SummaryFacts(provider: string, normalized: seq<CostRecord>)
    requires normalized != []
    ensures var r := Summary(provider, normalized);
      && r.normalizedCount == |normalized|
      && |r.records| == (if |normalized| < MaxReturned then |normalized| else MaxReturned)
      && r.records <= normalized
      && 1 <= r.uniqueServices <= r.normalizedCount
      && r.currency == normalized[0].currency
  {
    var services := Services(normalized);
    DedupLength(services);
    assert services[0] in Dedup(services);
  }

  /** Only numeric, boolean or null costs enter the total: records whose costs are all text or lists total 0. */
  lemma UncountedTotal(provider: string, normalized: seq<CostRecord>)
    requires normalized != []
    requires forall k :: 0 <= k < |normalized| ==> !Counted(normalized[k])
    ensures Summary(provider, normalized).totalCost == 0.0
  {
    MapFilterFacts(normalized, Counted, ServiceOf);
  }
}
