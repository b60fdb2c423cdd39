/**
 * AnalyzeRightsizing: compares a resource's CPU and memory utilisation
 * with its provisioned size and recommends a smaller or larger instance
 * type, or no change, with the cost impact and the risk of the change.
 *
 * The instance catalogue and the one-step size tables are constants; the
 * usage metrics arrive parsed, each field either missing, not a number or
 * present.
 */
module AnalyzeRightsizing {
  import opened Outcomes

  const Providers: seq<string> := ["aws", "gcp", "azure"]

  /** An entry of the instance catalogue. */
  datatype Spec = Spec(vcpu: nat, memoryGb: real, monthlyCost: real)

  const Catalog: map<string, map<string, Spec>> := map[
    "aws" := map[
      "t3.micro" := Spec(2, 1.0, 7.60),
      "t3.small" := Spec(2, 2.0, 15.20),
      "t3.medium" := Spec(2, 4.0, 30.40),
      "m5.large" := Spec(2, 8.0, 70.08),
      "m5.xlarge" := Spec(4, 16.0, 140.16),
      "m5.2xlarge" := Spec(8, 32.0, 280.32),
      "m5.4xlarge" := Spec(16, 64.0, 560.64)],
    "gcp" := map[
      "n1-standard-1" := Spec(1, 3.75, 24.27),
      "n1-standard-2" := Spec(2, 7.5, 48.54),
      "n1-standard-4" := Spec(4, 15.0, 97.09),
      "n1-standard-8" := Spec(8, 30.0, 194.18)],
    "azure" := map[
      "Standard_B1s" := Spec(1, 1.0, 7.59),
      "Standard_B2s" := Spec(2, 4.0, 30.37),
      "Standard_D2s_v3" := Spec(2, 8.0, 70.08),
      "Standard_D4s_v3" := Spec(4, 16.0, 140.16),
      "Standard_D8s_v3" := Spec(8, 32.0, 280.32)]]

  /** `_get_instance_specs`: `instance_catalog.get(provider, {}).get(instance_type)`. */
  function InstanceSpecs(provider: string, instanceType: string): (r: Option<Spec>)
    ensures r.Some? <==> provider in Catalog && instanceType in Catalog[provider]
  {
    if provider in Catalog && instanceType in Catalog[provider] then Some(Catalog[provider][instanceType]) else None
  }

  /** A size table: per provider, the next type and the percentage by which the cost changes. */
  type SizeTable = map<string, map<string, (string, real)>>

  const Smaller: SizeTable := map[
    "aws" := map["m5.4xlarge" := ("m5.2xlarge", 50.0), "m5.2xlarge" := ("m5.xlarge", 50.0), "m5.xlarge" := ("m5.large", 50.0)],
    "gcp" := map["n1-standard-8" := ("n1-standard-4", 50.0), "n1-standard-4" := ("n1-standard-2", 50.0)],
    "azure" := map["Standard_D8s_v3" := ("Standard_D4s_v3", 50.0), "Standard_D4s_v3" := ("Standard_D2s_v3", 50.0)]]

  const Larger: SizeTable := map[
    "aws" := map["m5.large" := ("m5.xlarge", 100.0), "m5.xlarge" := ("m5.2xlarge", 100.0), "m5.2xlarge" := ("m5.4xlarge", 100.0)],
    "gcp" := map["n1-standard-2" := ("n1-standard-4", 100.0), "n1-standard-4" := ("n1-standard-8", 100.0)],
    "azure" := map["Standard_D2s_v3" := ("Standard_D4s_v3", 100.0), "Standard_D4s_v3" := ("Standard_D8s_v3", 100.0)]]

  predicate InTable(table: SizeTable, provider: string, t: string)
  {
    provider in table && t in table[provider]
  }

  /** `size_map.get(provider, {}).get(current_type, (current_type, 0))`. */
  function SizeStep(table: SizeTable, provider: string, t: string): (r: (string, real))
    ensures !InTable(table, provider, t) ==> r == (t, 0.0)
    ensures InTable(table, provider, t) ==> r == table[provider][t]
  {
    if InTable(table, provider, t) then table[provider][t] else (t, 0.0)
  }

  /** `_get_smaller_instance`. */
  function SmallerInstance(provider: string, t: string): (string, real)
  {
    SizeStep(Smaller, provider, t)
  }

  /** `_get_larger_instance`. */
  function LargerInstance(provider: string, t: string): (string, real)
  {
    SizeStep(Larger, provider, t)
  }

  /**
   * The size tables undo each other one way: a step down followed by a step
   * up returns to the starting type, and both types are in the catalogue
   * of their provider.
   */
  lemma SmallerUndoneByLarger(provider: string, t: string)
    requires InTable(Smaller, provider, t)
    ensures var s := SmallerInstance(provider, t).0;
      && InTable(Larger, provider, s) && LargerInstance(provider, s).0 == t
      && InstanceSpecs(provider, t).Some? && InstanceSpecs(provider, s).Some?
  {
    assert provider == "aws" || provider == "gcp" || provider == "azure";
  }

  /** The other way: a step up followed by a step down returns to the starting type. */
  lemma LargerUndoneBySmaller(provider: string, t: string)
    requires InTable(Larger, provider, t)
    ensures var l := LargerInstance(provider, t).0;
      && InTable(Smaller, provider, l) && SmallerInstance(provider, l).0 == t
      && InstanceSpecs(provider, t).Some? && InstanceSpecs(provider, l).Some?
  {
    assert provider == "aws" || provider == "gcp" || provider == "azure";
  }

  /** A step down halves the cost, a step up doubles it, and a type without a step stays as it is at 0 %. */
  lemma SizeStepPercentages(provider: string, t: string)
    ensures SmallerInstance(provider, t).1 == (if InTable(Smaller, provider, t) then 50.0 else 0.0)
    ensures LargerInstance(provider, t).1 == (if InTable(Larger, provider, t) then 100.0 else 0.0)
    ensures !InTable(Smaller, provider, t) ==> SmallerInstance(provider, t) == (t, 0.0)
    ensures !InTable(Larger, provider, t) ==> LargerInstance(provider, t) == (t, 0.0)
  {
  }

  /** Weighted efficiency: bursts count for 40 %, the average for 60 %. */
  function Efficiency(avg: real, peak: real): (r: real)
    ensures 0.0 <= avg <= 100.0 && 0.0 <= peak <= 100.0 ==> 0.0 <= r <= 100.0
    ensures avg <= peak ==> avg <= r <= peak
  {
    avg * 0.6 + peak * 0.4
  }

  function Max(a: real, b: real): real
  {
    if a >= b then a else b
  }

  datatype Recommendation = Downsize | Upsize | Optimal

  datatype Reason =
    | LowWithoutPeaks
    | LowWithBursts
    | WithinRange
    | HighWithPeaks
    | AppearsAppropriate

  /** Step 6 of `run`: the recommendation cascade on the overall efficiency and the maxima. */
  function Recommend(overall: real, cpuMax: real, memoryMax: real): (Recommendation, Reason)
  {
    if overall < 30.0 && cpuMax < 60.0 && memoryMax < 60.0 then (Downsize, LowWithoutPeaks)
    else if overall < 30.0 && (cpuMax >= 60.0 || memoryMax >= 60.0) then (Optimal, LowWithBursts)
    else if overall <= 70.0 then (Optimal, WithinRange)
    else if overall > 70.0 && (cpuMax > 85.0 || memoryMax > 85.0) then (Upsize, HighWithPeaks)
    else (Optimal, AppearsAppropriate)
  }

  /** Downsize exactly for low efficiency without peaks of 60, upsize exactly for high efficiency with a peak above 85, and otherwise no change. */
  lemma RecommendFacts(overall: real, cpuMax: real, memoryMax: real)
    ensures Recommend(overall, cpuMax, memoryMax).0 == Downsize <==> overall < 30.0 && cpuMax < 60.0 && memoryMax < 60.0
    ensures Recommend(overall, cpuMax, memoryMax).0 == Upsize <==> overall > 70.0 && (cpuMax > 85.0 || memoryMax > 85.0)
  {
  }

  datatype RiskLevel = NoRisk | LowRisk | MediumRisk

  /** Step 9 of `run`. */
  function RiskOf(rec: Recommendation, cpuMax: real, memoryMax: real): RiskLevel
  {
    match rec
    case Optimal => NoRisk
    case Downsize => if cpuMax > 50.0 || memoryMax > 50.0 then MediumRisk else LowRisk
    case Upsize => LowRisk
  }

  /** Steps of `_generate_implementation_notes`. */
  datatype Note =
    | TestTargetOutsideProduction(target: string)
    | MonitorFor48Hours
    | AlarmAbove80Percent
    | CautionPeaksSuggestBursts
    | ConsiderBurstableFamilies
    | ScheduleInMaintenanceWindow
    | ResizeNowIfAbove85
    | VerifyApplicationUsesResources
    | ContinueMonitoring
    | ReevaluateIn30Days

  function ImplementationNotes(rec: Recommendation, risk: RiskLevel, target: string): seq<Note>
  {
    match rec
    case Downsize =>
      [TestTargetOutsideProduction(target), MonitorFor48Hours, AlarmAbove80Percent]
      + (if risk == MediumRisk then [CautionPeaksSuggestBursts, ConsiderBurstableFamilies] else [])
    case Upsize => [ScheduleInMaintenanceWindow, ResizeNowIfAbove85, VerifyApplicationUsesResources]
    case Optimal => [ContinueMonitoring, ReevaluateIn30Days]
  }

  /** The parsed `usage_metrics`; `lookbackDays` is the value after `int(...)`, 14 when absent. */
  datatype Metrics = Metrics(
    cpuAvg: Field<real>,
    cpuMax: Field<real>,
    memoryAvg: Field<real>,
    memoryMax: Field<real>,
    lookbackDays: Field<int>)

  datatype Rightsizing = Rightsizing(
    resourceId: string,
    provider: string,
    currentType: string,
    recommendation: Recommendation,
    reason: Reason,
    targetType: string,
    efficiency: real,
    monthlyCost: real,
    monthlySavings: real,
    annualSavings: real,
    savingsPct: real,
    risk: RiskLevel,
    headroomCpu: real,
    headroomMemory: real,
    notes: seq<Note>,
    lookbackDays: int)

  /** Steps 5 to 11 of `run`, for valid metrics and a catalogued type. */
  function Evaluate(resourceId: string, provider: string, currentType: string, spec: Spec,
                    cpuAvg: real, cpuMax: real, memoryAvg: real, memoryMax: real, lookbackDays: int): Rightsizing
  {
    var overall := Max(Efficiency(cpuAvg, cpuMax), Efficiency(memoryAvg, memoryMax));
    var (rec, reason) := Recommend(overall, cpuMax, memoryMax);
    var (target, pct) :=
      match rec
      case Downsize => SmallerInstance(provider, currentType)
      case Upsize => (LargerInstance(provider, currentType).0, -LargerInstance(provider, currentType).1)
      case Optimal => (currentType, 0.0);
    var savings := spec.monthlyCost * (pct / 100.0);
    var risk := RiskOf(rec, cpuMax, memoryMax);
    Rightsizing(resourceId, provider, currentType, rec, reason, target, overall, spec.monthlyCost,
      savings, savings * 12.0, pct, risk, 100.0 - cpuMax, 100.0 - memoryMax,
      ImplementationNotes(rec, risk, target), lookbackDays)
  }

  predicate InPercentRange(x: real)
  {
    0.0 <= x <= 100.0
  }

  const BadProviderPrefix := "Invalid provider '"
  const MissingCpuAvg := "Missing required field 'cpu_avg' in usage_metrics"
  const MissingCpuMax := "Missing required field 'cpu_max' in usage_metrics"
  const MissingMemoryAvg := "Missing required field 'memory_avg' in usage_metrics"
  const MissingMemoryMax := "Missing required field 'memory_max' in usage_metrics"
  const InvalidStructure := "Invalid usage_metrics structure"
  const CpuRange := "CPU metrics must be 0-100"
  const MemoryRange := "Memory metrics must be 0-100"
  const ShortLookback := "lookback_days is less than 7; recommendations may be unreliable"
  const MissingType := "current_instance_type is required for rightsizing analysis"
  const UnknownTypePrefix := "Unknown instance type '"
  const UnknownTypeMiddle := "' for provider '"

  /** The tool's `run`. */
  function Analyze(resourceId: string, provider: string, metrics: Metrics, currentType: string): Outcome<Rightsizing>
  {
    if provider !in Providers then Error(BadProviderPrefix + provider + "'")
    else if metrics.cpuAvg.Absent? then Error(MissingCpuAvg)
    else if metrics.cpuMax.Absent? then Error(MissingCpuMax)
    else if metrics.memoryAvg.Absent? then Error(MissingMemoryAvg)
    else if metrics.memoryMax.Absent? then Error(MissingMemoryMax)
    else if metrics.cpuAvg.Invalid? || metrics.cpuMax.Invalid? || metrics.memoryAvg.Invalid?
         || metrics.memoryMax.Invalid? || metrics.lookbackDays.Invalid? then
      Error(InvalidStructure)
    else
      var cpuAvg, cpuMax := metrics.cpuAvg.value, metrics.cpuMax.value;
      var memoryAvg, memoryMax := metrics.memoryAvg.value, metrics.memoryMax.value;
      var lookback := if metrics.lookbackDays.Present? then metrics.lookbackDays.value else 14;
      if !(InPercentRange(cpuAvg) && InPercentRange(cpuMax)) then Error(CpuRange)
      else if !(InPercentRange(memoryAvg) && InPercentRange(memoryMax)) then Error(MemoryRange)
      else if lookback < 7 then Warning(ShortLookback)
      else if currentType == "" then Error(MissingType)
      else
        match InstanceSpecs(provider, currentType)
        case None => Error(UnknownTypePrefix + currentType + UnknownTypeMiddle + provider + "'")
        case Some(spec) => Ok(Evaluate(resourceId, provider, currentType, spec, cpuAvg, cpuMax, memoryAvg, memoryMax, lookback))
  }

  /** Metrics with all four figures present and numeric and in 0..100, and a numeric or missing lookback. */
  predicate ValidMetrics(m: Metrics)
  {
    && m.cpuAvg.Present? && m.cpuMax.Present? && m.memoryAvg.Present? && m.memoryMax.Present?
    && !m.lookbackDays.Invalid?
    && InPercentRange(m.cpuAvg.value) && InPercentRange(m.cpuMax.value)
    && InPercentRange(m.memoryAvg.value) && InPercentRange(m.memoryMax.value)
  }

  function LookbackOf(m: Metrics): int
  {
    if m.lookbackDays.Present? then m.lookbackDays.value else 14
  }

  /**
   * The tool answers exactly for a known provider, valid metrics, a
   * lookback of at least 7 days and a catalogued instance type; a short
   * lookback with otherwise valid metrics is the only warning.
   */
  lemma AnalyzeAnswers(resourceId: string, provider: string, metrics: Metrics, currentType: string)
    ensures Analyze(resourceId, provider, metrics, currentType).Ok? <==>
      provider in Providers && ValidMetrics(metrics) && LookbackOf(metrics) >= 7
      && currentType != "" && InstanceSpecs(provider, currentType).Some?
    ensures Analyze(resourceId, provider, metrics, currentType).Warning? <==>
      provider in Providers && ValidMetrics(metrics) && LookbackOf(metrics) < 7
  {
  }

  /**
   * The efficiency is the larger weighted figure and lies in 0..100. No
   * change keeps the type at 0 savings; a downsize saves a non-negative
   * amount and an upsize costs one; the risk is none exactly for no
   * change, and medium exactly for a downsize with a peak above 50; the
   * headroom is what the peak leaves.
   */
  lemma EvaluateFacts(resourceId: string, provider: string, currentType: string, spec: Spec,
                      cpuAvg: real, cpuMax: real, memoryAvg: real, memoryMax: real, lookbackDays: int)
    requires InPercentRange(cpuAvg) && InPercentRange(cpuMax) && InPercentRange(memoryAvg) && InPercentRange(memoryMax)
    requires spec.monthlyCost >= 0.0
    ensures var r := Evaluate(resourceId, provider, currentType, spec, cpuAvg, cpuMax, memoryAvg, memoryMax, lookbackDays);
      && r.efficiency >= Efficiency(cpuAvg, cpuMax) && r.efficiency >= Efficiency(memoryAvg, memoryMax)
      && (r.efficiency == Efficiency(cpuAvg, cpuMax) || r.efficiency == Efficiency(memoryAvg, memoryMax))
      && InPercentRange(r.efficiency)
      && (r.recommendation == Optimal ==> r.targetType == currentType && r.savingsPct == 0.0 && r.monthlySavings == 0.0)
      && (r.recommendation == Downsize ==> r.savingsPct >= 0.0 && r.monthlySavings >= 0.0)
      && (r.recommendation == Upsize ==> r.savingsPct <= 0.0 && r.monthlySavings <= 0.0)
      && (r.recommendation == Upsize && InTable(Larger, provider, currentType) ==> r.savingsPct == -100.0)
      && (r.risk == NoRisk <==> r.recommendation == Optimal)
      && (r.risk == MediumRisk <==> r.recommendation == Downsize && (cpuMax > 50.0 || memoryMax > 50.0))
      && r.headroomCpu == 100.0 - cpuMax && r.headroomMemory == 100.0 - memoryMax
      && r.annualSavings == 12.0 * r.monthlySavings
  {
    var overall := Max(Efficiency(cpuAvg, cpuMax), Efficiency(memoryAvg, memoryMax));
    SizeStepPercentages(provider, currentType);
    var rec := Recommend(overall, cpuMax, memoryMax).0;
    if rec == Downsize {
      var pct := SmallerInstance(provider, currentType).1;
      NonNegativeShare(spec.monthlyCost, pct);
    } else if rec == Upsize {
      var pct := LargerInstance(provider, currentType).1;
      NonNegativeShare(spec.monthlyCost, pct);
    }
  }

  lemma NonNegativeShare(cost: real, pct: real)
    requires cost >= 0.0 && pct >= 0.0
    ensures cost * (pct / 100.0) >= 0.0 && cost * (-pct / 100.0) <= 0.0
  {
  }

  /** A downsize produces three notes, or five with the two cautions at medium risk; an upsize three; no change two. */
  lemma NotesFacts(rec: Recommendation, risk: RiskLevel, target: string)
    ensures |ImplementationNotes(rec, risk, target)| ==
      match rec
      case Downsize => if risk == MediumRisk then 5 else 3
      case Upsize => 3
      case Optimal => 2
    ensures rec == Downsize ==> ImplementationNotes(rec, risk, target)[0] == TestTargetOutsideProduction(target)
  {
  }
}
