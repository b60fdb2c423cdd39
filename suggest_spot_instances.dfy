/**
 * SuggestSpotInstances: judges whether an instance type should move to
 * spot (AWS), preemptible (GCP) or spot VM (Azure) capacity, from the
 * workload's interruption tolerance, the spot discount and the historical
 * interruption rate, and lists numbered implementation steps.
 */
module SuggestSpotInstances {
  import opened Outcomes

  const Providers: seq<string> := ["aws", "gcp", "azure"]
  const Tolerances: seq<string> := ["high", "medium", "low"]

  datatype SpotPricing = SpotPricing(ondemandHourly: real, spotHourly: real, interruptionRatePct: real)

  /** `_get_spot_pricing`'s table. */
  const SpotCatalog: map<string, map<string, SpotPricing>> := map[
    "aws" := map[
      "m5.2xlarge" := SpotPricing(0.384, 0.115, 8.5),
      "m5.xlarge" := SpotPricing(0.192, 0.058, 7.2)],
    "gcp" := map["n1-standard-4" := SpotPricing(0.190, 0.047, 12.0)],
    "azure" := map["Standard_D4s_v3" := SpotPricing(0.192, 0.058, 9.0)]]

  function GetSpotPricing(provider: string, instanceType: string): (r: Option<SpotPricing>)
    ensures r.Some? <==> provider in SpotCatalog && instanceType in SpotCatalog[provider]
    ensures r.Some? ==> 0.0 < r.value.spotHourly < r.value.ondemandHourly && r.value.interruptionRatePct >= 0.0
  {
    if provider in SpotCatalog && instanceType in SpotCatalog[provider] then Some(SpotCatalog[provider][instanceType])
    else None
  }

  datatype SpotRecommendation = Recommended | Conditional | NotRecommended
  datatype Confidence = High | Medium | Low

  datatype Reasoning =
    | StrongSavingsTolerant(savingsPct: real)
    | GoodSavingsTolerant(savingsPct: real)
    | ModerateSavingsEvaluate(savingsPct: real)
    | StrongSavingsAcceptableRate(savingsPct: real)
    | CheckpointingAdvised
    | ModestSavingsCareful(savingsPct: real)
    | ExceptionalButSensitive(savingsPct: real)
    | LowToleranceHighRisk

  datatype Evaluation = Evaluation(recommendation: SpotRecommendation, confidence: Confidence, reasoning: Reasoning)

  /** `_evaluate_recommendation`: any tolerance other than high or medium is treated as low. */
  function Evaluate(tolerance: string, savingsPct: real, interruptionRate: real): Evaluation
  {
    if tolerance == "high" then
      if savingsPct >= 60.0 then Evaluation(Recommended, High, StrongSavingsTolerant(savingsPct))
      else if savingsPct >= 40.0 then Evaluation(Recommended, Medium, GoodSavingsTolerant(savingsPct))
      else Evaluation(Conditional, Low, ModerateSavingsEvaluate(savingsPct))
    else if tolerance == "medium" then
      if savingsPct >= 70.0 && interruptionRate < 10.0 then Evaluation(Recommended, Medium, StrongSavingsAcceptableRate(savingsPct))
      else if savingsPct >= 50.0 then Evaluation(Conditional, Medium, CheckpointingAdvised)
      else Evaluation(Conditional, Low, ModestSavingsCareful(savingsPct))
    else if savingsPct >= 80.0 && interruptionRate < 5.0 then Evaluation(Conditional, Low, ExceptionalButSensitive(savingsPct))
    else Evaluation(NotRecommended, Low, LowToleranceHighRisk)
  }

  /**
   * Low tolerance is never recommended and always has LOW confidence; high
   * and medium tolerance are never refused. High tolerance is recommended
   * exactly from 40 % savings on, medium tolerance exactly from 70 % with
   * an interruption rate under 10 %, and low tolerance is refused exactly
   * unless savings reach 80 % with a rate under 5 %.
   */
  lemma EvaluateFacts(tolerance: string, savingsPct: real, interruptionRate: real)
    ensures var e := Evaluate(tolerance, savingsPct, interruptionRate);
      && (tolerance != "high" && tolerance != "medium" ==>
            e.recommendation != Recommended && e.confidence == Low
            && (e.recommendation == NotRecommended <==> !(savingsPct >= 80.0 && interruptionRate < 5.0)))
      && (tolerance == "high" || tolerance == "medium" ==> e.recommendation != NotRecommended)
      && (tolerance == "high" ==> (e.recommendation == Recommended <==> savingsPct >= 40.0))
      && (tolerance == "medium" ==> (e.recommendation == Recommended <==> savingsPct >= 70.0 && interruptionRate < 10.0))
      && (e.confidence == High <==> tolerance == "high" && savingsPct >= 60.0)
  {
  }

  /** One implementation step, numbered as the tool numbers it. */
  datatype GuidanceStep = Step(number: nat, text: string) | DoNotMigrate

  const AwsSteps: seq<string> := [
    "Use EC2 Spot Fleet or Auto Scaling Groups with mixed instance types",
    "Set maximum spot price at 50-70% of on-demand to control costs",
    "Distribute across multiple AZs to reduce interruption impact"]
  const GcpSteps: seq<string> := [
    "Use Managed Instance Groups with preemptible instances",
    "Note: GCP preemptible VMs automatically terminated after 24 hours max",
    "Implement checkpointing every 20-22 hours for long jobs"]
  const AzureSteps: seq<string> := [
    "Use Virtual Machine Scale Sets with Spot VMs",
    "Set eviction policy: Deallocate (preserves data) vs Delete",
    "Configure capacity reservation for critical minimum capacity"]
  const TestPrefix := "Test "
  const TestSuffix := " spot instances in non-production first"
  const GracefulShutdown := "Implement graceful shutdown handling (2-minute warning for AWS/Azure, 30-sec for GCP)"
  const TolerantSteps: seq<string> := [
    "Implement job checkpointing to resume from last state",
    "Monitor spot interruption rates and adjust strategy monthly"]

  /** The provider-specific steps of `_generate_implementation_guidance`. */
  function ProviderSteps(provider: string): seq<string>
  {
    if provider == "aws" then AwsSteps
    else if provider == "gcp" then GcpSteps
    else if provider == "azure" then AzureSteps
    else []
  }

  /** Numbers texts consecutively from `first`. */
  function Numbered(texts: seq<string>, first: nat): (r: seq<GuidanceStep>)
    ensures |r| == |texts|
    ensures forall k :: 0 <= k < |r| ==> r[k] == Step(first + k, texts[k])
  {
    seq(|texts|, k requires 0 <= k < |texts| => Step(first + k, texts[k]))
  }

  /** `_generate_implementation_guidance`. */
  function Guidance(provider: string, instanceType: string, tolerance: string, recommendation: SpotRecommendation): seq<GuidanceStep>
  {
    if recommendation == NotRecommended then [DoNotMigrate]
    else
      var common := [TestPrefix + instanceType + TestSuffix, GracefulShutdown];
      var tolerant := if tolerance == "medium" || tolerance == "high" then TolerantSteps else [];
      Numbered(common + ProviderSteps(provider) + tolerant, 1)
  }

  /**
   * A refusal is a single step. Otherwise, for a known provider, the steps
   * are numbered 1, 2, … without gaps, and there are seven of them exactly
   * when the tolerance is medium or high, five otherwise.
   */
  lemma GuidanceFacts(provider: string, instanceType: string, tolerance: string, recommendation: SpotRecommendation)
    requires provider in Providers
    ensures var g := Guidance(provider, instanceType, tolerance, recommendation);
      && (recommendation == NotRecommended ==> g == [DoNotMigrate])
      && (recommendation != NotRecommended ==>
            && |g| == (if tolerance == "medium" || tolerance == "high" then 7 else 5)
            && forall k :: 0 <= k < |g| ==> g[k].Step? && g[k].number == k + 1)
  {
    if recommendation != NotRecommended {
      ProviderStepsCount(provider);
      var g := Guidance(provider, instanceType, tolerance, recommendation);
      assert |g| == 2 + 3 + (if tolerance == "medium" || tolerance == "high" then 2 else 0);
    }
  }

  lemma ProviderStepsCount(provider: string)
    requires provider in Providers
    ensures |ProviderSteps(provider)| == 3
  {
    assert provider == "aws" || provider == "gcp" || provider == "azure";
  }

  const HighToleranceUses: seq<string> := [
    "Batch processing jobs", "CI/CD build workers", "Data processing pipelines with retry logic",
    "Rendering farms", "ML training (with checkpointing)"]
  const MediumToleranceUses: seq<string> := [
    "Development/test environments", "Analytics workloads with intermediate results saved",
    "ETL jobs with transaction boundaries", "Containerized stateless applications"]
  const LowToleranceUses: seq<string> := [
    "Not recommended for low tolerance workloads", "Consider Reserved Instances or on-demand instead"]

  /** `_get_use_cases`. */
  function UseCases(tolerance: string): seq<string>
  {
    if tolerance == "high" then HighToleranceUses
    else if tolerance == "medium" then MediumToleranceUses
    else if tolerance == "low" then LowToleranceUses
    else []
  }

  datatype SpotRiskFactor = HighInterruptionRate(ratePct: real) | LowTolerance | ModerateSavings(savingsPct: real) | LowRiskCandidate

  /** Step 8. */
  function SpotRiskFactors(interruptionRate: real, tolerance: string, savingsPct: real): seq<SpotRiskFactor>
  {
    var found :=
      (if interruptionRate > 15.0 then [HighInterruptionRate(interruptionRate)] else [])
      + (if tolerance == "low" then [LowTolerance] else [])
      + (if savingsPct < 50.0 then [ModerateSavings(savingsPct)] else []);
    if found == [] then [LowRiskCandidate] else found
  }

  lemma SpotRiskFactorsFacts(interruptionRate: real, tolerance: string, savingsPct: real)
    ensures SpotRiskFactors(interruptionRate, tolerance, savingsPct) != []
    ensures LowRiskCandidate in SpotRiskFactors(interruptionRate, tolerance, savingsPct) <==>
      interruptionRate <= 15.0 && tolerance != "low" && savingsPct >= 50.0
  {
  }

  datatype SpotReport = SpotReport(
    instanceType: string,
    region: string,
    provider: string,
    evaluation: Evaluation,
    pricing: SpotPricing,
    hourlySavings: real,
    savingsPct: real,
    monthlyOnDemand: real,
    monthlySpot: real,
    monthlySavings: real,
    annualSavings: real,
    overheadPct: real,
    effectiveMonthlyCost: real,
    effectiveMonthlySavings: real,
    effectiveSavingsPct: real,
    tolerance: string,
    useCases: seq<string>,
    riskFactors: seq<SpotRiskFactor>,
    guidance: seq<GuidanceStep>)

  /** Steps 4 to 9 for a catalogued price. */
  function SpotAnalysis(instanceType: string, region: string, provider: string, tolerance: string, p: SpotPricing): SpotReport
  {
    var hourlySavings := p.ondemandHourly - p.spotHourly;
    var pct := if p.ondemandHourly > 0.0 then hourlySavings / p.ondemandHourly * 100.0 else 0.0;
    var ondemand := p.ondemandHourly * 730.0;
    var spot := p.spotHourly * 730.0;
    var evaluation := Evaluate(tolerance, pct, p.interruptionRatePct);
    var overhead := p.interruptionRatePct * 0.5;
    var effective := spot * (1.0 + overhead / 100.0);
    var effectiveSavings := ondemand - effective;
    SpotReport(instanceType, region, provider, evaluation, p, hourlySavings, pct, ondemand, spot,
      ondemand - spot, (ondemand - spot) * 12.0, overhead, effective, effectiveSavings,
      if ondemand > 0.0 then effectiveSavings / ondemand * 100.0 else 0.0,
      tolerance, UseCases(tolerance), SpotRiskFactors(p.interruptionRatePct, tolerance, pct),
      Guidance(provider, instanceType, tolerance, evaluation.recommendation))
  }

  /** The tool's `run`. */
  function Suggest(instanceType: string, region: string, tolerance: string, provider: string): Outcome<SpotReport>
  {
    if provider !in Providers then Error("Invalid provider '" + provider + "'")
    else if tolerance !in Tolerances then Error("Invalid interruption_tolerance '" + tolerance + "'")
    else match GetSpotPricing(provider, instanceType)
      case None => Error("Spot pricing not available for " + instanceType + " in " + region)
      case Some(p) => Ok(SpotAnalysis(instanceType, region, provider, tolerance, p))
  }

  /** The tool answers exactly for a known provider and tolerance and a catalogued instance type, and never warns. */
  lemma SuggestAnswers(instanceType: string, region: string, tolerance: string, provider: string)
    ensures !Suggest(instanceType, region, tolerance, provider).Warning?
    ensures Suggest(instanceType, region, tolerance, provider).Ok? <==>
      provider in Providers && tolerance in Tolerances && GetSpotPricing(provider, instanceType).Some?
  {
  }

  /**
   * Interruption overhead never makes spot cheaper: the effective monthly
   * cost is at least the plain spot cost, so the effective savings are at
   * most the plain savings.
   */
  lemma EffectiveCostFacts(instanceType: string, region: string, tolerance: string, provider: string)
    requires Suggest(instanceType, region, tolerance, provider).Ok?
    ensures var r := Suggest(instanceType, region, tolerance, provider).value;
      && r.monthlySpot > 0.0
      && r.effectiveMonthlyCost >= r.monthlySpot
      && r.effectiveMonthlySavings <= r.monthlySavings
      && r.monthlySavings > 0.0
  {
    var p := GetSpotPricing(provider, instanceType).value;
    assert Suggest(instanceType, region, tolerance, provider).value == SpotAnalysis(instanceType, region, provider, tolerance, p);
    SpotAnalysisCosts(instanceType, region, provider, tolerance, p);
  }

  lemma SpotAnalysisCosts(instanceType: string, region: string, provider: string, tolerance: string, p: SpotPricing)
    requires 0.0 < p.spotHourly < p.ondemandHourly && p.interruptionRatePct >= 0.0
    ensures var r := SpotAnalysis(instanceType, region, provider, tolerance, p);
      && r.monthlySpot > 0.0
      && r.effectiveMonthlyCost >= r.monthlySpot
      && r.effectiveMonthlySavings <= r.monthlySavings
      && r.monthlySavings > 0.0
  {
    OverheadAtLeast(p.spotHourly * 730.0, p.interruptionRatePct * 0.5 / 100.0);
  }

  lemma OverheadAtLeast(cost: real, rate: real)
    requires cost >= 0.0 && rate >= 0.0
    ensures cost * (1.0 + rate) >= cost
  {
    assert cost * (1.0 + rate) == cost + cost * rate;
  }

  /**
   * On the catalogued prices, high tolerance is always recommended with
   * HIGH confidence and low tolerance always refused; medium tolerance is
   * recommended only for m5.2xlarge on AWS.
   */
  lemma CatalogOutcomes(provider: string, instanceType: string)
    requires GetSpotPricing(provider, instanceType).Some?
    ensures var p := GetSpotPricing(provider, instanceType).value;
      var pct := (p.ondemandHourly - p.spotHourly) / p.ondemandHourly * 100.0;
      && Evaluate("high", pct, p.interruptionRatePct).recommendation == Recommended
      && Evaluate("high", pct, p.interruptionRatePct).confidence == High
      && Evaluate("low", pct, p.interruptionRatePct).recommendation == NotRecommended
      && (Evaluate("medium", pct, p.interruptionRatePct).recommendation == Recommended <==>
            provider == "aws" && instanceType == "m5.2xlarge")
  {
  }
}
