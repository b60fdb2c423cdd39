/**
 * CalculateRISavings: prices a reserved-instance (or committed-use)
 * purchase against on-demand use, and recommends it by its break-even
 * time, with a risk level, risk factors and alternatives.
 *
 * The tool object keeps its `usage_hours` field and caps it at 730 in
 * place, so it is a class here; the pricing and the recommendation are
 * functions of the (capped) inputs.
 */
module CalculateRISavings {
  import opened Outcomes

  const Providers: seq<string> := ["aws", "gcp", "azure"]
  const Terms: seq<string> := ["1year", "3year"]

  /** Hours in a month of continuous use. */
  const MaxMonthlyHours: real := 730.0

  /** On-demand hourly prices of the instance types eligible for a reservation. */
  const OnDemandHourly: map<string, map<string, real>> := map[
    "aws" := map["m5.2xlarge" := 0.384, "m5.xlarge" := 0.192, "t3.medium" := 0.0416],
    "gcp" := map["n1-standard-4" := 0.190, "n1-standard-2" := 0.095],
    "azure" := map["Standard_D4s_v3" := 0.192, "Standard_D2s_v3" := 0.096]]

  datatype Pricing = Pricing(ondemandHourly: real, riHourly: real, upfront: real, discountPct: real)

  /** `_get_pricing`: 35 % off with 10 % of a year paid upfront, or 55 % off with 15 % of three years paid upfront. */
  function GetPricing(provider: string, instanceType: string, term: string): (r: Option<Pricing>)
    ensures r.Some? <==> provider in OnDemandHourly && instanceType in OnDemandHourly[provider]
  {
    if provider in OnDemandHourly && instanceType in OnDemandHourly[provider] then
      var od := OnDemandHourly[provider][instanceType];
      var discount := if term == "1year" then 35.0 else 55.0;
      var upfront := if term == "1year" then od * 730.0 * 12.0 * 0.10 else od * 730.0 * 36.0 * 0.15;
      Some(Pricing(od, od * (1.0 - discount / 100.0), upfront, discount))
    else None
  }

  /** Every listed price is positive, so the reserved rate is always below the on-demand rate and the upfront payment positive. */
  lemma PricingFacts(provider: string, instanceType: string, term: string)
    requires GetPricing(provider, instanceType, term).Some?
    ensures var p := GetPricing(provider, instanceType, term).value;
      && p.ondemandHourly > 0.0
      && 0.0 < p.riHourly < p.ondemandHourly
      && p.upfront > 0.0
      && p.discountPct == (if term == "1year" then 35.0 else 55.0)
  {
  }

  /** Months of the commitment over which the upfront payment is spread. */
  function TermMonths(term: string): real
  {
    if term == "1year" then 12.0 else 36.0
  }

  /** Step 7: months to earn the upfront payment back, 999 when nothing is saved. */
  function BreakEven(upfront: real, monthlySavings: real): real
  {
    if monthlySavings > 0.0 then upfront / monthlySavings else 999.0
  }

  datatype RIRecommendation = StronglyRecommended | Recommended | Consider | NotRecommended

  /** Step 8. */
  function Recommend(breakEven: real): RIRecommendation
  {
    if breakEven <= 3.0 then StronglyRecommended
    else if breakEven <= 6.0 then Recommended
    else if breakEven <= 12.0 then Consider
    else NotRecommended
  }

  function Strength(r: RIRecommendation): nat
  {
    match r
    case StronglyRecommended => 3
    case Recommended => 2
    case Consider => 1
    case NotRecommended => 0
  }

  /** A longer break-even never gives a stronger recommendation, and 999 (no savings) is never recommended. */
  lemma RecommendMonotone(b1: real, b2: real)
    ensures b1 <= b2 ==> Strength(Recommend(b1)) >= Strength(Recommend(b2))
    ensures Recommend(999.0) == NotRecommended
  {
  }

  datatype RiskLevel = Low | Medium | High

  /** The three terms of `_assess_ri_risk`'s score. */
  function RiskScore(utilisation: real, term: string, breakEven: real): (r: nat)
    ensures 1 <= r <= 6
  {
    var byUse := if utilisation < 50.0 then 2 else if utilisation < 70.0 then 1 else 0;
    var byTerm := if term == "3year" then 2 else 1;
    var byBreakEven := if breakEven > 12.0 then 2 else if breakEven > 6.0 then 1 else 0;
    byUse + byTerm + byBreakEven
  }

  function AssessRisk(utilisation: real, term: string, breakEven: real): RiskLevel
  {
    var score := RiskScore(utilisation, term, breakEven);
    if score <= 2 then Low else if score <= 4 then Medium else High
  }

  /**
   * The score of 1 to 6 falls into three bands: at most 2 is LOW, 3 or 4
   * MEDIUM, 5 or 6 HIGH. Risk rises with each factor: a 3-year term is never LOW unless the use
   * is at least 70 % and the break-even at most 6 months, and a use
   * below 50 % with a break-even above 12 months is always HIGH.
   */
  lemma RiskFacts(utilisation: real, term: string, breakEven: real)
    ensures AssessRisk(utilisation, term, breakEven) == Low <==>
      RiskScore(utilisation, term, breakEven) <= 2
    ensures AssessRisk(utilisation, term, breakEven) == Medium <==>
      3 <= RiskScore(utilisation, term, breakEven) <= 4
    ensures AssessRisk(utilisation, term, breakEven) == High <==>
      5 <= RiskScore(utilisation, term, breakEven) <= 6
    ensures term == "3year" && AssessRisk(utilisation, term, breakEven) == Low ==> utilisation >= 70.0 && breakEven <= 6.0
    ensures utilisation < 50.0 && breakEven > 12.0 ==> AssessRisk(utilisation, term, breakEven) == High
    ensures utilisation >= 70.0 && term != "3year" && breakEven <= 6.0 ==> AssessRisk(utilisation, term, breakEven) == Low
  {
  }

  datatype RiskFactor = Underutilised(utilisation: real) | LongCommitment | NoCapacityBuffer | GoodCandidate

  /** `_get_risk_factors`. */
  function RiskFactors(utilisation: real, term: string): seq<RiskFactor>
  {
    var found :=
      (if utilisation < 70.0 then [Underutilised(utilisation)] else [])
      + (if term == "3year" then [LongCommitment] else [])
      + (if utilisation > 95.0 then [NoCapacityBuffer] else []);
    if found == [] then [GoodCandidate] else found
  }

  /** The factor list is never empty, and names a good candidate exactly when no risk applies. */
  lemma RiskFactorsFacts(utilisation: real, term: string)
    ensures RiskFactors(utilisation, term) != []
    ensures GoodCandidate in RiskFactors(utilisation, term) <==> 70.0 <= utilisation <= 95.0 && term != "3year"
  {
  }

  datatype Alternative = ShorterTerm | SavingsPlans(utilisation: real) | PaymentOptions

  /** Step 10. */
  function Alternatives(provider: string, term: string, risk: RiskLevel, utilisation: real, upfront: real): seq<Alternative>
  {
    (if term == "3year" && (risk == Medium || risk == High) then [ShorterTerm] else [])
    + (if utilisation < 70.0 then [SavingsPlans(utilisation)] else [])
    + (if provider == "aws" && upfront > 0.0 then [PaymentOptions] else [])
  }

  datatype RIReport = RIReport(
    instanceType: string,
    region: string,
    provider: string,
    term: string,
    recommendation: RIRecommendation,
    usageHours: real,
    utilisation: real,
    monthlyOnDemand: real,
    monthlyRi: real,
    monthlySavings: real,
    annualSavings: real,
    savingsPct: real,
    upfront: real,
    breakEven: real,
    roi12Months: real,
    risk: RiskLevel,
    factors: seq<RiskFactor>,
    alternatives: seq<Alternative>)

  /** Steps 6 to 11 for capped usage and a known price. */
  function Report(instanceType: string, region: string, provider: string, term: string, usage: real, p: Pricing): RIReport
  {
    var utilisation := usage / MaxMonthlyHours * 100.0;
    var ondemand := p.ondemandHourly * usage;
    var ri := p.riHourly * usage + p.upfront / TermMonths(term);
    var savings := ondemand - ri;
    var annual := savings * 12.0;
    var pct := if ondemand > 0.0 then savings / ondemand * 100.0 else 0.0;
    var breakEven := BreakEven(p.upfront, savings);
    var risk := AssessRisk(utilisation, term, breakEven);
    RIReport(instanceType, region, provider, term, Recommend(breakEven), usage, utilisation, ondemand, ri,
      savings, annual, pct, p.upfront, breakEven, if p.upfront > 0.0 then annual / p.upfront * 100.0 else 0.0,
      risk, RiskFactors(utilisation, term), Alternatives(provider, term, risk, utilisation, p.upfront))
  }

  /** `usage_hours` after step 3: capped at 730 once the provider, term and sign have been checked. */
  function CappedUsage(provider: string, term: string, usage: real): real
  {
    if provider in Providers && term in Terms && usage > MaxMonthlyHours then MaxMonthlyHours else usage
  }

  const BadProviderPrefix := "Invalid provider '"
  const BadTermPrefix := "Invalid commitment_term '"
  const BadTermSuffix := "'. Must be '1year' or '3year'."
  const NegativeUsage := "usage_hours cannot be negative."
  const LowUtilization := "Low utilization; Reserved Instances typically require >40% utilization"
  const NoPricingPrefix := "Pricing not available for "

  /** The tool's `run`, on the usage as given. */
  function Calculate(instanceType: string, region: string, provider: string, term: string, usage: real): Outcome<RIReport>
  {
    if provider !in Providers then Error(BadProviderPrefix + provider + "'")
    else if term !in Terms then Error(BadTermPrefix + term + BadTermSuffix)
    else if usage < 0.0 then Error(NegativeUsage)
    else
      var capped := CappedUsage(provider, term, usage);
      if capped / MaxMonthlyHours * 100.0 < 40.0 then Warning(LowUtilization)
      else
        match GetPricing(provider, instanceType, term)
        case None => Error(NoPricingPrefix + instanceType + " in " + region)
        case Some(p) => Ok(Report(instanceType, region, provider, term, capped, p))
  }

  /**
   * The tool reports exactly for a known provider and term, a usage of at
   * least 292 hours (40 % of 730) and a listed instance type; a usage of
   * 0 to 292 hours is the only warning, and the reported usage is capped
   * at 730.
   */
  lemma CalculateAnswers(instanceType: string, region: string, provider: string, term: string, usage: real)
    ensures Calculate(instanceType, region, provider, term, usage).Warning? <==>
      provider in Providers && term in Terms && 0.0 <= usage < 292.0
    ensures Calculate(instanceType, region, provider, term, usage).Ok? <==>
      provider in Providers && term in Terms && usage >= 292.0 && GetPricing(provider, instanceType, term).Some?
    ensures Calculate(instanceType, region, provider, term, usage).Ok? ==>
      var r := Calculate(instanceType, region, provider, term, usage).value;
      r.usageHours == (if usage > 730.0 then 730.0 else usage) && 40.0 <= r.utilisation <= 100.0
  {
  }

  /**
   * At the usages the tool accepts, every reservation saves money, so the
   * break-even is never the 999 of no savings. That break-even is always
   * beyond three months, so STRONGLY RECOMMENDED is never reached, and a
   * 3-year term always takes more than twelve months, so it is always NOT
   * RECOMMENDED.
   */
  lemma ReachableRecommendations(instanceType: string, region: string, provider: string, term: string, usage: real)
    requires Calculate(instanceType, region, provider, term, usage).Ok?
    ensures var r := Calculate(instanceType, region, provider, term, usage).value;
      && r.monthlySavings > 0.0
      && r.breakEven == r.upfront / r.monthlySavings
      && r.recommendation != StronglyRecommended
      && (term == "3year" ==> r.recommendation == NotRecommended)
  {
    var p := GetPricing(provider, instanceType, term).value;
    var u := CappedUsage(provider, term, usage);
    assert Calculate(instanceType, region, provider, term, usage).value == Report(instanceType, region, provider, term, u, p);
    ReportBreakEven(instanceType, region, provider, term, u, p);
  }

  /**
   * Which alternatives an accepted report lists: the shorter term exactly
   * for a 3-year term (whose break-even beyond twelve months always makes
   * its risk MEDIUM or HIGH), Savings Plans exactly below 70 % use, and the
   * payment options exactly on AWS (every upfront payment is positive).
   */
  lemma ReportAlternatives(instanceType: string, region: string, provider: string, term: string, usage: real)
    requires Calculate(instanceType, region, provider, term, usage).Ok?
    ensures var r := Calculate(instanceType, region, provider, term, usage).value;
      && (ShorterTerm in r.alternatives <==> term == "3year")
      && (SavingsPlans(r.utilisation) in r.alternatives <==> r.utilisation < 70.0)
      && (PaymentOptions in r.alternatives <==> provider == "aws")
  {
    var p := GetPricing(provider, instanceType, term).value;
    var u := CappedUsage(provider, term, usage);
    assert Calculate(instanceType, region, provider, term, usage).value == Report(instanceType, region, provider, term, u, p);
    ReportBreakEven(instanceType, region, provider, term, u, p);
    PricingFacts(provider, instanceType, term);
  }

  lemma ReportBreakEven(instanceType: string, region: string, provider: string, term: string, u: real, p: Pricing)
    requires GetPricing(provider, instanceType, term) == Some(p)
    requires term in Terms && 292.0 <= u <= 730.0
    ensures var r := Report(instanceType, region, provider, term, u, p);
      && r.monthlySavings > 0.0
      && r.breakEven == r.upfront / r.monthlySavings
      && r.breakEven > 3.0
      && (term == "3year" ==> r.breakEven > 12.0)
  {
    PricingFacts(provider, instanceType, term);
    var od := p.ondemandHourly;
    if term == "1year" {
      assert p.riHourly == od * (1.0 - 35.0 / 100.0) && p.upfront == od * 730.0 * 12.0 * 0.10;
      OneYearBreakEven(od, u);
    } else {
      assert p.riHourly == od * (1.0 - 55.0 / 100.0) && p.upfront == od * 730.0 * 36.0 * 0.15;
      ThreeYearBreakEven(od, u);
    }
  }

  /** One year: savings od·(0.35u − 73) against an upfront of od·876. */
  lemma OneYearBreakEven(od: real, u: real)
    requires od > 0.0 && 292.0 <= u <= 730.0
    ensures var savings := od * u - (od * (1.0 - 35.0 / 100.0) * u + od * 730.0 * 12.0 * 0.10 / 12.0);
      savings > 0.0 && od * 730.0 * 12.0 * 0.10 / savings > 3.0
  {
    var savings := od * u - (od * (1.0 - 35.0 / 100.0) * u + od * 730.0 * 12.0 * 0.10 / 12.0);
    var upfront := od * 730.0 * 12.0 * 0.10;
    assert savings == od * (0.35 * u - 73.0);
    assert 0.35 * u - 73.0 > 0.0;
    PositiveProduct(od, 0.35 * u - 73.0);
    assert upfront == od * 876.0;
    assert 3.0 * savings == od * (1.05 * u - 219.0);
    assert 1.05 * u - 219.0 < 876.0;
    ProductBelow(od, 1.05 * u - 219.0, 876.0);
    QuotientAbove(upfront, savings, 3.0);
  }

  /** Three years: savings od·(0.55u − 109.5) against an upfront of od·3942. */
  lemma ThreeYearBreakEven(od: real, u: real)
    requires od > 0.0 && 292.0 <= u <= 730.0
    ensures var savings := od * u - (od * (1.0 - 55.0 / 100.0) * u + od * 730.0 * 36.0 * 0.15 / 36.0);
      savings > 0.0 && od * 730.0 * 36.0 * 0.15 / savings > 12.0
  {
    var savings := od * u - (od * (1.0 - 55.0 / 100.0) * u + od * 730.0 * 36.0 * 0.15 / 36.0);
    var upfront := od * 730.0 * 36.0 * 0.15;
    assert savings == od * (0.55 * u - 109.5);
    assert 0.55 * u - 109.5 > 0.0;
    PositiveProduct(od, 0.55 * u - 109.5);
    assert upfront == od * 3942.0;
    assert 12.0 * savings == od * (6.6 * u - 1314.0);
    assert 6.6 * u - 1314.0 < 3942.0;
    ProductBelow(od, 6.6 * u - 1314.0, 3942.0);
    QuotientAbove(upfront, savings, 12.0);
  }

  lemma PositiveProduct(a: real, b: real)
    requires a > 0.0 && b > 0.0
    ensures a * b > 0.0
  {
  }

  lemma ProductBelow(a: real, b: real, c: real)
    requires a > 0.0 && b < c
    ensures a * b < a * c
  {
  }

  lemma QuotientAbove(x: real, y: real, k: real)
    requires y > 0.0 && x > k * y
    ensures x / y > k
  {
  }

  /** The tool object: its arguments, of which `usage_hours` is capped in place by `run`. */
  class RISavingsTool {
    var instanceType: string
    var region: string
    var commitmentTerm: string
    var usageHours: real
    var provider: string

    constructor(instanceType: string, region: string, commitmentTerm: string, usageHours: real, provider: string)
      ensures this.instanceType == instanceType && this.region == region && this.commitmentTerm == commitmentTerm
      ensures this.usageHours == usageHours && this.provider == provider
    {
      this.instanceType := instanceType;
      this.region := region;
      this.commitmentTerm := commitmentTerm;
      this.usageHours := usageHours;
      this.provider := provider;
    }

    /** `run`: answers as `Calculate` on the usage it was given, and leaves `usage_hours` capped. */
    method Run() returns (r: Outcome<RIReport>)
      modifies this
      ensures r == Calculate(instanceType, region, provider, commitmentTerm, old(usageHours))
      ensures usageHours == CappedUsage(provider, commitmentTerm, old(usageHours))
      ensures instanceType == old(instanceType) && region == old(region)
      ensures commitmentTerm == old(commitmentTerm) && provider == old(provider)
    {
      if provider !in Providers {
        return Error(BadProviderPrefix + provider + "'");
      }
      if commitmentTerm !in Terms {
        return Error(BadTermPrefix + commitmentTerm + BadTermSuffix);
      }
      if usageHours < 0.0 {
        return Error(NegativeUsage);
      }
      if usageHours > MaxMonthlyHours {
        usageHours := MaxMonthlyHours;
      }
      var utilisation := usageHours / MaxMonthlyHours * 100.0;
      if utilisation < 40.0 {
        return Warning(LowUtilization);
      }
      var pricing := GetPricing(provider, instanceType, commitmentTerm);
      if pricing.None? {
        return Error(NoPricingPrefix + instanceType + " in " + region);
      }
      r := Ok(Report(instanceType, region, provider, commitmentTerm, usageHours, pricing.value));
    }
  }
}
