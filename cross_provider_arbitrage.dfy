/**
 * CalculateCrossProviderArbitrage: prices one workload on AWS, GCP and
 * Azure, finds the cheapest provider, and decides whether moving there
 * pays for the migration effort.
 *
 * The per-provider costs and the comparison table are built in loops and
 * the table is then sorted in place, as the tool does; everything else is
 * a function of those.
 */
module CrossProviderArbitrage {
  import opened Outcomes
  import opened Text
  import opened Seqs
  import opened Sorting

  const WorkloadTypes: seq<string> := ["compute_vm", "kubernetes", "serverless", "database", "storage"]
  const Providers: seq<string> := ["aws", "gcp", "azure"]
  const Regions: seq<string> := ["us_east", "us_west", "europe", "asia"]

  /** The parsed `specs` argument: a JSON object of numbers, or text that is not JSON. */
  datatype SpecsInput = InvalidJson | Parsed(fields: map<string, real>)

  /** `specs.get(name, 0)`. */
  function Spec(specs: map<string, real>, name: string): real
  {
    if name in specs then specs[name] else 0.0
  }

  predicate ComputeLike(workloadType: string)
  {
    workloadType == "compute_vm" || workloadType == "kubernetes"
  }

  /** Price of a vCPU-hour by provider and region. */
  function ComputeRate(provider: string, region: string): real
  {
    if provider == "aws" then (if region == "europe" then 0.053 else if region == "asia" then 0.054 else 0.048)
    else if provider == "gcp" then (if region == "europe" then 0.046 else if region == "asia" then 0.048 else 0.042)
    else (if region == "europe" then 0.050 else if region == "asia" then 0.052 else 0.046)
  }

  function DiskRate(provider: string): real
  {
    if provider == "aws" then 0.10 else if provider == "gcp" then 0.04 else 0.08
  }

  function ObjectStorageRate(provider: string): real
  {
    if provider == "aws" then 23.55 else if provider == "gcp" then 20.48 else 21.12
  }

  /** Egress price per GB for object storage. */
  function EgressRate(provider: string): real
  {
    if provider == "aws" then 0.09 else if provider == "gcp" then 0.12 else 0.087
  }

  /** Egress for a VM: GCP's first 1000 GB are free, and it charges 0.12 only above that. */
  function VmEgress(provider: string, bandwidthGb: real): real
  {
    var billable := bandwidthGb - (if provider == "gcp" then 1000.0 else 0.0);
    var rate := if provider == "aws" then 0.09 else if provider == "gcp" then (if bandwidthGb > 1000.0 then 0.12 else 0.0) else 0.087;
    (if billable > 0.0 then billable else 0.0) * rate
  }

  /** `_calculate_provider_cost`; serverless and database workloads are not priced. */
  function ProviderCost(provider: string, workloadType: string, specs: map<string, real>, region: string): real
  {
    if ComputeLike(workloadType) then
      Spec(specs, "vcpu") * ComputeRate(provider, region) * 730.0
      + Spec(specs, "memory_gb") * 0.005 * 730.0
      + Spec(specs, "storage_gb") * DiskRate(provider)
      + VmEgress(provider, Spec(specs, "bandwidth_gb_month"))
    else if workloadType == "storage" then
      Spec(specs, "size_tb") * ObjectStorageRate(provider) + Spec(specs, "bandwidth_gb_month") * EgressRate(provider)
    else 0.0
  }

  /** GCP egress is free up to 1000 GB, and otherwise costs 0.12 for each GB above it. */
  lemma VmEgressFacts(bandwidthGb: real)
    ensures bandwidthGb <= 1000.0 ==> VmEgress("gcp", bandwidthGb) == 0.0
    ensures bandwidthGb > 1000.0 ==> VmEgress("gcp", bandwidthGb) == (bandwidthGb - 1000.0) * 0.12
    ensures VmEgress("aws", bandwidthGb) == (if bandwidthGb > 0.0 then bandwidthGb * 0.09 else 0.0)
  {
  }

  /**
   * Costs are never negative for non-negative specifications, and
   * serverless and database workloads cost nothing anywhere.
   */
  lemma ProviderCostFacts(provider: string, workloadType: string, specs: map<string, real>, region: string)
    requires forall k :: k in specs ==> specs[k] >= 0.0
    ensures ProviderCost(provider, workloadType, specs, region) >= 0.0
    ensures !ComputeLike(workloadType) && workloadType != "storage" ==> ProviderCost(provider, workloadType, specs, region) == 0.0
  {
    var vcpu, memory, disk, egress, size :=
      Spec(specs, "vcpu"), Spec(specs, "memory_gb"), Spec(specs, "storage_gb"),
      Spec(specs, "bandwidth_gb_month"), Spec(specs, "size_tb");
    NonNegativeProduct(vcpu, ComputeRate(provider, region) * 730.0);
    NonNegativeProduct(disk, DiskRate(provider));
    NonNegativeProduct(size, ObjectStorageRate(provider));
    NonNegativeProduct(egress, EgressRate(provider));
    var billable := egress - (if provider == "gcp" then 1000.0 else 0.0);
    NonNegativeProduct(if billable > 0.0 then billable else 0.0,
      if provider == "aws" then 0.09 else if provider == "gcp" then (if egress > 1000.0 then 0.12 else 0.0) else 0.087);
  }

  lemma NonNegativeProduct(a: real, b: real)
    requires a >= 0.0 && b >= 0.0
    ensures a * b >= 0.0
  {
  }

  /** The costs on every provider, as `run`'s first loop leaves `provider_costs`. */
  function CostTable(workloadType: string, specs: map<string, real>, region: string): map<string, real>
  {
    map p | p in Providers :: ProviderCost(p, workloadType, specs, region)
  }

  /** Step 4: one price per provider. */
  method ProviderCosts(workloadType: string, specs: map<string, real>, region: string) returns (costs: map<string, real>)
    ensures costs == CostTable(workloadType, specs, region)
  {
    costs := map[];
    var i := 0;
    while i < |Providers|
      invariant 0 <= i <= |Providers|
      invariant costs.Keys == set k | 0 <= k < i :: Providers[k]
      invariant forall p :: p in costs ==> costs[p] == ProviderCost(p, workloadType, specs, region)
    {
      costs := costs[Providers[i] := ProviderCost(Providers[i], workloadType, specs, region)];
      i := i + 1;
    }
    assert costs.Keys == CostTable(workloadType, specs, region).Keys;
  }

  /** `min(provider_costs, key=provider_costs.get)`: the first provider, in table order, with the lowest cost. */
  function Cheapest(costs: map<string, real>): (r: string)
    requires forall p :: p in Providers ==> p in costs
    ensures r in Providers
  {
    if costs["aws"] <= costs["gcp"] && costs["aws"] <= costs["azure"] then "aws"
    else if costs["gcp"] <= costs["azure"] then "gcp"
    else "azure"
  }

  /** The cheapest provider costs no more than any other, and every provider listed before it costs strictly more. */
  lemma CheapestFacts(costs: map<string, real>)
    requires forall p :: p in Providers ==> p in costs
    ensures forall p :: p in Providers ==> costs[Cheapest(costs)] <= costs[p]
    ensures forall k :: 0 <= k < |Providers| && Providers[k] == Cheapest(costs) ==>
      forall m :: 0 <= m < k ==> costs[Providers[m]] > costs[Cheapest(costs)]
  {
  }

  datatype Complexity = LowComplexity | MediumComplexity | HighComplexity

  /** `_assess_migration_complexity`: only the workload type matters. */
  function MigrationComplexity(workloadType: string): Complexity
  {
    if workloadType == "kubernetes" || workloadType == "storage" then LowComplexity
    else if workloadType == "database" then HighComplexity
    else MediumComplexity
  }

  /** `_estimate_migration_cost`: a base by complexity, plus 50 per TB moved for storage. */
  function MigrationCost(workloadType: string, complexity: Complexity, specs: map<string, real>): real
  {
    var base := match complexity
      case LowComplexity => 500.0
      case MediumComplexity => 2000.0
      case HighComplexity => 10000.0;
    if workloadType == "storage" then base + Spec(specs, "size_tb") * 50.0 else base
  }

  /** `_estimate_effort_weeks`. */
  function EffortWeeks(complexity: Complexity): nat
  {
    match complexity
    case LowComplexity => 1
    case MediumComplexity => 4
    case HighComplexity => 12
  }

  lemma MigrationEstimateFacts(workloadType: string, specs: map<string, real>)
    ensures var c := MigrationComplexity(workloadType);
      && (c == HighComplexity <==> workloadType == "database")
      && (c == LowComplexity <==> workloadType == "kubernetes" || workloadType == "storage")
      && MigrationCost(workloadType, c, specs)
         == (if c == LowComplexity then 500.0 else if c == MediumComplexity then 2000.0 else 10000.0)
            + (if workloadType == "storage" then Spec(specs, "size_tb") * 50.0 else 0.0)
      && EffortWeeks(c) == (if c == LowComplexity then 1 else if c == MediumComplexity then 4 else 12)
  {
  }

  datatype Action = Stay | Migrate | Consider

  datatype Reason =
    | AlreadyCheapest(provider: string)
    | StrongArbitrage(savingsPct: real, breakEven: real)
    | ModerateOpportunity(savingsPct: real, breakEven: real)
    | NotJustified(breakEven: real)

  datatype Decision = Decision(action: Action, reason: Reason)

  /** Step 8. */
  function BreakEven(migrationCost: real, monthlySavings: real): real
  {
    if monthlySavings > 0.0 then migrationCost / monthlySavings else 999.0
  }

  /** Step 9. */
  function Decide(current: string, cheapest: string, breakEven: real, complexity: Complexity, savingsPct: real): Decision
  {
    if cheapest == current then Decision(Stay, AlreadyCheapest(Upper(current)))
    else if breakEven <= 6.0 && complexity != HighComplexity then Decision(Migrate, StrongArbitrage(savingsPct, breakEven))
    else if breakEven <= 12.0 && complexity == LowComplexity then Decision(Consider, ModerateOpportunity(savingsPct, breakEven))
    else Decision(Stay, NotJustified(breakEven))
  }

  /**
   * Moving is advised only to a different, strictly cheaper provider: never
   * at HIGH complexity, at a break-even of six months (MIGRATE) or twelve
   * months at LOW complexity (CONSIDER); without savings the break-even is
   * 999 and the answer is STAY.
   */
  lemma DecideFacts(current: string, cheapest: string, migrationCost: real, savings: real, complexity: Complexity, savingsPct: real)
    ensures var d := Decide(current, cheapest, BreakEven(migrationCost, savings), complexity, savingsPct);
      && (d.action != Stay ==> cheapest != current && savings > 0.0 && complexity != HighComplexity)
      && (d.action == Migrate <==> cheapest != current && BreakEven(migrationCost, savings) <= 6.0 && complexity != HighComplexity)
      && (d.action == Consider ==> complexity == LowComplexity && BreakEven(migrationCost, savings) <= 12.0)
      && (savings <= 0.0 ==> BreakEven(migrationCost, savings) == 999.0 && d.action == Stay)
  {
  }

  datatype Entry = Entry(
    provider: string,
    monthlyCost: real,
    annualCost: real,
    monthlyDiff: real,
    annualDiff: real,
    percentDiff: real,
    isCurrent: bool,
    isCheapest: bool)

  /** One row of `provider_comparison`. */
  function EntryFor(provider: string, costs: map<string, real>, current: string, cheapest: string): Entry
    requires provider in costs && current in costs
  {
    var cost := costs[provider];
    var diff := costs[current] - cost;
    Entry(provider, cost, cost * 12.0, diff, diff * 12.0,
      if costs[current] > 0.0 then diff / costs[current] * 100.0 else 0.0,
      provider == current, provider == cheapest)
  }

  /** The rows in provider order, before sorting. */
  function Rows(costs: map<string, real>, current: string, cheapest: string): (r: seq<Entry>)
    requires forall p :: p in Providers ==> p in costs
    requires current in Providers
    ensures |r| == |Providers|
    ensures forall k :: 0 <= k < |r| ==> r[k] == EntryFor(Providers[k], costs, current, cheapest)
  {
    seq(|Providers|, k requires 0 <= k < |Providers| => EntryFor(Providers[k], costs, current, cheapest))
  }

  function MonthlyCostOf(e: Entry): real
  {
    e.monthlyCost
  }

  function IsCurrent(e: Entry): bool
  {
    e.isCurrent
  }

  function IsCheapest(e: Entry): bool
  {
    e.isCheapest
  }

  /** Step 10: the rows appended in provider order, then sorted in place by monthly cost. */
  method Comparison(costs: map<string, real>, current: string, cheapest: string) returns (r: seq<Entry>)
    requires forall p :: p in Providers ==> p in costs
    requires current in Providers
    ensures r == SortBy(Rows(costs, current, cheapest), MonthlyCostOf)
  {
    var rows: seq<Entry> := [];
    var i := 0;
    while i < |Providers|
      invariant 0 <= i <= |Providers|
      invariant rows == Rows(costs, current, cheapest)[..i]
    {
      rows := rows + [EntryFor(Providers[i], costs, current, cheapest)];
      i := i + 1;
    }
    var a := new Entry[|rows|](k requires 0 <= k < |rows| => rows[k]);
    assert a[..] == Rows(costs, current, cheapest);
    SortInPlace(a, MonthlyCostOf);
    r := a[..];
  }

  /**
   * The comparison lists each provider once, ascending by monthly cost,
   * with exactly one row marked current and exactly one marked cheapest;
   * the cheapest row's difference against the current provider is the
   * monthly savings.
   */
  lemma ComparisonFacts(costs: map<string, real>, current: string)
    requires forall p :: p in Providers ==> p in costs
    requires current in Providers
    ensures var r := SortBy(Rows(costs, current, Cheapest(costs)), MonthlyCostOf);
      && |r| == 3
      && SortedBy(r, MonthlyCostOf)
      && multiset(r) == multiset(Rows(costs, current, Cheapest(costs)))
      && CountWhere(r, IsCurrent) == 1
      && CountWhere(r, IsCheapest) == 1
      && forall k :: 0 <= k < |r| && r[k].isCheapest ==> r[k].monthlyDiff == costs[current] - costs[Cheapest(costs)]
  {
    var rows := Rows(costs, current, Cheapest(costs));
    var r := SortBy(rows, MonthlyCostOf);
    SortBySorted(rows, MonthlyCostOf);
    SortByPermutes(rows, MonthlyCostOf);
    FilterPermutation(r, rows, IsCurrent);
    FilterPermutation(r, rows, IsCheapest);
    RowsCount(costs, current, Cheapest(costs));
    forall k | 0 <= k < |r| && r[k].isCheapest
      ensures r[k].monthlyDiff == costs[current] - costs[Cheapest(costs)]
    {
      assert r[k] in multiset(rows);
    }
  }

  lemma RowsCount(costs: map<string, real>, current: string, cheapest: string)
    requires forall p :: p in Providers ==> p in costs
    requires current in Providers && cheapest in Providers
    ensures |Filter(Rows(costs, current, cheapest), IsCurrent)| == 1
    ensures |Filter(Rows(costs, current, cheapest), IsCheapest)| == 1
  {
    var rows := Rows(costs, current, cheapest);
    assert rows == [rows[0]] + [rows[1]] + [rows[2]];
    assert [rows[0]][..0] == [];
    assert [rows[1]][..0] == [] && [rows[2]][..0] == [];
    FilterAppend([rows[0]] + [rows[1]], [rows[2]], IsCurrent);
    FilterAppend([rows[0]], [rows[1]], IsCurrent);
    FilterAppend([rows[0]] + [rows[1]], [rows[2]], IsCheapest);
    FilterAppend([rows[0]], [rows[1]], IsCheapest);
  }

  const AssessTitle := "Phase 1: Assessment (Week 1)"
  const AuditPrefix := "- Audit dependencies on "
  const AuditSuffix := "-specific services"
  const IdentifyPortable := "- Identify portable vs vendor-locked components"
  const TrialPrefix := "- Create "
  const TrialSuffix := " trial account and test environment"
  const PlanTitle := "Phase 2: Planning (Week 2)"
  const DesignPrefix := "- Design "
  const DesignSuffix := " architecture equivalent to current"
  const PlanData := "- Plan data migration strategy (minimize downtime)"
  const PlanRollback := "- Establish rollback procedures"
  const KubernetesTitle := "Phase 3: Migration (Week 3)"
  const DeployPrefix := "- Deploy Kubernetes cluster on "
  const UpdateRegistries := "- Update container registries and CI/CD pipelines"
  const BlueGreen := "- Blue-green deployment to minimize downtime"
  const VmTitle := "Phase 3: Migration (Weeks 3-4)"
  const ConvertPrefix := "- Convert VM images to "
  const ConvertSuffix := " format"
  const TransferData := "- Migrate data using cloud transfer service"
  const Reconfigure := "- Reconfigure networking, DNS, and load balancers"
  const CutoverTitle := "Phase 4: Validation & Cutover"
  const PerformanceTests := "- Performance testing and cost validation"
  const GradualTraffic := "- Gradual traffic migration (10% → 50% → 100%)"
  const DecommissionPrefix := "- Decommission "
  const DecommissionSuffix := " resources after stabilization"

  /** `_generate_migration_roadmap`: four phases, the third only for Kubernetes and VMs. */
  function Roadmap(workloadType: string, from: string, to: string): seq<string>
  {
    var assess := [AssessTitle, AuditPrefix + Upper(from) + AuditSuffix, IdentifyPortable,
      TrialPrefix + Upper(to) + TrialSuffix];
    var plan := [PlanTitle, DesignPrefix + Upper(to) + DesignSuffix, PlanData, PlanRollback];
    var migrate :=
      if workloadType == "kubernetes" then [KubernetesTitle, DeployPrefix + Upper(to), UpdateRegistries, BlueGreen]
      else if workloadType == "compute_vm" then [VmTitle, ConvertPrefix + Upper(to) + ConvertSuffix, TransferData, Reconfigure]
      else [];
    var cutover := [CutoverTitle, PerformanceTests, GradualTraffic, DecommissionPrefix + Upper(from) + DecommissionSuffix];
    assess + plan + migrate + cutover
  }

  /**
   * The roadmap has four phases of four lines each, the third (migration)
   * only for Kubernetes and VMs; each phase opens with its title, the first
   * names the source provider's services and the last decommissions them.
   */
  lemma RoadmapFacts(workloadType: string, from: string, to: string)
    ensures var r := Roadmap(workloadType, from, to);
      && |r| == (if ComputeLike(workloadType) then 16 else 12)
      && r[0] == AssessTitle && r[4] == PlanTitle
      && r[|r| - 4] == CutoverTitle
      && r[|r| - 1] == DecommissionPrefix + Upper(from) + DecommissionSuffix
      && (workloadType == "kubernetes" ==> r[8] == KubernetesTitle)
      && (workloadType == "compute_vm" ==> r[8] == VmTitle)
  {
  }

  datatype ArbitrageReport = ArbitrageReport(
    workloadType: string,
    specs: map<string, real>,
    region: string,
    currentProvider: string,
    currentCost: real,
    currentAnnualCost: real,
    decision: Decision,
    targetProvider: string,
    monthlySavings: real,
    annualSavings: real,
    savingsPct: real,
    complexity: Complexity,
    migrationCost: real,
    effortWeeks: nat,
    breakEven: real,
    comparison: seq<Entry>,
    roadmap: seq<string>)

  /** Steps 5 to 12, given the cost table and the sorted comparison. */
  function Assemble(workloadType: string, specs: map<string, real>, current: string, region: string,
                    costs: map<string, real>, comparison: seq<Entry>): ArbitrageReport
    requires forall p :: p in Providers ==> p in costs
    requires current in Providers
  {
    var currentCost := costs[current];
    var cheapest := Cheapest(costs);
    var savings := currentCost - costs[cheapest];
    var pct := if currentCost > 0.0 then savings / currentCost * 100.0 else 0.0;
    var complexity := MigrationComplexity(workloadType);
    var migrationCost := MigrationCost(workloadType, complexity, specs);
    var breakEven := BreakEven(migrationCost, savings);
    var decision := Decide(current, cheapest, breakEven, complexity, pct);
    var moving := decision.action == Migrate || decision.action == Consider;
    ArbitrageReport(workloadType, specs, region, current, currentCost, currentCost * 12.0, decision,
      if moving then cheapest else current, savings, savings * 12.0, pct, complexity, migrationCost,
      EffortWeeks(complexity), breakEven, comparison, if moving then Roadmap(workloadType, current, cheapest) else [])
  }

  const BadWorkloadPrefix := "Invalid workload_type '"
  const BadProviderPrefix := "Invalid current_provider '"
  const InvalidSpecs := "Invalid JSON in specs."
  const MissingVcpuPrefix := "Missing required field 'vcpu' for workload_type '"
  const MissingMemoryPrefix := "Missing required field 'memory_gb' for workload_type '"
  const MissingSize := "Missing required field 'size_tb' for storage workload"
  const UnknownRegionPrefix := "Error calculating cross-provider arbitrage: '"

  /** The input checks of steps 1 to 3, and the unknown region that step 4's rate lookup rejects. */
  function InputError(workloadType: string, specs: SpecsInput, current: string, region: string): Option<string>
  {
    if workloadType !in WorkloadTypes then Some(BadWorkloadPrefix + workloadType + "'")
    else if current !in Providers then Some(BadProviderPrefix + current + "'")
    else if specs.InvalidJson? then Some(InvalidSpecs)
    else if ComputeLike(workloadType) && "vcpu" !in specs.fields then
      Some(MissingVcpuPrefix + workloadType + "'")
    else if ComputeLike(workloadType) && "memory_gb" !in specs.fields then
      Some(MissingMemoryPrefix + workloadType + "'")
    else if workloadType == "storage" && "size_tb" !in specs.fields then
      Some(MissingSize)
    else if ComputeLike(workloadType) && region !in Regions then
      Some(UnknownRegionPrefix + region + "'")
    else None
  }

  /** The tool's `run` as a function of its arguments. */
  function Arbitrage(workloadType: string, specs: SpecsInput, current: string, region: string): Outcome<ArbitrageReport>
  {
    match InputError(workloadType, specs, current, region)
    case Some(msg) => Error(msg)
    case None =>
      var costs := CostTable(workloadType, specs.fields, region);
      Ok(Assemble(workloadType, specs.fields, current, region, costs,
        SortBy(Rows(costs, current, Cheapest(costs)), MonthlyCostOf)))
  }

  /** The tool's `run`: the two loops of steps 4 and 10, then the report. */
  method Run(workloadType: string, specs: SpecsInput, current: string, region: string) returns (r: Outcome<ArbitrageReport>)
    ensures r == Arbitrage(workloadType, specs, current, region)
  {
    var problem := InputError(workloadType, specs, current, region);
    if problem.Some? {
      return Error(problem.value);
    }
    var costs := ProviderCosts(workloadType, specs.fields, region);
    var comparison := Comparison(costs, current, Cheapest(costs));
    r := Ok(Assemble(workloadType, specs.fields, current, region, costs, comparison));
  }

  /**
   * The tool answers exactly for a known workload type and provider, JSON
   * specs carrying the fields the workload needs and, for VMs and
   * Kubernetes, a known region; it never warns.
   */
  lemma ArbitrageAnswers(workloadType: string, specs: SpecsInput, current: string, region: string)
    ensures !Arbitrage(workloadType, specs, current, region).Warning?
    ensures Arbitrage(workloadType, specs, current, region).Ok? <==>
      && workloadType in WorkloadTypes && current in Providers && specs.Parsed?
      && (ComputeLike(workloadType) ==> "vcpu" in specs.fields && "memory_gb" in specs.fields && region in Regions)
      && (workloadType == "storage" ==> "size_tb" in specs.fields)
  {
  }

  /**
   * Savings are never negative; moving is never advised to the current
   * provider, nor for a HIGH-complexity (database) workload; and the
   * roadmap is empty exactly when the answer is STAY.
   */
  lemma ReportFacts(workloadType: string, specs: SpecsInput, current: string, region: string)
    requires Arbitrage(workloadType, specs, current, region).Ok?
    ensures var r := Arbitrage(workloadType, specs, current, region).value;
      var costs := CostTable(workloadType, specs.fields, region);
      && r.monthlySavings >= 0.0
      && r.monthlySavings == costs[current] - costs[Cheapest(costs)]
      && (r.monthlySavings <= 0.0 ==> r.breakEven == 999.0)
      && (r.decision.action != Stay ==> r.targetProvider != current && r.monthlySavings > 0.0)
      && (r.decision.action == Stay ==> r.targetProvider == current && r.roadmap == [])
      && (r.decision.action != Stay ==> r.roadmap != [])
      && (workloadType == "database" ==> r.decision.action == Stay)
  {
    var costs := CostTable(workloadType, specs.fields, region);
    AssembleFacts(workloadType, specs.fields, current, region, costs,
      SortBy(Rows(costs, current, Cheapest(costs)), MonthlyCostOf));
  }

  lemma AssembleFacts(workloadType: string, specs: map<string, real>, current: string, region: string,
                      costs: map<string, real>, comparison: seq<Entry>)
    requires forall p :: p in Providers ==> p in costs
    requires current in Providers
    ensures var r := Assemble(workloadType, specs, current, region, costs, comparison);
      && r.monthlySavings >= 0.0
      && r.monthlySavings == costs[current] - costs[Cheapest(costs)]
      && (r.monthlySavings <= 0.0 ==> r.breakEven == 999.0)
      && (r.decision.action != Stay ==> r.targetProvider != current && r.monthlySavings > 0.0)
      && (r.decision.action == Stay ==> r.targetProvider == current && r.roadmap == [])
      && (r.decision.action != Stay ==> r.roadmap != [])
      && (workloadType == "database" ==> r.decision.action == Stay)
  {
    CheapestFacts(costs);
    var cheapest := Cheapest(costs);
    var savings := costs[current] - costs[cheapest];
    var complexity := MigrationComplexity(workloadType);
    var pct := if costs[current] > 0.0 then savings / costs[current] * 100.0 else 0.0;
    DecideFacts(current, cheapest, MigrationCost(workloadType, complexity, specs), savings, complexity, pct);
  }

  /** Over a table of zero costs the report has no savings and stays put. */
  lemma AssembleUnpriced(workloadType: string, specs: map<string, real>, current: string, region: string,
                         costs: map<string, real>, comparison: seq<Entry>)
    requires forall p :: p in Providers ==> p in costs && costs[p] == 0.0
    requires current in Providers
    ensures var r := Assemble(workloadType, specs, current, region, costs, comparison);
      r.decision.action == Stay && r.monthlySavings == 0.0 && r.currentCost == 0.0
  {
    var complexity := MigrationComplexity(workloadType);
    DecideFacts(current, Cheapest(costs), MigrationCost(workloadType, complexity, specs), 0.0, complexity, 0.0);
  }

  /** Serverless and database workloads cost nothing anywhere, so the answer is always STAY with no savings. */
  lemma UnpricedWorkloadsStay(workloadType: string, specs: SpecsInput, current: string, region: string)
    requires workloadType == "serverless" || workloadType == "database"
    requires Arbitrage(workloadType, specs, current, region).Ok?
    ensures var r := Arbitrage(workloadType, specs, current, region).value;
      && r.decision.action == Stay
      && r.monthlySavings == 0.0
      && r.currentCost == 0.0
  {
    var costs := CostTable(workloadType, specs.fields, region);
    assert costs["aws"] == 0.0 && costs["gcp"] == 0.0 && costs["azure"] == 0.0;
    var comparison := SortBy(Rows(costs, current, Cheapest(costs)), MonthlyCostOf);
    assert Arbitrage(workloadType, specs, current, region) == Ok(Assemble(workloadType, specs.fields, current, region, costs, comparison));
    AssembleUnpriced(workloadType, specs.fields, current, region, costs, comparison);
  }
}
