/**
 * ClassifyAnomaly: sorts services of a cost breakdown into signals (new
 * service, usage spike, cost-only spike, zombie, major contributor) and
 * classifies a detected anomaly by the first rule whose signal is present.
 *
 * The signal lists are filled by one loop over the breakdown, as the tool
 * does; each list is specified as a filtered map of the breakdown.
 */
module ClassifyAnomaly {
  import opened Outcomes
  import opened Values
  import opened Seqs

  /** The anomaly document, with `dict.get` defaults applied where the tool gives them. */
  datatype AnomalyInput =
    | AnomalyInvalidJson
    | AnomalyDoc(isSpike: Option<Value>, isSignificant: Option<Value>, deviationPct: real,
                 severity: Option<string>, currentValue: Option<real>, trendDirection: Option<string>)

  /** One breakdown record; a missing name is "unknown" and a missing number 0. */
  datatype Service = Service(name: string, cost: real, usage: real, previousCost: real, previousUsage: real)

  datatype BreakdownInput = BreakdownInvalidJson | NotAList | Items(services: seq<Service>)

  /** `((new - old) / old) * 100`, 0 for a zero base (which the tool never divides by). */
  function ChangePct(now: real, before: real): real
  {
    if before != 0.0 then (now - before) / before * 100.0 else 0.0
  }

  function Abs(x: real): real
  {
    if x < 0.0 then -x else x
  }

  predicate IsNew(s: Service)
  {
    s.previousCost == 0.0 && s.cost > 0.0
  }

  /** Cost and usage moved together: within 10 points of each other. */
  predicate IsUsageSpike(s: Service)
  {
    !IsNew(s) && s.previousCost > 0.0 && s.previousUsage > 0.0
    && Abs(ChangePct(s.cost, s.previousCost) - ChangePct(s.usage, s.previousUsage)) < 10.0
  }

  /** Cost up by more than 20 % while usage moved less than 5 %. */
  predicate IsCostOnlySpike(s: Service)
  {
    !IsNew(s) && s.previousCost > 0.0 && s.previousUsage > 0.0
    && !(Abs(ChangePct(s.cost, s.previousCost) - ChangePct(s.usage, s.previousUsage)) < 10.0)
    && ChangePct(s.cost, s.previousCost) > 20.0 && Abs(ChangePct(s.usage, s.previousUsage)) < 5.0
  }

  predicate IsZombie(s: Service)
  {
    s.usage < s.cost * 0.05 && s.cost > 50.0
  }

  /** More than 30 % of the anomaly's current value. */
  predicate IsMajor(s: Service, currentValue: real)
  {
    s.cost > currentValue * 0.3
  }

  datatype NewEntry = NewEntry(service: string, cost: real)
  datatype UsageEntry = UsageEntry(service: string, costChange: real, usageChange: real)
  datatype CostEntry = CostEntry(service: string, costChange: real)
  datatype ZombieEntry = ZombieEntry(service: string, cost: real, usage: real, utilisationPct: real)
  datatype MajorEntry = MajorEntry(service: string, cost: real, percentOfTotal: real)

  function NewEntryOf(s: Service): NewEntry
  {
    NewEntry(s.name, s.cost)
  }

  function UsageEntryOf(s: Service): UsageEntry
  {
    UsageEntry(s.name, ChangePct(s.cost, s.previousCost), ChangePct(s.usage, s.previousUsage))
  }

  function CostEntryOf(s: Service): CostEntry
  {
    CostEntry(s.name, ChangePct(s.cost, s.previousCost))
  }

  function ZombieEntryOf(s: Service): ZombieEntry
  {
    ZombieEntry(s.name, s.cost, s.usage, if s.cost > 0.0 then s.usage / s.cost * 100.0 else 0.0)
  }

  /** The share of the current value, reported as 0 when that value is 0, as the zombie share already is for a zero cost. */
  function MajorEntryOf(s: Service, currentValue: real): MajorEntry
  {
    MajorEntry(s.name, s.cost, if currentValue != 0.0 then s.cost / currentValue * 100.0 else 0.0)
  }

  datatype Signals = Signals(
    newServices: seq<NewEntry>,
    usageSpikes: seq<UsageEntry>,
    costOnlySpikes: seq<CostEntry>,
    zombies: seq<ZombieEntry>,
    majors: seq<MajorEntry>)

  /** What step 4 collects from a breakdown. */
  function SignalsOf(services: seq<Service>, currentValue: real): Signals
  {
    Signals(
      MapFilter(services, IsNew, NewEntryOf),
      MapFilter(services, IsUsageSpike, UsageEntryOf),
      MapFilter(services, IsCostOnlySpike, CostEntryOf),
      MapFilter(services, IsZombie, ZombieEntryOf),
      MapFilter(services, s => IsMajor(s, currentValue), s => MajorEntryOf(s, currentValue)))
  }

  /** Step 4: one pass over the breakdown appending to each signal list. */
  method CollectSignals(services: seq<Service>, currentValue: real) returns (r: Signals)
    ensures r == SignalsOf(services, currentValue)
  {
    var newServices: seq<NewEntry> := [];
    var usageSpikes: seq<UsageEntry> := [];
    var costOnly: seq<CostEntry> := [];
    var zombies: seq<ZombieEntry> := [];
    var majors: seq<MajorEntry> := [];
    var i := 0;
    while i < |services|
      invariant 0 <= i <= |services|
      invariant Signals(newServices, usageSpikes, costOnly, zombies, majors) == SignalsOf(services[..i], currentValue)
    {
      var s := services[i];
      assert services[..i + 1][..i] == services[..i];
      if s.previousCost == 0.0 && s.cost > 0.0 {
        newServices := newServices + [NewEntryOf(s)];
      } else if s.previousCost > 0.0 {
        var costChange := ChangePct(s.cost, s.previousCost);
        if s.previousUsage > 0.0 {
          var usageChange := ChangePct(s.usage, s.previousUsage);
          if Abs(costChange - usageChange) < 10.0 {
            usageSpikes := usageSpikes + [UsageEntryOf(s)];
          } else if costChange > 20.0 && Abs(usageChange) < 5.0 {
            costOnly := costOnly + [CostEntryOf(s)];
          }
        }
      }
      if s.cost > currentValue * 0.3 {
        majors := majors + [MajorEntryOf(s, currentValue)];
      }
      if s.usage < s.cost * 0.05 && s.cost > 50.0 {
        zombies := zombies + [ZombieEntryOf(s)];
      }
      i := i + 1;
    }
    assert services[..|services|] == services;
    r := Signals(newServices, usageSpikes, costOnly, zombies, majors);
  }

  /** The three service signals exclude each other: a service is new, a usage spike, a cost-only spike, or none. */
  lemma SignalsExclusive(s: Service)
    ensures IsNew(s) ==> !IsUsageSpike(s) && !IsCostOnlySpike(s)
    ensures !(IsUsageSpike(s) && IsCostOnlySpike(s))
    ensures IsUsageSpike(s) || IsCostOnlySpike(s) ==> s.previousCost > 0.0 && s.previousUsage > 0.0
  {
  }

  datatype Classification = NewResource | UsageSpike | CostSpike | ZombieResource | SustainedTrend

  datatype Reasoning =
    | NewServicesDetected(names: seq<string>)
    | UsageIncreased(averageUsageChange: real)
    | CostWithoutUsage
    | LowUtilisation(count: nat)
    | GradualTrend(direction: string)
    | UnclearCause

  datatype Verdict = Verdict(classification: Classification, confidence: nat, reasoning: Reasoning)

  function UsageChangeOf(e: UsageEntry): real
  {
    e.usageChange
  }

  /** Step 5: the first rule whose signal is present. */
  function Classify(sig: Signals, trendDirection: string): Verdict
  {
    if sig.newServices != [] then
      Verdict(NewResource, 85, NewServicesDetected(seq(|sig.newServices|, k requires 0 <= k < |sig.newServices| => sig.newServices[k].service)))
    else if sig.usageSpikes != [] then
      Verdict(UsageSpike, 80, UsageIncreased(SumOf(sig.usageSpikes, UsageChangeOf) / |sig.usageSpikes| as real))
    else if sig.costOnlySpikes != [] then Verdict(CostSpike, 75, CostWithoutUsage)
    else if sig.zombies != [] then Verdict(ZombieResource, 70, LowUtilisation(|sig.zombies|))
    else if trendDirection == "increasing" || trendDirection == "decreasing" then
      Verdict(SustainedTrend, 65, GradualTrend(trendDirection))
    else Verdict(CostSpike, 50, UnclearCause)
  }

  /** Some service of the breakdown shows the signal `p`. */
  predicate SomeService(services: seq<Service>, p: Service -> bool)
  {
    exists k :: 0 <= k < |services| && p(services[k])
  }

  /**
   * Read on the breakdown, tier by tier: a new service wins (85); then a
   * usage spike (80); then a cost-only spike (75); then a zombie (70); then
   * a rising or falling trend (65); and otherwise the generic cost spike at
   * 50. Each confidence occurs exactly when its tier is the first that holds.
   */
  lemma ClassifyRules(services: seq<Service>, currentValue: real, trendDirection: string)
    ensures var v := Classify(SignalsOf(services, currentValue), trendDirection);
      var n, u, c, z := SomeService(services, IsNew), SomeService(services, IsUsageSpike),
        SomeService(services, IsCostOnlySpike), SomeService(services, IsZombie);
      var trending := trendDirection == "increasing" || trendDirection == "decreasing";
      && (v.classification == NewResource <==> n)
      && (v.confidence == 85 <==> n)
      && (v.classification == UsageSpike <==> !n && u)
      && (v.confidence == 80 <==> !n && u)
      && (v.classification == CostSpike && v.confidence == 75 <==> !n && !u && c)
      && (v.classification == ZombieResource <==> !n && !u && !c && z)
      && (v.confidence == 70 <==> !n && !u && !c && z)
      && (v.classification == SustainedTrend <==> !n && !u && !c && !z && trending)
      && (v.confidence == 65 <==> !n && !u && !c && !z && trending)
      && (v.classification == CostSpike && v.confidence == 50 <==> !n && !u && !c && !z && !trending)
      && (v.confidence == 50 <==> v.reasoning == UnclearCause)
      && v.confidence in {50, 65, 70, 75, 80, 85}
  {
    MapFilterFacts(services, IsNew, NewEntryOf);
    MapFilterFacts(services, IsUsageSpike, UsageEntryOf);
    MapFilterFacts(services, IsCostOnlySpike, CostEntryOf);
    MapFilterFacts(services, IsZombie, ZombieEntryOf);
  }

  /** The recommended actions; `ActionText` gives the tool's wording. */
  datatype Action =
    | ReviewNewDeployments | CheckNewTagging | ValidateNewSizing
    | InvestigateWorkload | CheckAutoscaling | ReviewCapacity
    | ReviewConfigChanges | CheckCommitmentCoverage | VerifyTypeChanges
    | IdentifyIdle | CheckLastActivity | PlanTermination
    | PlanCapacity | ReviewOptimisation | SetBudgetAlerts
    | EscalateUrgently | ReviewSpendingLimits

  function ActionText(a: Action): string
  {
    match a
    case ReviewNewDeployments => "Review new service deployments - verify they were authorized"
    case CheckNewTagging => "Check if new resources have proper tagging (owner, environment, cost-center)"
    case ValidateNewSizing => "Validate that new resources follow sizing best practices"
    case InvestigateWorkload => "Investigate traffic or workload increase - is it expected?"
    case CheckAutoscaling => "Check if autoscaling is configured appropriately"
    case ReviewCapacity => "Review if additional capacity is needed or if this is temporary"
    case ReviewConfigChanges => "Review recent configuration changes or pricing model updates"
    case CheckCommitmentCoverage => "Check if Reserved Instance or Savings Plan coverage decreased"
    case VerifyTypeChanges => "Verify no inadvertent instance type or storage class changes"
    case IdentifyIdle => "Identify idle resources for potential termination or downsizing"
    case CheckLastActivity => "Check last activity timestamps for resources with <5% utilization"
    case PlanTermination => "Create termination plan with appropriate approval workflow"
    case PlanCapacity => "Analyze long-term capacity planning - is infrastructure scaling appropriately?"
    case ReviewOptimisation => "Review optimization opportunities (rightsizing, Reserved Instances)"
    case SetBudgetAlerts => "Consider setting up budget alerts if trend continues"
    case EscalateUrgently => "URGENT: Escalate to engineering team for immediate investigation"
    case ReviewSpendingLimits => "Review spending limits and consider temporary restrictions if unauthorized"
  }

  /** The classification a base action belongs to; the urgent actions belong to none. */
  function Owner(a: Action): Option<Classification>
  {
    match a
    case ReviewNewDeployments => Some(NewResource)
    case CheckNewTagging => Some(NewResource)
    case ValidateNewSizing => Some(NewResource)
    case InvestigateWorkload => Some(UsageSpike)
    case CheckAutoscaling => Some(UsageSpike)
    case ReviewCapacity => Some(UsageSpike)
    case ReviewConfigChanges => Some(CostSpike)
    case CheckCommitmentCoverage => Some(CostSpike)
    case VerifyTypeChanges => Some(CostSpike)
    case IdentifyIdle => Some(ZombieResource)
    case CheckLastActivity => Some(ZombieResource)
    case PlanTermination => Some(ZombieResource)
    case PlanCapacity => Some(SustainedTrend)
    case ReviewOptimisation => Some(SustainedTrend)
    case SetBudgetAlerts => Some(SustainedTrend)
    case EscalateUrgently => None
    case ReviewSpendingLimits => None
  }

  /** The three actions for a classification: three different ones, all its own, so no two classifications share an action. */
  function BaseActions(c: Classification): (r: seq<Action>)
    ensures |r| == 3 && r[0] != r[1] && r[0] != r[2] && r[1] != r[2]
    ensures forall k :: 0 <= k < |r| ==> Owner(r[k]) == Some(c)
  {
    match c
    case NewResource => [ReviewNewDeployments, CheckNewTagging, ValidateNewSizing]
    case UsageSpike => [InvestigateWorkload, CheckAutoscaling, ReviewCapacity]
    case CostSpike => [ReviewConfigChanges, CheckCommitmentCoverage, VerifyTypeChanges]
    case ZombieResource => [IdentifyIdle, CheckLastActivity, PlanTermination]
    case SustainedTrend => [PlanCapacity, ReviewOptimisation, SetBudgetAlerts]
  }

  /** The actions name their classification: two classifications never share a base action. */
  lemma BaseActionsDisjoint(c: Classification, d: Classification)
    requires c != d
    ensures forall k, m :: 0 <= k < 3 && 0 <= m < 3 ==> BaseActions(c)[k] != BaseActions(d)[m]
  {
  }

  const UrgentActions: seq<Action> := [EscalateUrgently, ReviewSpendingLimits]

  /** `_generate_recommendations`: the two urgent actions go first at HIGH or CRITICAL severity. */
  function Recommendations(c: Classification, severity: string): seq<Action>
  {
    if severity == "HIGH" || severity == "CRITICAL" then UrgentActions + BaseActions(c) else BaseActions(c)
  }

  /** Three actions, or five at HIGH or CRITICAL severity with the urgent pair first; the classification's three always end the list. */
  lemma RecommendationsFacts(c: Classification, severity: string)
    ensures var a := Recommendations(c, severity);
      && |a| == (if severity == "HIGH" || severity == "CRITICAL" then 5 else 3)
      && a[|a| - 3..] == BaseActions(c)
      && (|a| == 5 ==> a[..2] == UrgentActions)
  {
    var a := Recommendations(c, severity);
    if severity == "HIGH" || severity == "CRITICAL" {
      assert a[|a| - 3..] == a[2..];
    } else {
      assert a[|a| - 3..] == a;
    }
  }

  datatype ClassifyReport = ClassifyReport(verdict: Verdict, severity: string, deviationPct: real, signals: Signals, actions: seq<Action>)

  const InvalidAnomaly := "Invalid JSON in anomaly_data."
  const NoAnomaly := "No anomaly detected in provided data. Classification requires confirmed spike or trend change."
  const InvalidBreakdown := "Invalid JSON in cost_breakdown."
  const EmptyBreakdown := "cost_breakdown must be non-empty JSON array of service cost records."
  const DivisionByZero := "Error classifying anomaly: float division by zero"

  /** Whether the anomaly document flags a spike or a significant trend change. */
  predicate Flagged(anomaly: AnomalyInput)
    requires anomaly.AnomalyDoc?
  {
    (anomaly.isSpike.Some? && Truthy(anomaly.isSpike.value))
    || (anomaly.isSignificant.Some? && Truthy(anomaly.isSignificant.value))
  }

  /** Steps 1 and 2: the checks on both documents, in order. */
  function InputCheck(anomaly: AnomalyInput, breakdown: BreakdownInput): Option<Outcome<ClassifyReport>>
  {
    if anomaly.AnomalyInvalidJson? then Some(Error(InvalidAnomaly))
    else if !Flagged(anomaly) then Some(Warning(NoAnomaly))
    else if breakdown.BreakdownInvalidJson? then Some(Error(InvalidBreakdown))
    else if breakdown.NotAList? || breakdown.services == [] then Some(Error(EmptyBreakdown))
    else None
  }

  /**
   * The checks let through exactly a flagged anomaly with a non-empty
   * breakdown list; of the answers they give, only the unflagged anomaly is
   * a warning.
   */
  lemma InputCheckFacts(anomaly: AnomalyInput, breakdown: BreakdownInput)
    ensures InputCheck(anomaly, breakdown).None? <==>
      anomaly.AnomalyDoc? && Flagged(anomaly) && breakdown.Items? && breakdown.services != []
    ensures InputCheck(anomaly, breakdown).Some? ==>
      !InputCheck(anomaly, breakdown).value.Ok?
      && (InputCheck(anomaly, breakdown).value.Warning? <==> anomaly.AnomalyDoc? && !Flagged(anomaly))
  {
  }

  function Report(anomaly: AnomalyInput, services: seq<Service>): ClassifyReport
    requires anomaly.AnomalyDoc?
  {
    var sig := SignalsOf(services, anomaly.currentValue.GetOr(0.0));
    var severity := anomaly.severity.GetOr("UNKNOWN");
    var v := Classify(sig, anomaly.trendDirection.GetOr("unknown"));
    ClassifyReport(v, severity, anomaly.deviationPct, sig, Recommendations(v.classification, severity))
  }

  /** The tool's `run`, with the share of a zero current value reported as 0. */
  function ClassifyAnomaly(anomaly: AnomalyInput, breakdown: BreakdownInput): Outcome<ClassifyReport>
  {
    match InputCheck(anomaly, breakdown)
    case Some(answer) => answer
    case None => Ok(Report(anomaly, breakdown.services))
  }

  /** The tool's `run`: the checks, the signal loop, then the verdict. */
  method Run(anomaly: AnomalyInput, breakdown: BreakdownInput) returns (r: Outcome<ClassifyReport>)
    ensures r == ClassifyAnomaly(anomaly, breakdown)
  {
    var check := InputCheck(anomaly, breakdown);
    if check.Some? {
      return check.value;
    }
    var sig := CollectSignals(breakdown.services, anomaly.currentValue.GetOr(0.0));
    var severity := anomaly.severity.GetOr("UNKNOWN");
    var v := Classify(sig, anomaly.trendDirection.GetOr("unknown"));
    r := Ok(ClassifyReport(v, severity, anomaly.deviationPct, sig, Recommendations(v.classification, severity)));
  }

  /**
   * Without a truthy `is_spike` or `is_significant` the answer is a
   * warning; an empty breakdown or one that is not a list is an error;
   * and every other valid input is classified.
   */
  lemma ClassifyAnswers(anomaly: AnomalyInput, breakdown: BreakdownInput)
    ensures ClassifyAnomaly(anomaly, breakdown).Warning? <==> anomaly.AnomalyDoc? && !Flagged(anomaly)
    ensures ClassifyAnomaly(anomaly, breakdown).Ok? <==>
      anomaly.AnomalyDoc? && Flagged(anomaly) && breakdown.Items? && breakdown.services != []
  {
    InputCheckFacts(anomaly, breakdown);
    if InputCheck(anomaly, breakdown).None? {
      assert ClassifyAnomaly(anomaly, breakdown) == Ok(Report(anomaly, breakdown.services));
    }
  }

  /** The tool as written: the share of a zero current value divides by zero and ends in the generic error. */
  function ClassifyAnomalyAsWritten(anomaly: AnomalyInput, breakdown: BreakdownInput): Outcome<ClassifyReport>
  {
    match InputCheck(anomaly, breakdown)
    case Some(answer) => answer
    case None =>
      if anomaly.currentValue.GetOr(0.0) == 0.0 && exists k :: 0 <= k < |breakdown.services| && breakdown.services[k].cost > 0.0 then
        Error(DivisionByZero)
      else Ok(Report(anomaly, breakdown.services))
  }

  /**
   * A trend anomaly as DetectTrendChange reports it carries no
   * `current_value`, so as written any breakdown with a positive cost is
   * an error and the sustained-trend rule is never reached; the corrected
   * tool classifies it.
   */
  lemma TrendAnomalyFails()
    ensures var anomaly := AnomalyDoc(None, Some(VBool(true)), 0.0, None, None, Some("increasing"));
      var breakdown := Items([Service("Amazon EC2", 100.0, 100.0, 100.0, 0.0)]);
      && ClassifyAnomalyAsWritten(anomaly, breakdown).Error?
      && ClassifyAnomaly(anomaly, breakdown).Ok?
      && ClassifyAnomaly(anomaly, breakdown).value.verdict.classification == SustainedTrend
  {
    var anomaly := AnomalyDoc(None, Some(VBool(true)), 0.0, None, None, Some("increasing"));
    var s := Service("Amazon EC2", 100.0, 100.0, 100.0, 0.0);
    assert InputCheck(anomaly, Items([s])).None?;
    assert [s][..0] == [];
    assert !IsNew(s) && !IsUsageSpike(s) && !IsCostOnlySpike(s) && !IsZombie(s);
    var sig := SignalsOf([s], 0.0);
    MapFilterFacts([s], IsNew, NewEntryOf);
    MapFilterFacts([s], IsUsageSpike, UsageEntryOf);
    MapFilterFacts([s], IsCostOnlySpike, CostEntryOf);
    MapFilterFacts([s], IsZombie, ZombieEntryOf);
    assert sig.newServices == [] && sig.usageSpikes == [] && sig.costOnlySpikes == [] && sig.zombies == [];
    assert Classify(sig, "increasing").classification == SustainedTrend;
    assert Items([s]).services[0].cost > 0.0;
  }

  /** Away from that case the two agree. */
  lemma AsWrittenAgrees(anomaly: AnomalyInput, breakdown: BreakdownInput)
    ensures InputCheck(anomaly, breakdown).None? && anomaly.currentValue.GetOr(0.0) == 0.0
            && (exists k :: 0 <= k < |breakdown.services| && breakdown.services[k].cost > 0.0)
            ==> ClassifyAnomalyAsWritten(anomaly, breakdown).Error?
    ensures !(InputCheck(anomaly, breakdown).None? && anomaly.currentValue.GetOr(0.0) == 0.0
              && (exists k :: 0 <= k < |breakdown.services| && breakdown.services[k].cost > 0.0))
            ==> ClassifyAnomalyAsWritten(anomaly, breakdown) == ClassifyAnomaly(anomaly, breakdown)
  {
  }
}
