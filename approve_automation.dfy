/**
 * ApproveAutomation: decides whether a validated action is approved
 * automatically or routed to people, and to whom.
 *
 * Eligibility is a cascade of rules, the first failing rule giving the
 * reason; an eligible action is approved when its cost impact is within
 * the threshold. Everything else becomes a manual request whose approvers
 * depend on risk, cost and environment.
 */
module ApproveAutomation {
  import opened Outcomes
  import opened Seqs

  datatype RiskLevel = Low | Medium | High | Critical

  /** The `risk_level` argument, which must be one of the four upper-case names. */
  function ParseRisk(s: string): (r: Option<RiskLevel>)
    ensures r.Some? <==> s in ["LOW", "MEDIUM", "HIGH", "CRITICAL"]
  {
    if s == "LOW" then Some(Low)
    else if s == "MEDIUM" then Some(Medium)
    else if s == "HIGH" then Some(High)
    else if s == "CRITICAL" then Some(Critical)
    else None
  }

  const DestructiveActions: seq<string> := ["terminate_instance", "delete_resource", "delete_volume"]
  const PreApprovedActions: seq<string> := ["modify_tags", "stop_instance", "add_monitoring"]

  predicate IsProduction(env: string)
  {
    env in ["production", "prod"]
  }

  /** The outcome of `_check_auto_approve_eligibility`: the rule that decided, with what it reports. */
  datatype Eligibility =
    | NotLowRisk(risk: RiskLevel)
    | ProductionChange
    | DestructiveAction(actionType: string)
    | LowComplianceScore(score: real)
    | PreApprovedAction(actionType: string)
    | LowRiskWithinThreshold(cost: real)

  predicate Eligible(e: Eligibility)
  {
    e.PreApprovedAction? || e.LowRiskWithinThreshold?
  }

  function CheckEligibility(risk: RiskLevel, cost: real, actionType: string, env: string, complianceScore: real): Eligibility
  {
    if risk != Low then NotLowRisk(risk)
    else if IsProduction(env) then ProductionChange
    else if actionType in DestructiveActions then DestructiveAction(actionType)
    else if complianceScore < 90.0 then LowComplianceScore(complianceScore)
    else if actionType in PreApprovedActions && cost == 0.0 then PreApprovedAction(actionType)
    else LowRiskWithinThreshold(cost)
  }

  /** Eligible exactly for a LOW-risk, non-production, non-destructive action with a compliance score of at least 90. */
  lemma EligibilityFacts(risk: RiskLevel, cost: real, actionType: string, env: string, complianceScore: real)
    ensures Eligible(CheckEligibility(risk, cost, actionType, env, complianceScore)) <==>
      risk == Low && !IsProduction(env) && actionType !in DestructiveActions && complianceScore >= 90.0
  {
  }

  /** The approval windows the tool quotes. */
  datatype Window = Immediate | Hours4To8 | Hours12To24 | Hours24To48 | Hours48To72

  /**
   * `_create_manual_approval_request`'s routing by risk and cost, as
   * written: the cost test of the third branch also catches a CRITICAL
   * action of 1000 or more, which then skips the CFO.
   */
  function RouteAsWritten(risk: RiskLevel, cost: real): (seq<string>, Window)
  {
    if risk == Low && cost < 500.0 then (["team_lead"], Hours4To8)
    else if risk == Medium || (risk == Low && cost >= 500.0) then (["engineering_manager"], Hours12To24)
    else if risk == High || cost >= 1000.0 then (["engineering_director"], Hours24To48)
    else (["engineering_director", "cfo"], Hours48To72)
  }

  /** A CRITICAL action costing 1000 a month is routed to the director alone, while one costing 999 also needs the CFO. */
  lemma CostlyCriticalSkipsCfo()
    ensures RouteAsWritten(Critical, 1000.0) == (["engineering_director"], Hours24To48)
    ensures "cfo" in RouteAsWritten(Critical, 999.0).0
  {
    assert RouteAsWritten(Critical, 999.0).0 == ["engineering_director", "cfo"];
  }

  /** The routing with every CRITICAL action sent to the director and the CFO, as the last branch of the cascade intends. */
  function Route(risk: RiskLevel, cost: real): (seq<string>, Window)
  {
    if risk == Low && cost < 500.0 then (["team_lead"], Hours4To8)
    else if risk == Medium || (risk == Low && cost >= 500.0) then (["engineering_manager"], Hours12To24)
    else if risk == High then (["engineering_director"], Hours24To48)
    else (["engineering_director", "cfo"], Hours48To72)
  }

  /** Routing differs from the code only for a CRITICAL action of 1000 or more; there it keeps the CFO. */
  lemma RouteFacts(risk: RiskLevel, cost: real)
    ensures risk == Critical ==> Route(risk, cost) == (["engineering_director", "cfo"], Hours48To72)
    ensures risk == High ==> Route(risk, cost).0 == ["engineering_director"]
    ensures risk == Low ==> Route(risk, cost).0 == (if cost < 500.0 then ["team_lead"] else ["engineering_manager"])
    ensures !(risk == Critical && cost >= 1000.0) ==> Route(risk, cost) == RouteAsWritten(risk, cost)
  {
  }

  /** The corrected routing plus the extra director for production changes. */
  function ManualApprovers(risk: RiskLevel, cost: real, env: string): seq<string>
  {
    var base := Route(risk, cost).0;
    if IsProduction(env) && "engineering_director" !in base then base + ["engineering_director"] else base
  }

  /**
   * Under the corrected routing, a manual request always names someone,
   * names nobody twice, names the director for HIGH or CRITICAL risk and for
   * production, and the CFO for every CRITICAL action. The code as written
   * leaves the CFO out for a CRITICAL action of 1000 or more (see
   * `CostlyCriticalSkipsCfo`).
   */
  lemma ManualApproversFacts(risk: RiskLevel, cost: real, env: string)
    ensures var a := ManualApprovers(risk, cost, env);
      && a != [] && Distinct(a)
      && (risk == High || risk == Critical || IsProduction(env) ==> "engineering_director" in a)
      && (risk == Critical ==> "cfo" in a)
      && (!IsProduction(env) ==> a == Route(risk, cost).0)
  {
    var a := ManualApprovers(risk, cost, env);
    if IsProduction(env) && "engineering_director" !in Route(risk, cost).0 {
      assert a[|a| - 1] == "engineering_director";
    }
  }

  datatype Method = Auto | ManualRequired

  datatype Step =
    | ExecuteNow
    | LogInAuditTrail
    | MonitorExecution
    | SubmitRequestTo(approvers: seq<string>)
    | IncludeDetails(actionType: string, resourceId: string)
    | QuoteWindow(window: Window)
    | MonitorTicket
    | RerunAfterApproval

  datatype Decision = Decision(
    approved: bool,
    via: Method,
    autoReason: Option<Eligibility>,
    approversRequired: seq<string>,
    approversReceived: seq<string>,
    pending: bool,
    estimated: Window,
    nextSteps: seq<Step>)

  function AutoApproval(reason: Eligibility): Decision
  {
    Decision(true, Auto, Some(reason), [], ["system_auto_approval"], false, Immediate,
      [ExecuteNow, LogInAuditTrail, MonitorExecution])
  }

  function ManualRequest(actionType: string, resourceId: string, risk: RiskLevel, cost: real, env: string): Decision
  {
    var approvers := ManualApprovers(risk, cost, env);
    var window := Route(risk, cost).1;
    Decision(false, ManualRequired, None, approvers, [], true, window,
      [SubmitRequestTo(approvers), IncludeDetails(actionType, resourceId), QuoteWindow(window), MonitorTicket, RerunAfterApproval])
  }

  /** The parsed `action` argument; `cost_impact` may be missing or not a number. */
  datatype ActionInput = ActionInput(
    actionType: Option<string>,
    resourceId: Option<string>,
    costImpact: Field<real>,
    environment: Option<string>,
    complianceScore: Option<real>)

  const BadRiskPrefix := "Invalid risk_level '"
  const NegativeThreshold := "auto_approve_threshold cannot be negative"
  const MissingActionType := "Missing required field 'action_type' in action parameter"
  const MissingResourceId := "Missing required field 'resource_id' in action parameter"
  const MissingCostImpact := "Missing required field 'cost_impact' in action parameter"
  const InvalidCostImpact := "Invalid cost_impact value. Must be numeric."

  /** The tool's `run`. */
  function Approve(action: ActionInput, riskLevel: string, threshold: real): Outcome<Decision>
  {
    match ParseRisk(riskLevel)
    case None => Error(BadRiskPrefix + riskLevel + "'")
    case Some(risk) =>
      if threshold < 0.0 then Error(NegativeThreshold)
      else if action.actionType.None? then Error(MissingActionType)
      else if action.resourceId.None? then Error(MissingResourceId)
      else if action.costImpact.Absent? then Error(MissingCostImpact)
      else if action.costImpact.Invalid? then Error(InvalidCostImpact)
      else
        var cost := action.costImpact.value;
        var env := action.environment.GetOr("unknown");
        var e := CheckEligibility(risk, cost, action.actionType.value, env, action.complianceScore.GetOr(100.0));
        if Eligible(e) && cost <= threshold then Ok(AutoApproval(e))
        else Ok(ManualRequest(action.actionType.value, action.resourceId.value, risk, cost, env))
  }

  /** The tool decides exactly when the risk level is one of the four names, the threshold is not negative and the three fields are given and numeric. */
  lemma ApproveAnswers(action: ActionInput, riskLevel: string, threshold: real)
    ensures Approve(action, riskLevel, threshold).Ok? <==>
      riskLevel in ["LOW", "MEDIUM", "HIGH", "CRITICAL"] && threshold >= 0.0
      && action.actionType.Some? && action.resourceId.Some? && action.costImpact.Present?
  {
  }

  /**
   * An action is approved exactly when it is LOW risk, outside production,
   * not destructive, scored at least 90 and within the threshold; an
   * approved action is approved by the system immediately, and a refused
   * one waits for a non-empty list of people with five steps to follow.
   */
  lemma ApproveDecisionFacts(action: ActionInput, riskLevel: string, threshold: real)
    requires Approve(action, riskLevel, threshold).Ok?
    ensures var d := Approve(action, riskLevel, threshold).value;
      var env := action.environment.GetOr("unknown");
      && (d.approved <==>
           riskLevel == "LOW" && !IsProduction(env) && action.actionType.value !in DestructiveActions
           && action.complianceScore.GetOr(100.0) >= 90.0 && action.costImpact.value <= threshold)
      && (d.approved <==> d.via == Auto)
      && (d.approved ==> d.approversReceived == ["system_auto_approval"] && !d.pending
                         && d.estimated == Immediate && |d.nextSteps| == 3)
      && (!d.approved ==> d.approversRequired != [] && d.approversReceived == [] && d.pending
                          && |d.nextSteps| == 5 && d.nextSteps[0] == SubmitRequestTo(d.approversRequired))
      && (!d.approved && IsProduction(env) ==> "engineering_director" in d.approversRequired)
  {
    var risk := ParseRisk(riskLevel).value;
    var cost := action.costImpact.value;
    var env := action.environment.GetOr("unknown");
    EligibilityFacts(risk, cost, action.actionType.value, env, action.complianceScore.GetOr(100.0));
    ManualApproversFacts(risk, cost, env);
  }

  /** Raising the threshold never turns an approval into a manual request. */
  lemma ThresholdMonotone(action: ActionInput, riskLevel: string, threshold: real, threshold': real)
    requires Approve(action, riskLevel, threshold).Ok? && Approve(action, riskLevel, threshold).value.approved
    requires threshold <= threshold'
    ensures Approve(action, riskLevel, threshold').Ok? && Approve(action, riskLevel, threshold').value.approved
  {
  }
}
