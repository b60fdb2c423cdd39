/**
 * ValidateAction: decides whether a proposed change to a resource may run
 * automatically, needs approval, or is blocked, from the resource's risk,
 * its protection tags and the loaded approval, automation and compliance
 * policies.
 *
 * The approval and compliance checks loop over policies and are methods
 * proved to compute their specification functions; the risk assessment,
 * protection check, automation search and status cascade are functions.
 * `Validate` is the tool's `run`.
 */
module ValidateAction {
  import opened Outcomes
  import opened Values
  import opened Text
  import opened Seqs
  import opened Policies
  import CheckCompliance

  const ValidActions: seq<string> := [
    "terminate_instance", "delete_resource", "downsize", "upsize",
    "stop_instance", "start_instance", "migrate", "modify_tags",
    "change_configuration", "create_resource"]

  const HighRiskActions: seq<string> := ["terminate_instance", "delete_resource", "migrate"]
  const MediumRiskActions: seq<string> := ["downsize", "stop_instance", "change_configuration"]

  const ProtectedTagKeys: seq<string> := ["critical", "protected", "do-not-delete", "production-critical"]

  const Director: string := "Engineering Director"

  // ------------------------------------------------------------------ risk

  datatype Risk = LowRisk | MediumRisk | HighRisk

  /** The upper-case name the tools print and compare automation levels against. */
  function RiskName(r: Risk): string
  {
    match r
    case LowRisk => "LOW"
    case MediumRisk => "MEDIUM"
    case HighRisk => "HIGH"
  }

  function RiskRank(r: Risk): nat
  {
    match r
    case LowRisk => 0
    case MediumRisk => 1
    case HighRisk => 2
  }

  /** `_assess_action_risk`. */
  function AssessRisk(action: string, cost: real): Risk
  {
    if action in HighRiskActions || cost > 1000.0 then HighRisk
    else if action in MediumRiskActions || cost > 100.0 then MediumRisk
    else LowRisk
  }

  /**
   * HIGH exactly for a destructive action or a cost impact over 1000,
   * MEDIUM exactly for a disruptive action or a cost impact over 100 that
   * is not HIGH; a larger cost impact never lowers the risk.
   */
  lemma AssessRiskFacts(action: string, cost: real, cost': real)
    ensures AssessRisk(action, cost) == HighRisk <==> action in HighRiskActions || cost > 1000.0
    ensures AssessRisk(action, cost) == MediumRisk <==>
      !(action in HighRiskActions || cost > 1000.0) && (action in MediumRiskActions || cost > 100.0)
    ensures cost <= cost' ==> RiskRank(AssessRisk(action, cost)) <= RiskRank(AssessRisk(action, cost'))
  {
  }

  // ------------------------------------------------------------ protection

  /** A tag protects its resource when its key is a protection word or its value prints as true/critical/protected. */
  predicate IsProtectionTag(key: string, value: Value)
  {
    Lower(key) in ProtectedTagKeys
    || PrintsAsLower(value, "true") || PrintsAsLower(value, "critical") || PrintsAsLower(value, "protected")
  }

  /** `_check_resource_protection`: the first protecting tag, in the dictionary's order. */
  function FindProtectionTag(tags: Dict): (r: Option<(string, Value)>)
    ensures r.None? <==> forall i :: 0 <= i < |tags| ==> !IsProtectionTag(tags[i].0, tags[i].1)
    ensures r.Some? ==> exists i :: (0 <= i < |tags| && tags[i] == r.value && IsProtectionTag(tags[i].0, tags[i].1)
      && forall j :: 0 <= j < i ==> !IsProtectionTag(tags[j].0, tags[j].1))
  {
    if tags == [] then None
    else if IsProtectionTag(tags[0].0, tags[0].1) then Some(tags[0])
    else
      var rest := FindProtectionTag(tags[1..]);
      assert forall i :: 1 <= i < |tags| ==> tags[i] == tags[1..][i - 1];
      assert rest.Some? ==> exists i :: (0 <= i < |tags| && tags[i] == rest.value && IsProtectionTag(tags[i].0, tags[i].1)
        && forall j :: 0 <= j < i ==> !IsProtectionTag(tags[j].0, tags[j].1)) by {
        if rest.Some? {
          var i :| 0 <= i < |tags[1..]| && tags[1..][i] == rest.value && IsProtectionTag(tags[1..][i].0, tags[1..][i].1)
            && forall j :: 0 <= j < i ==> !IsProtectionTag(tags[1..][j].0, tags[1..][j].1);
          assert tags[i + 1] == rest.value;
        }
      }
      rest
  }

  // -------------------------------------------------------------- approval

  /** An approval policy applies when it lists the action (or "all") and the environment (or "all"; no list means all). */
  predicate Applies(p: Policy, action: string, env: string)
  {
    var envs := p.environments.GetOr(["all"]);
    (action in p.actions || "all" in p.actions) && (env in envs || "all" in envs)
  }

  function LevelOf(p: Policy): string
  {
    p.approvalLevel.GetOr("manager")
  }

  /** The approver role of a level; unknown levels add none. */
  function ApproverFor(level: string): seq<string>
  {
    if level == "manager" then ["Team Manager"]
    else if level == "director" then [Director]
    else if level == "cfo" then ["CFO"]
    else []
  }

  /** The loop variables of `_check_approval_requirements` after scanning some policies. */
  datatype ApprovalScan = ApprovalScan(applies: bool, level: string, wait: real, approvers: seq<string>)

  function ScanApproval(policies: seq<Policy>, action: string, env: string): ApprovalScan
  {
    if policies == [] then ApprovalScan(false, "none", 0.0, [])
    else
      var s := ScanApproval(policies[..|policies| - 1], action, env);
      var p := policies[|policies| - 1];
      if Applies(p, action, env) then
        ApprovalScan(true, LevelOf(p), p.waitingPeriodHours.GetOr(0.0), s.approvers + ApproverFor(LevelOf(p)))
      else s
  }

  /** The approval part of the answer; `estimatedHours` is `None` for "immediate". */
  datatype ApprovalResult = ApprovalResult(
    requiresApproval: bool,
    approvers: seq<string>,
    approvalLevel: string,
    waitingPeriodHours: real,
    estimatedHours: Option<real>)

  /**
   * `_check_approval_requirements`: the scan, then the HIGH-risk rule that
   * adds the director. `list(set(...))` has no defined order; the model
   * keeps first occurrences.
   */
  function ApprovalRequirements(action: string, risk: Risk, env: string, policies: seq<Policy>): ApprovalResult
  {
    var s := ScanApproval(policies, action, env);
    var force := risk == HighRisk && Director !in s.approvers;
    var needed := s.applies || force;
    var raw := if force then s.approvers + [Director] else s.approvers;
    ApprovalResult(needed, Dedup(raw), if force then "director" else s.level, s.wait,
      if needed then Some(s.wait + 24.0) else None)
  }

  method CheckApprovalRequirements(action: string, risk: Risk, env: string, policies: seq<Policy>)
    returns (result: ApprovalResult)
    ensures result == ApprovalRequirements(action, risk, env, policies)
  {
    var requiresApproval := false;
    var approvers: seq<string> := [];
    var level := "none";
    var wait := 0.0;
    var i := 0;
    while i < |policies|
      invariant 0 <= i <= |policies|
      invariant ScanApproval(policies[..i], action, env) == ApprovalScan(requiresApproval, level, wait, approvers)
    {
      var policy := policies[i];
      var envs := policy.environments.GetOr(["all"]);
      if (action in policy.actions || "all" in policy.actions) && (env in envs || "all" in envs) {
        requiresApproval := true;
        level := policy.approvalLevel.GetOr("manager");
        wait := policy.waitingPeriodHours.GetOr(0.0);
        if level == "manager" {
          approvers := approvers + ["Team Manager"];
        } else if level == "director" {
          approvers := approvers + [Director];
        } else if level == "cfo" {
          approvers := approvers + ["CFO"];
        }
      }
      assert policies[..i + 1][..i] == policies[..i];
      i := i + 1;
    }
    assert policies[..i] == policies;
    if risk == HighRisk && Director !in approvers {
      requiresApproval := true;
      approvers := approvers + [Director];
      level := "director";
    }
    result := ApprovalResult(requiresApproval, Dedup(approvers), level, wait,
      if requiresApproval then Some(wait + 24.0) else None);
  }

  predicate SomeApplies(policies: seq<Policy>, action: string, env: string)
  {
    exists i :: 0 <= i < |policies| && Applies(policies[i], action, env)
  }

  /** A role is collected by the scan exactly when some applying policy's level names it. */
  predicate Collected(policies: seq<Policy>, action: string, env: string, a: string)
  {
    exists i :: 0 <= i < |policies| && Applies(policies[i], action, env) && a in ApproverFor(LevelOf(policies[i]))
  }

  /** The scan records an applying policy exactly when there is one, and is untouched otherwise. */
  lemma {:induction false} ScanAppliesFacts(policies: seq<Policy>, action: string, env: string)
    ensures var s := ScanApproval(policies, action, env);
      && (s.applies <==> SomeApplies(policies, action, env))
      && (!s.applies ==> s.level == "none" && s.wait == 0.0 && s.approvers == [])
  {
    if policies != [] {
      var init, p := policies[..|policies| - 1], policies[|policies| - 1];
      ScanAppliesFacts(init, action, env);
      if SomeApplies(policies, action, env) && !Applies(p, action, env) {
        var i :| 0 <= i < |policies| && Applies(policies[i], action, env);
        assert init[i] == policies[i];
      }
      if SomeApplies(init, action, env) {
        var i :| 0 <= i < |init| && Applies(init[i], action, env);
        assert init[i] == policies[i];
      }
    }
  }

  /** The scan collects exactly the roles of the applying policies. */
  lemma {:induction false} ScanApproversFacts(policies: seq<Policy>, action: string, env: string)
    ensures forall a :: a in ScanApproval(policies, action, env).approvers <==> Collected(policies, action, env, a)
  {
    if policies != [] {
      var init := policies[..|policies| - 1];
      ScanApproversFacts(init, action, env);
      var s := ScanApproval(policies, action, env);
      forall a
        ensures a in s.approvers <==> Collected(policies, action, env, a)
      {
        if Collected(policies, action, env, a) {
          var i :| 0 <= i < |policies| && Applies(policies[i], action, env) && a in ApproverFor(LevelOf(policies[i]));
          if i < |init| {
            assert init[i] == policies[i];
            assert Collected(init, action, env, a);
          }
        }
        if Collected(init, action, env, a) {
          var i :| 0 <= i < |init| && Applies(init[i], action, env) && a in ApproverFor(LevelOf(init[i]));
          assert init[i] == policies[i];
        }
      }
    }
  }

  /**
   * Approval is required exactly when some approval policy applies or the
   * risk is HIGH, and a HIGH-risk action always lists the Engineering
   * Director; with no approval required nothing is listed, the level is
   * "none" and the wait is immediate.
   */
  lemma ApprovalNeededFacts(action: string, risk: Risk, env: string, policies: seq<Policy>)
    ensures var r := ApprovalRequirements(action, risk, env, policies);
      && (r.requiresApproval <==> SomeApplies(policies, action, env) || risk == HighRisk)
      && (risk == HighRisk ==> Director in r.approvers)
      && (r.estimatedHours.Some? <==> r.requiresApproval)
      && (!r.requiresApproval ==> r.approvers == [] && r.approvalLevel == "none" && r.waitingPeriodHours == 0.0)
  {
    ScanAppliesFacts(policies, action, env);
    var s := ScanApproval(policies, action, env);
    if risk == HighRisk && Director !in s.approvers {
      assert (s.approvers + [Director])[|s.approvers|] == Director;
    }
  }

  /**
   * The approvers listed are distinct, each one of the three roles, and
   * they are exactly the roles of the applying policies plus, for HIGH
   * risk, the director.
   */
  lemma ApproversFacts(action: string, risk: Risk, env: string, policies: seq<Policy>)
    ensures var r := ApprovalRequirements(action, risk, env, policies);
      && Distinct(r.approvers)
      && (forall a :: a in r.approvers <==> Collected(policies, action, env, a) || (risk == HighRisk && a == Director))
      && (forall k :: 0 <= k < |r.approvers| ==> r.approvers[k] in Roles)
  {
    ScanApproversFacts(policies, action, env);
    ScanRoles(policies, action, env);
    var s := ScanApproval(policies, action, env);
    var force := risk == HighRisk && Director !in s.approvers;
    var raw := if force then s.approvers + [Director] else s.approvers;
    var r := ApprovalRequirements(action, risk, env, policies);
    assert r.approvers == Dedup(raw);
    DedupMembers(raw);
    forall a
      ensures a in r.approvers <==> Collected(policies, action, env, a) || (risk == HighRisk && a == Director)
    {
      assert a in raw <==> a in s.approvers || (force && a == Director);
    }
    forall k | 0 <= k < |r.approvers|
      ensures r.approvers[k] in Roles
    {
      assert r.approvers[k] in raw;
    }
  }

  /** The three approver roles. */
  const Roles: seq<string> := ["Team Manager", Director, "CFO"]

  lemma {:induction false} ScanRoles(policies: seq<Policy>, action: string, env: string)
    ensures forall a :: a in ScanApproval(policies, action, env).approvers ==> a in Roles
  {
    if policies != [] {
      ScanRoles(policies[..|policies| - 1], action, env);
    }
  }

  // ------------------------------------------------------------ automation

  datatype AutomationResult = AutomationResult(canAutomate: bool, requiresApproval: bool, policyMatched: Option<string>)

  /** The action is listed by its own name or by its category, the text before the first `_`. */
  predicate ActionListed(actions: seq<string>, action: string)
  {
    SplitOn(action, "_")[0] in actions || action in actions
  }

  predicate LevelMatches(entry: (string, AutomationConfig), action: string, risk: Risk)
  {
    Upper(entry.0) == RiskName(risk) && ActionListed(entry.1.actions, action)
  }

  /** A bare action list never asks for approval; a table asks when it says so. */
  predicate ConfigNeedsApproval(c: AutomationConfig)
  {
    c.ActionTable? && c.approvalRequired
  }

  /** The position of the first matching risk level of one policy, `|levels|` when none matches. */
  function FirstLevelIndex(levels: seq<(string, AutomationConfig)>, action: string, risk: Risk): (j: nat)
    ensures j <= |levels|
    ensures j < |levels| ==> LevelMatches(levels[j], action, risk)
    ensures forall k :: 0 <= k < j ==> !LevelMatches(levels[k], action, risk)
  {
    if levels == [] then 0
    else if LevelMatches(levels[0], action, risk) then 0
    else
      var j := FirstLevelIndex(levels[1..], action, risk);
      assert forall k :: 1 <= k < j + 1 ==> levels[k] == levels[1..][k - 1];
      j + 1
  }

  /** The first risk level of one policy that matches. */
  function FirstLevelMatch(levels: seq<(string, AutomationConfig)>, action: string, risk: Risk): (r: Option<AutomationConfig>)
    ensures r.None? <==> forall j :: 0 <= j < |levels| ==> !LevelMatches(levels[j], action, risk)
    ensures r.Some? ==> exists j :: (0 <= j < |levels| && levels[j].1 == r.value && LevelMatches(levels[j], action, risk)
      && forall k :: 0 <= k < j ==> !LevelMatches(levels[k], action, risk))
  {
    var j := FirstLevelIndex(levels, action, risk);
    if j < |levels| then Some(levels[j].1) else None
  }

  predicate AnyLevelMatches(policies: seq<Policy>, action: string, risk: Risk)
  {
    exists i, j :: 0 <= i < |policies| && 0 <= j < |policies[i].riskLevels| && LevelMatches(policies[i].riskLevels[j], action, risk)
  }

  /** Some matching risk level lets the action run without approval. */
  predicate SomeMatchAutomates(policies: seq<Policy>, action: string, risk: Risk)
  {
    exists i, j :: 0 <= i < |policies| && 0 <= j < |policies[i].riskLevels|
      && LevelMatches(policies[i].riskLevels[j], action, risk) && !ConfigNeedsApproval(policies[i].riskLevels[j].1)
  }

  /**
   * `_check_automation_policies`: the first policy with a matching risk
   * level decides; with no match the action cannot be automated.
   */
  function AutomationCheck(policies: seq<Policy>, action: string, risk: Risk): (r: AutomationResult)
    ensures r.canAutomate == !r.requiresApproval
    ensures r.policyMatched.None? <==> !AnyLevelMatches(policies, action, risk)
    ensures r.policyMatched.None? ==> !r.canAutomate
    ensures r.canAutomate ==> SomeMatchAutomates(policies, action, risk)
  {
    if policies == [] then AutomationResult(false, true, None)
    else
      var p := policies[0];
      var rest := AutomationCheck(policies[1..], action, risk);
      assert forall i :: 1 <= i < |policies| ==> policies[i] == policies[1..][i - 1];
      match FirstLevelMatch(p.riskLevels, action, risk)
      case Some(c) =>
        var j :| 0 <= j < |p.riskLevels| && p.riskLevels[j].1 == c && LevelMatches(p.riskLevels[j], action, risk);
        assert policies[0] == p;
        AutomationResult(!ConfigNeedsApproval(c), ConfigNeedsApproval(c), Some(p.name.GetOr("automation_policy")))
      case None =>
        assert AnyLevelMatches(policies[1..], action, risk) ==> AnyLevelMatches(policies, action, risk) by {
          if AnyLevelMatches(policies[1..], action, risk) {
            var i, j :| 0 <= i < |policies[1..]| && 0 <= j < |policies[1..][i].riskLevels|
              && LevelMatches(policies[1..][i].riskLevels[j], action, risk);
            assert policies[i + 1] == policies[1..][i];
          }
        }
        assert AnyLevelMatches(policies, action, risk) ==> AnyLevelMatches(policies[1..], action, risk) by {
          if AnyLevelMatches(policies, action, risk) {
            var i, j :| 0 <= i < |policies| && 0 <= j < |policies[i].riskLevels| && LevelMatches(policies[i].riskLevels[j], action, risk);
            assert i != 0;
            assert policies[1..][i - 1] == policies[i];
          }
        }
        assert rest.canAutomate ==> SomeMatchAutomates(policies, action, risk) by {
          if rest.canAutomate {
            var i, j :| 0 <= i < |policies[1..]| && 0 <= j < |policies[1..][i].riskLevels|
              && LevelMatches(policies[1..][i].riskLevels[j], action, risk) && !ConfigNeedsApproval(policies[1..][i].riskLevels[j].1);
            assert policies[i + 1] == policies[1..][i];
          }
        }
        rest
  }

  /** The position of the first policy with a matching risk level, `|policies|` when none has one. */
  function FirstPolicyIndex(policies: seq<Policy>, action: string, risk: Risk): (i: nat)
    ensures i <= |policies|
    ensures i < |policies| ==> FirstLevelMatch(policies[i].riskLevels, action, risk).Some?
    ensures forall k :: 0 <= k < i ==> FirstLevelMatch(policies[k].riskLevels, action, risk).None?
  {
    if policies == [] then 0
    else if FirstLevelMatch(policies[0].riskLevels, action, risk).Some? then 0
    else
      var i := FirstPolicyIndex(policies[1..], action, risk);
      assert forall k :: 1 <= k < i + 1 ==> policies[k] == policies[1..][k - 1];
      i + 1
  }

  /** One step of the loop over the policies. */
  lemma AutomationCheckHead(policies: seq<Policy>, action: string, risk: Risk)
    requires policies != []
    ensures var m := FirstLevelMatch(policies[0].riskLevels, action, risk);
      AutomationCheck(policies, action, risk) ==
        if m.Some? then AutomationResult(!ConfigNeedsApproval(m.value), ConfigNeedsApproval(m.value), Some(policies[0].name.GetOr("automation_policy")))
        else AutomationCheck(policies[1..], action, risk)
  {
  }

  /** One step of the search for the first policy with a matching level. */
  lemma FirstPolicyIndexHead(policies: seq<Policy>, action: string, risk: Risk)
    requires policies != []
    ensures FirstPolicyIndex(policies, action, risk) ==
      if FirstLevelMatch(policies[0].riskLevels, action, risk).Some? then 0
      else FirstPolicyIndex(policies[1..], action, risk) + 1
  {
  }

  /**
   * The first policy that has a matching risk level decides: it is named as
   * the matched policy, and its first matching level says whether approval
   * is needed. Policies before it have no matching level.
   */
  lemma {:induction false} AutomationFirstMatch(policies: seq<Policy>, action: string, risk: Risk)
    ensures var r, i := AutomationCheck(policies, action, risk), FirstPolicyIndex(policies, action, risk);
      && (r.policyMatched.Some? <==> i < |policies|)
      && (i < |policies| ==>
            && r.policyMatched == Some(policies[i].name.GetOr("automation_policy"))
            && r.canAutomate == !ConfigNeedsApproval(FirstLevelMatch(policies[i].riskLevels, action, risk).value))
  {
    if policies != [] {
      var rest := policies[1..];
      AutomationCheckHead(policies, action, risk);
      FirstPolicyIndexHead(policies, action, risk);
      if FirstLevelMatch(policies[0].riskLevels, action, risk).None? {
        AutomationFirstMatch(rest, action, risk);
        var i := FirstPolicyIndex(rest, action, risk);
        if i < |rest| {
          assert policies[i + 1] == rest[i];
        }
      }
    }
  }

  // ------------------------------------------------------------ compliance

  predicate IsTagRulePolicy(p: Policy)
  {
    p.rule == Some("all_resources_must_have_tags")
  }

  /** The tags one policy requires that are missing or empty, in order. */
  function MissingTags(tags: Dict, required: seq<string>): seq<string>
  {
    if required == [] then []
    else
      var t := required[|required| - 1];
      MissingTags(tags, required[..|required| - 1]) + (if CheckCompliance.TagSatisfied(tags, t) then [] else [t])
  }

  /** The tags `_check_compliance` reports, over every tag-rule policy in order. */
  function ComplianceViolations(tags: Dict, policies: seq<Policy>): seq<string>
  {
    if policies == [] then []
    else
      var p := policies[|policies| - 1];
      ComplianceViolations(tags, policies[..|policies| - 1]) + (if IsTagRulePolicy(p) then MissingTags(tags, p.requiredTags) else [])
  }

  /** Every tag required by a tag-rule policy is present and non-empty. */
  predicate MeetsTagRules(tags: Dict, policies: seq<Policy>)
  {
    forall i, k :: 0 <= i < |policies| && IsTagRulePolicy(policies[i]) && 0 <= k < |policies[i].requiredTags| ==>
      CheckCompliance.TagSatisfied(tags, policies[i].requiredTags[k])
  }

  /** The inner loop of `_check_compliance`: one policy's required tags. */
  method CheckRequiredTags(tags: Dict, required: seq<string>) returns (missing: seq<string>)
    ensures missing == MissingTags(tags, required)
  {
    missing := [];
    var j := 0;
    while j < |required|
      invariant 0 <= j <= |required|
      invariant missing == MissingTags(tags, required[..j])
    {
      var tag := required[j];
      var found := Lookup(tags, tag);
      if found.None? || !Truthy(found.value) {
        missing := missing + [tag];
      }
      assert required[..j + 1][..j] == required[..j];
      j := j + 1;
    }
    assert required[..j] == required;
  }

  /** `_check_compliance`: the missing tags of every tag-rule policy. */
  method CheckPolicyCompliance(tags: Dict, policies: seq<Policy>) returns (missing: seq<string>)
    ensures missing == ComplianceViolations(tags, policies)
  {
    missing := [];
    var i := 0;
    while i < |policies|
      invariant 0 <= i <= |policies|
      invariant missing == ComplianceViolations(tags, policies[..i])
    {
      var policy := policies[i];
      if policy.rule == Some("all_resources_must_have_tags") {
        var found := CheckRequiredTags(tags, policy.requiredTags);
        missing := missing + found;
      }
      assert policies[..i + 1][..i] == policies[..i];
      i := i + 1;
    }
    assert policies[..i] == policies;
  }

  lemma {:induction false} MissingTagsFacts(tags: Dict, required: seq<string>)
    ensures forall t :: t in MissingTags(tags, required) <==> t in required && !CheckCompliance.TagSatisfied(tags, t)
  {
    if required != [] {
      MissingTagsFacts(tags, required[..|required| - 1]);
      assert required == required[..|required| - 1] + [required[|required| - 1]];
    }
  }

  /** A tag is reported exactly when some tag-rule policy requires it and it is missing or empty. */
  lemma {:induction false} ComplianceViolationsFacts(tags: Dict, policies: seq<Policy>)
    ensures forall t :: t in ComplianceViolations(tags, policies) <==>
      !CheckCompliance.TagSatisfied(tags, t)
      && exists i :: 0 <= i < |policies| && IsTagRulePolicy(policies[i]) && t in policies[i].requiredTags
  {
    if policies != [] {
      var init, p := policies[..|policies| - 1], policies[|policies| - 1];
      ComplianceViolationsFacts(tags, init);
      MissingTagsFacts(tags, p.requiredTags);
      assert forall i :: 0 <= i < |init| ==> init[i] == policies[i];
      forall t | !CheckCompliance.TagSatisfied(tags, t)
        && exists i :: 0 <= i < |policies| && IsTagRulePolicy(policies[i]) && t in policies[i].requiredTags
        ensures t in ComplianceViolations(tags, policies)
      {
        var i :| 0 <= i < |policies| && IsTagRulePolicy(policies[i]) && t in policies[i].requiredTags;
        if i < |init| {
          assert init[i] == policies[i];
        }
      }
    }
  }

  // ---------------------------------------------------------------- verdict

  datatype ApprovalStatus = AutoApproved | RequiresApproval | Blocked

  /** The approval-status cascade of `run` for a resource without protection tags. */
  function DecideStatus(canAutomate: bool, requiresApproval: bool, compliant: bool): ApprovalStatus
  {
    if canAutomate && !requiresApproval then AutoApproved
    else if requiresApproval then RequiresApproval
    else if compliant then AutoApproved
    else Blocked
  }

  /** Approval is needed exactly when the approval check says so; blocking needs a non-compliant resource that cannot be automated. */
  lemma DecideStatusFacts(canAutomate: bool, requiresApproval: bool, compliant: bool)
    ensures DecideStatus(canAutomate, requiresApproval, compliant) == RequiresApproval <==> requiresApproval
    ensures DecideStatus(canAutomate, requiresApproval, compliant) == Blocked <==> !requiresApproval && !canAutomate && !compliant
    ensures DecideStatus(canAutomate, requiresApproval, compliant) == AutoApproved <==> !requiresApproval && (canAutomate || compliant)
  {
  }

  /** A reported violation: a protecting tag, or a required tag that is missing or empty. */
  datatype Note = ProtectedTag(key: string, value: Value) | MissingRequiredTag(tag: string)

  datatype Step =
    | ProceedImmediately
    | ExecuteWithTool
    | LogInAuditTrail
    | SubmitApprovalTo(approvers: seq<string>)
    | WaitForWindow(hours: real)
    | RevalidateAndExecute
    | ResolveViolation(v: Note)
    | RevalidateAfterResolving
    | RemoveProtectionOrOverride

  function ResolveAll(vs: seq<Note>): (r: seq<Step>)
    ensures |r| == |vs| && forall k :: 0 <= k < |vs| ==> r[k] == ResolveViolation(vs[k])
  {
    seq(|vs|, k requires 0 <= k < |vs| => ResolveViolation(vs[k]))
  }

  /** `_generate_next_steps`. */
  function NextSteps(status: ApprovalStatus, approval: ApprovalResult, violations: seq<Note>): seq<Step>
  {
    match status
    case AutoApproved => [ProceedImmediately, ExecuteWithTool, LogInAuditTrail]
    case RequiresApproval => [SubmitApprovalTo(approval.approvers), WaitForWindow(approval.waitingPeriodHours), RevalidateAndExecute]
    case Blocked => ResolveAll(violations) + [RevalidateAfterResolving]
  }

  /** The parsed `target_resource`; keys the tool defaults are `None` when absent. */
  datatype Target = Target(
    resourceId: Option<string>,
    resourceType: Option<string>,
    tags: Option<Dict>,
    costImpact: Option<real>,
    environment: Option<string>)

  /** What only the full (unprotected) answer carries. */
  datatype Details = Details(
    resourceId: string,
    resourceType: string,
    environment: string,
    costImpact: real,
    approval: ApprovalResult,
    automation: AutomationResult,
    missingTags: seq<string>)

  datatype Validation = Validation(
    isValid: bool,
    status: ApprovalStatus,
    risk: Risk,
    violations: seq<Note>,
    nextSteps: seq<Step>,
    details: Option<Details>)

  function AsNotes(missing: seq<string>): (r: seq<Note>)
    ensures |r| == |missing| && forall k :: 0 <= k < |missing| ==> r[k] == MissingRequiredTag(missing[k])
  {
    seq(|missing|, k requires 0 <= k < |missing| => MissingRequiredTag(missing[k]))
  }

  /** The tool's `run`. */
  const UnknownActionPrefix := "Unknown action_type '"
  const MissingResourceId := "Missing required field 'resource_id' in target_resource"
  const MissingResourceType := "Missing required field 'resource_type' in target_resource"
  const MissingPolicies := "policies parameter must contain 'policies' object from LoadBudgetPolicies output."

  function Validate(actionType: string, target: Target, policies: Option<PolicyGroups>): Outcome<Validation>
  {
    if actionType !in ValidActions then Warning(UnknownActionPrefix + actionType + "'")
    else if target.resourceId.None? then Error(MissingResourceId)
    else if target.resourceType.None? then Error(MissingResourceType)
    else if policies.None? then Error(MissingPolicies)
    else
      Ok(Evaluate(actionType, target.resourceId.value, target.resourceType.value,
        target.tags.GetOr([]), target.costImpact.GetOr(0.0), target.environment.GetOr("unknown"), policies.value))
  }

  /** The body of `run` once the input is validated: risk, protection, the three policy checks and the verdict. */
  function Evaluate(actionType: string, resourceId: string, resourceType: string,
                    tags: Dict, cost: real, env: string, groups: PolicyGroups): Validation
  {
    var risk := AssessRisk(actionType, cost);
    match FindProtectionTag(tags)
    case Some(t) =>
      Validation(false, Blocked, HighRisk, [ProtectedTag(t.0, t.1)], [RemoveProtectionOrOverride], None)
    case None =>
      var approval := ApprovalRequirements(actionType, risk, env, Group(groups, "approval"));
      var automation := AutomationCheck(Group(groups, "automation"), actionType, risk);
      var missing := ComplianceViolations(tags, Group(groups, "compliance"));
      var compliant := missing == [];
      var status := DecideStatus(automation.canAutomate, approval.requiresApproval, compliant);
      var violations := AsNotes(missing);
      Validation(compliant, status, risk, violations, NextSteps(status, approval, violations),
        Some(Details(resourceId, resourceType, env, cost, approval, automation, missing)))
  }

  /** The tool answers with a validation exactly when the action type is known, both identifying fields are given and policies were passed. */
  lemma ValidateAnswers(actionType: string, target: Target, policies: Option<PolicyGroups>)
    ensures Validate(actionType, target, policies).Ok? <==>
      actionType in ValidActions && target.resourceId.Some? && target.resourceType.Some? && policies.Some?
    ensures Validate(actionType, target, policies).Warning? <==> actionType !in ValidActions
  {
  }

  /** A protecting tag blocks the action outright, whatever the policies say, and nothing else is reported. */
  lemma ProtectedResourceBlocked(actionType: string, resourceId: string, resourceType: string,
                                 tags: Dict, cost: real, env: string, groups: PolicyGroups)
    requires exists i :: 0 <= i < |tags| && IsProtectionTag(tags[i].0, tags[i].1)
    ensures var v := Evaluate(actionType, resourceId, resourceType, tags, cost, env, groups);
      && !v.isValid && v.status == Blocked && v.risk == HighRisk
      && |v.violations| == 1 && v.violations[0].ProtectedTag?
      && IsProtectionTag(v.violations[0].key, v.violations[0].value)
      && (v.violations[0].key, v.violations[0].value) in tags
      && v.nextSteps == [RemoveProtectionOrOverride]
  {
  }

  /**
   * Without a protecting tag: the action is valid exactly when the resource
   * meets every tag rule, the violations are exactly its missing tags, a
   * block implies an invalid action, and HIGH risk always routes to approval
   * by the Engineering Director.
   */
  lemma UnprotectedValidation(actionType: string, resourceId: string, resourceType: string,
                              tags: Dict, cost: real, env: string, groups: PolicyGroups)
    requires forall i :: 0 <= i < |tags| ==> !IsProtectionTag(tags[i].0, tags[i].1)
    ensures var v := Evaluate(actionType, resourceId, resourceType, tags, cost, env, groups);
      && v.details.Some?
      && (v.isValid <==> v.violations == [])
      && (v.isValid <==> MeetsTagRules(tags, Group(groups, "compliance")))
      && (v.status == Blocked ==> !v.isValid)
      && (v.status == RequiresApproval <==> v.details.value.approval.requiresApproval)
      && (v.risk == HighRisk ==> v.status == RequiresApproval && Director in v.details.value.approval.approvers)
  {
    var risk := AssessRisk(actionType, cost);
    var rules := Group(groups, "compliance");
    var approval := ApprovalRequirements(actionType, risk, env, Group(groups, "approval"));
    var automation := AutomationCheck(Group(groups, "automation"), actionType, risk);
    var missing := ComplianceViolations(tags, rules);
    ApprovalNeededFacts(actionType, risk, env, Group(groups, "approval"));
    DecideStatusFacts(automation.canAutomate, approval.requiresApproval, missing == []);
    ComplianceViolationsFacts(tags, rules);
    if missing != [] {
      var t := missing[0];
      assert t in missing;
      var i :| 0 <= i < |rules| && IsTagRulePolicy(rules[i]) && t in rules[i].requiredTags;
      var k :| 0 <= k < |rules[i].requiredTags| && rules[i].requiredTags[k] == t;
    } else {
      forall i, k | 0 <= i < |rules| && IsTagRulePolicy(rules[i]) && 0 <= k < |rules[i].requiredTags|
        ensures CheckCompliance.TagSatisfied(tags, rules[i].requiredTags[k])
      {
        var t := rules[i].requiredTags[k];
        assert t !in missing;
      }
    }
  }

  /** Next steps: three for an automatic or approval answer; for a block, one per violation in order and a final re-validation. */
  lemma NextStepsFacts(status: ApprovalStatus, approval: ApprovalResult, violations: seq<Note>)
    ensures var r := NextSteps(status, approval, violations);
      && (status != Blocked ==> |r| == 3)
      && (status == RequiresApproval ==> r[0] == SubmitApprovalTo(approval.approvers))
      && (status == Blocked ==> (|r| == |violations| + 1 && r[|violations|] == RevalidateAfterResolving
          && forall k :: 0 <= k < |violations| ==> r[k] == ResolveViolation(violations[k])))
  {
  }

  /**
   * For an unprotected resource, an action a matching automation level
   * allows and no approval policy catches is "auto_approved" whatever tags
   * are missing; the violations are still reported.
   */
  lemma AutomatedDespiteViolations(actionType: string, resourceId: string, resourceType: string,
                                   tags: Dict, cost: real, env: string, groups: PolicyGroups)
    requires forall i :: 0 <= i < |tags| ==> !IsProtectionTag(tags[i].0, tags[i].1)
    requires AutomationCheck(Group(groups, "automation"), actionType, AssessRisk(actionType, cost)).canAutomate
    requires !ApprovalRequirements(actionType, AssessRisk(actionType, cost), env, Group(groups, "approval")).requiresApproval
    ensures var v := Evaluate(actionType, resourceId, resourceType, tags, cost, env, groups);
      var missing := ComplianceViolations(tags, Group(groups, "compliance"));
      && v.status == AutoApproved
      && v.violations == AsNotes(missing)
      && (v.isValid <==> missing == [])
  {
  }

  /**
   * The status cascade looks at automation before compliance: an action a
   * matching automation level allows is "auto_approved" even for a resource
   * that misses a required tag, while `is_valid` is false.
   */
  lemma AutoApprovedWhileInvalid()
    ensures var v := Evaluate("modify_tags", "i-1", "EC2", [], 0.0, "unknown", UntaggedExample());
      v.status == AutoApproved && !v.isValid && v.violations == [MissingRequiredTag("owner")]
  {
    ExampleLowRiskUnapproved();
    ExampleAutomates();
    AutomatedDespiteViolations("modify_tags", "i-1", "EC2", [], 0.0, "unknown", UntaggedExample());
    ExampleMissesOwner();
  }

  /** Tag edits of no cost are LOW risk, and the example has no approval policy to catch them. */
  lemma ExampleLowRiskUnapproved()
    ensures AssessRisk("modify_tags", 0.0) == LowRisk
    ensures !ApprovalRequirements("modify_tags", LowRisk, "unknown", Group(UntaggedExample(), "approval")).requiresApproval
  {
    assert Group(UntaggedExample(), "approval") == [];
  }

  /** The category of "modify_tags" is "modify". */
  lemma ModifyCategory()
    ensures SplitOn("modify_tags", "_")[0] == "modify"
  {
    assert FindSub("modify_tags", "_") == Some(6) by {
      assert OccursAt("modify_tags", "_", 6);
      forall j | 0 <= j < 6 ensures !OccursAt("modify_tags", "_", j) {
        assert "modify_tags"[j] != '_';
      }
    }
  }

  lemma ExampleAutomates()
    ensures AutomationCheck(Group(UntaggedExample(), "automation"), "modify_tags", LowRisk).canAutomate
  {
    var levels := [("low", ActionList(["modify"]))];
    assert Upper("low") == "LOW";
    ModifyCategory();
    assert LevelMatches(levels[0], "modify_tags", LowRisk);
    assert FirstLevelIndex(levels, "modify_tags", LowRisk) == 0;
    assert FirstLevelMatch(levels, "modify_tags", LowRisk) == Some(ActionList(["modify"]));
    var p := Policy(None, None, None, [], None, [], None, [], None, None, levels);
    assert Group(UntaggedExample(), "automation") == [p];
    assert AutomationCheck([p], "modify_tags", LowRisk) == AutomationResult(true, false, Some("automation_policy"));
  }

  lemma ExampleMissesOwner()
    ensures ComplianceViolations([], Group(UntaggedExample(), "compliance")) == ["owner"]
    ensures AsNotes(["owner"]) == [MissingRequiredTag("owner")]
  {
    var p := Policy(None, None, Some("all_resources_must_have_tags"), ["owner"], None, [], None, [], None, None, []);
    assert Group(UntaggedExample(), "compliance") == [p];
    assert [p][..0] == [];
    assert IsTagRulePolicy(p);
    assert !CheckCompliance.TagSatisfied([], "owner");
    assert MissingTags([], ["owner"]) == ["owner"];
    assert ComplianceViolations([], [p]) == ComplianceViolations([], []) + MissingTags([], ["owner"]);
  }

  /** Policies with one automation level that allows `modify_*` at LOW risk and one rule requiring an `owner` tag. */
  function UntaggedExample(): PolicyGroups
  {
    map[
      "approval" := [],
      "automation" := [Policy(None, None, None, [], None, [], None, [], None, None, [("low", ActionList(["modify"]))])],
      "compliance" := [Policy(None, None, Some("all_resources_must_have_tags"), ["owner"], None, [], None, [], None, None, [])]]
  }
}
