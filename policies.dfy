/**
 * The policy documents the policy engine passes between its tools: a
 * policy record as found in a policy file, and the `policies` object
 * LoadBudgetPolicies outputs (category name to list of policies), which
 * CheckCompliance and ValidateAction read.
 */
module Policies {
  import opened Outcomes

  /** One level of an automation policy's `risk_levels`: a bare action list, or a table with `actions` and `approval_required`. */
  datatype AutomationConfig =
    | ActionList(actions: seq<string>)
    | ActionTable(actions: seq<string>, approvalRequired: bool)

  /**
   * A policy entry. Optional keys the tools test for presence are `Option`s;
   * list keys read with `policy.get(key, [])` are plain sequences (empty
   * when absent).
   */
  datatype Policy = Policy(
    name: Option<string>,
    kind: Option<string>,
    rule: Option<string>,
    requiredTags: seq<string>,
    allowedRegions: Option<seq<string>>,
    blockedRegions: seq<string>,
    environments: Option<seq<string>>,
    actions: seq<string>,
    approvalLevel: Option<string>,
    waitingPeriodHours: Option<real>,
    riskLevels: seq<(string, AutomationConfig)>)

  /** The `policies` object: category name to the policies of that category. */
  type PolicyGroups = map<string, seq<Policy>>

  /** `policies.get(name, [])`. */
  function Group(groups: PolicyGroups, name: string): seq<Policy>
  {
    if name in groups then groups[name] else []
  }
}
