# CloudWise FinOps tools in Dafny

CloudWise FinOps is a set of agent tools for cloud cost management. Each tool takes JSON arguments, validates them with a cascade of early returns, computes a result and answers with a JSON document. This project models the rule engines and aggregators behind those tools. They fall into four groups:

- the policy engine: compliance scoring, action validation, auto-approval routing and budget-policy loading;
- the optimizer: savings aggregation, rightsizing, reserved-instance and spot analysis, and cross-provider arbitrage;
- the anomaly detector: spike detection, anomaly classification and trend detection;
- data shaping and reporting: provider normalisation, the GCP billing export filter, report scheduling, cost reports and dashboard data.

Each tool's `run` is a function or method from already-parsed input datatypes to `Outcome<R> = Error(msg) | Warning(msg) | Ok(R)`. It keeps the tool's early-return order. The JSON and summary text around the result are dropped.

Where the source builds a list or dictionary in a loop, sorts in place or updates a field of the tool object, the model is a method with loop invariants. Each such method is proved to produce exactly what a specification function describes. The pure rule cascades, tables and formulas are functions, and lemmas state the properties the tools promise about them.

Money and percentages are exact `real` numbers. A Python dictionary is modelled as the order in which its keys were first inserted, together with a map from key to value, because that order is what `.items()` walks.

This model follows the tool code under `cloudwise_finops/*/tools/`.

There is one module per source file, plus shared modules. The tools repeat these helpers inline, each in its own file; the model defines each once and the tool modules import it.

- `Outcomes`: result shapes and the map-until-first-error loop.
- `Text`: the Python string operations the tools use.
- `Values`: JSON values as the tools test them.
- `Seqs`: sums, filters, slicing and de-duplication.
- `Sorting`: Python's stable `sorted` and `list.sort`.
- `Policies`: the policy document shared by the policy-engine tools.
- `CostRecords`: the normalised cost record the reporting tools read, and the per-key cost dictionary they all fill.

## Model

| member | source | states |
|---|---|---|
| Outcomes.MapAllFacts | cloudwise_finops/cloud_connector/tools/NormalizeCostData.py:94-117 | a loop over items that stops at the first failure succeeds exactly when every item does, and then holds f of each item in order |
| Outcomes.MapAllFirstError | cloudwise_finops/cloud_connector/tools/NormalizeCostData.py:84-85 | the first failing item decides the error message of the whole conversion |
| Text.LowerChars | cloudwise_finops/policy_engine/tools/ValidateAction.py:214 | lower() replaces each character by its lower-case form, keeping the length, so no upper-case ASCII letter is left |
| Text.UpperChars | cloudwise_finops/policy_engine/tools/ValidateAction.py:272 | upper() replaces each character by its upper-case form, keeping the length, so no lower-case ASCII letter is left |
| Text.FindSub | cloudwise_finops/cloud_connector/tools/NormalizeCostData.py:109 | find returns the first index at which the substring occurs, and nothing exactly when it does not occur |
| Text.SplitOn | cloudwise_finops/cloud_connector/tools/NormalizeCostData.py:108 | split on a non-empty separator yields at least one piece |
| Text.SplitJoin | cloudwise_finops/cloud_connector/tools/NormalizeCostData.py:108-109 | splitting and joining on the same separator gives back the text, and no piece holds the separator |
| Text.RemoveAllChar | cloudwise_finops/policy_engine/tools/CheckCompliance.py:245 | replacing every * with nothing leaves no * |
| Text.SplitWhitespace | cloudwise_finops/reporter/tools/ScheduleReport.py:66 | split() yields non-empty words without whitespace; with SplitWhitespaceRuns they are the maximal runs of the text in order |
| Text.SplitWhitespaceRuns | cloudwise_finops/reporter/tools/ScheduleReport.py:66 | the text is its split() words interleaved with whitespace gaps, each inner gap non-empty, so the words are its maximal non-whitespace runs in order |
| Text.StripSlice | cloudwise_finops/reporter/tools/ScheduleReport.py:83 | strip() gives the slice of the text that starts after its leading whitespace and ends before its trailing whitespace |
| Text.SplitWhitespaceStrip | cloudwise_finops/reporter/tools/ScheduleReport.py:66 | strip() before split() changes nothing |
| Text.RemoveLeadingOnly | cloudwise_finops/reporter/tools/ScheduleReport.py:99 | removing a prefix that occurs nowhere else leaves the rest |
| Text.NatToString | cloudwise_finops/optimizer/tools/EstimateSavings.py:65 | str(n) is a non-empty string of decimal digits |
| Text.NatToStringRoundTrip | cloudwise_finops/optimizer/tools/EstimateSavings.py:69 | reading back the digits str(n) prints gives n |
| Values.Lookup | cloudwise_finops/policy_engine/tools/CheckCompliance.py:61 | a key is found exactly when the dictionary has it, and then its value is that of an entry with that key |
| Seqs.FilterMembers | cloudwise_finops/cloud_connector/tools/FetchGCPBillingExport.py:156 | a comprehension with a condition keeps exactly the elements that pass it |
| Seqs.FilterPermutation | cloudwise_finops/optimizer/tools/CalculateCrossProviderArbitrage.py:154 | reordering a list does not change how many of its elements pass a test |
| Seqs.SumOfPermutation | cloudwise_finops/reporter/tools/GenerateCostReport.py:221 | reordering a list does not change its sum |
| Seqs.MapFilterFacts | cloudwise_finops/anomaly_detector/tools/DetectTrendChange.py:68-79 | a loop that skips some entries keeps one value per passing entry, and none exactly when none passes |
| Seqs.Take | cloudwise_finops/reporter/tools/GenerateCostReport.py:173 | s[:n] is a prefix of s of length min(n, len(s)) |
| Seqs.Dedup | cloudwise_finops/policy_engine/tools/ValidateAction.py:259 | de-duplication holds each element of its input once and nothing else |
| Seqs.DedupMembers | cloudwise_finops/policy_engine/tools/ValidateAction.py:259 | de-duplication keeps exactly the elements of its input |
| Sorting.SortBySorted | cloudwise_finops/anomaly_detector/tools/DetectTrendChange.py:85 | sorted with a key orders by that key |
| Sorting.SortByPermutes | cloudwise_finops/anomaly_detector/tools/DetectTrendChange.py:85 | sorted rearranges its input |
| Sorting.SortByStable | cloudwise_finops/anomaly_detector/tools/DetectTrendChange.py:85 | sorting is stable: the elements sharing a key keep their relative order |
| Sorting.SortByDescendingFacts | cloudwise_finops/optimizer/tools/EstimateSavings.py:153 | sorted with reverse=True orders by decreasing key, rearranges its input and stays stable |
| Sorting.SortByDescendingOrdered | cloudwise_finops/optimizer/tools/EstimateSavings.py:153 | sorting on the negated key orders by decreasing key |
| Sorting.SortByMembers | cloudwise_finops/optimizer/tools/EstimateSavings.py:106 | sorting does not change which elements are present |
| Sorting.WithKeyFirst | cloudwise_finops/optimizer/tools/EstimateSavings.py:106 | the first element with a given key is the first element of the input with that key |
| Sorting.SortByFirst | cloudwise_finops/optimizer/tools/EstimateSavings.py:106-107 | the first sorted element is an element of least key, the first of the input among those sharing that key |
| Sorting.InsertAt | cloudwise_finops/optimizer/tools/CalculateCrossProviderArbitrage.py:154 | one insertion step moves an element left past the larger keys before it and leaves the rest of the array alone |
| Sorting.SortInPlace | cloudwise_finops/optimizer/tools/CalculateCrossProviderArbitrage.py:154 | list.sort with a key leaves the array holding the stable sorted order of its old contents |
| LoadBudgetPolicies.Categorize | cloudwise_finops/policy_engine/tools/LoadBudgetPolicies.py:86-105 | the categorisation loop builds exactly CategoryMap: each of the six categories holds, in file order, the policies of that type that have no environments list or list the environment or "all" |
| LoadBudgetPolicies.CategoryMapStep | cloudwise_finops/policy_engine/tools/LoadBudgetPolicies.py:95-105 | one more policy joins its category's list when its type (default "unknown") is a category and it applies to the environment, and leaves every list unchanged otherwise |
| LoadBudgetPolicies.EmptyCategoryMap | cloudwise_finops/policy_engine/tools/LoadBudgetPolicies.py:86-93 | before any policy is read the six categories are present and empty |
| LoadBudgetPolicies.LoadedCount | cloudwise_finops/policy_engine/tools/LoadBudgetPolicies.py:117 | the sum of the six category sizes is the number of loaded policies |
| LoadBudgetPolicies.SixWay | cloudwise_finops/policy_engine/tools/LoadBudgetPolicies.py:95-105 | each loaded policy falls in exactly one of the six categories |
| LoadBudgetPolicies.Load | cloudwise_finops/policy_engine/tools/LoadBudgetPolicies.py:51-140 | the result is a load exactly for a supported extension (case-insensitive), a dictionary root with a version and a policies list; a missing version is the only warning; a load holds CategoryMap, the loaded count, "valid" exactly when that count is positive, by_type exactly for the non-empty categories with their sizes, and the budget and approval warnings exactly when those categories are empty |
| LoadBudgetPolicies.CategoryMembers | cloudwise_finops/policy_engine/tools/LoadBudgetPolicies.py:95-105 | a policy is in a category exactly when it is in the file, its type names the category and it applies to the environment |
| CheckCompliance.CheckRequiredTags | cloudwise_finops/policy_engine/tools/CheckCompliance.py:203-219 | the inner tag loop returns exactly the violations of the reference RequiredTagViolations: a missing tag gives a HIGH violation, a present but falsy tag a MEDIUM one, in the order of the required list |
| CheckCompliance.CheckTaggingCompliance | cloudwise_finops/policy_engine/tools/CheckCompliance.py:195-221 | the policy loop returns exactly TaggingViolations: only policies with rule `all_resources_must_have_tags` or type `tagging` contribute, in policy order |
| CheckCompliance.TagCheckFacts | cloudwise_finops/policy_engine/tools/CheckCompliance.py:204-219 | one tag's check is empty exactly when the tag is present and truthy, and anything it reports is a missing-tag HIGH or an empty-tag MEDIUM violation for that tag |
| CheckCompliance.RequiredTagViolationsFacts | cloudwise_finops/policy_engine/tools/CheckCompliance.py:201-219 | a policy reports nothing exactly when each of its required tags is satisfied, and only well-shaped tag violations |
| CheckCompliance.TaggingViolationsFacts | cloudwise_finops/policy_engine/tools/CheckCompliance.py:195-221 | the tagging check is clean exactly when every required tag of every tagging policy is present and non-empty; every violation is a missing tag (HIGH) or an empty one (MEDIUM) |
| CheckCompliance.CheckBlockedRegions | cloudwise_finops/policy_engine/tools/CheckCompliance.py:241-261 | the blocked-pattern loop returns exactly BlockedViolations: a wildcard pattern matches as a prefix after removing every `*`, any other pattern by equality |
| CheckCompliance.CheckPolicyRegion | cloudwise_finops/policy_engine/tools/CheckCompliance.py:229-261 | one regional policy yields the allowed-list violation (only when the list is non-empty) followed by the blocked-pattern violations |
| CheckCompliance.CheckRegionalCompliance | cloudwise_finops/policy_engine/tools/CheckCompliance.py:223-263 | the policy loop returns exactly RegionalViolations: only policies of type `compliance` or with an `allowed_regions` key are checked |
| CheckCompliance.BlockedViolationsFacts | cloudwise_finops/policy_engine/tools/CheckCompliance.py:241-261 | every blocked-region violation is CRITICAL, and there is none exactly when no pattern blocks the region |
| CheckCompliance.AllCriticalAppend | cloudwise_finops/policy_engine/tools/CheckCompliance.py:232-261 | joining two all-CRITICAL violation lists keeps them all CRITICAL |
| CheckCompliance.PolicyRegionFacts | cloudwise_finops/policy_engine/tools/CheckCompliance.py:229-261 | one policy's regional violations are all CRITICAL, and there are none exactly when the policy permits the region |
| CheckCompliance.RegionalAllCritical | cloudwise_finops/policy_engine/tools/CheckCompliance.py:223-263 | every regional violation is CRITICAL |
| CheckCompliance.RegionalNoneIff | cloudwise_finops/policy_engine/tools/CheckCompliance.py:223-263 | there are no regional violations exactly when every checked regional policy permits the region |
| CheckCompliance.WildcardIsPrefix | cloudwise_finops/policy_engine/tools/CheckCompliance.py:243-246 | a pattern with a `*` anywhere blocks exactly the regions that start with the pattern minus all its `*`s, so `ap-*` blocks `ap-south-1` |
| CheckCompliance.DeductionsAtLeast | cloudwise_finops/policy_engine/tools/CheckCompliance.py:118-125 | every violation deducts at least 2 points |
| CheckCompliance.ScoreFacts | cloudwise_finops/policy_engine/tools/CheckCompliance.py:125-126 | the score `max(0, 100 - deductions)` lies in 0..100 and is 100 exactly when there are no violations |
| CheckCompliance.SeverityCountsAddUp | cloudwise_finops/policy_engine/tools/CheckCompliance.py:129-134 | the CRITICAL, HIGH, MEDIUM and LOW lists together count every violation once |
| CheckCompliance.ParseFrameworks | cloudwise_finops/policy_engine/tools/CheckCompliance.py:84 | the framework list holds each comma-separated piece stripped, in order, and has at least one entry |
| CheckCompliance.FirstUnknown | cloudwise_finops/policy_engine/tools/CheckCompliance.py:85-89 | no name is reported exactly when every framework is valid; otherwise the reported name is the first invalid framework of the list |
| CheckCompliance.CheckReportFacts | cloudwise_finops/policy_engine/tools/CheckCompliance.py:136-179 | a report is compliant exactly when it has no violations and exactly when its score is 100, its severity counts add up to the total, and its remediation is the first min(5, n) violations |
| CheckCompliance.UnencryptedDataStore | cloudwise_finops/policy_engine/tools/CheckCompliance.py:103-106 | an unencrypted RDS/S3/EBS/Database/Storage resource gets an encryption violation, CRITICAL under hipaa, pci or soc2 and HIGH otherwise, and is not compliant |
| CheckCompliance.PublicProductionResource | cloudwise_finops/policy_engine/tools/CheckCompliance.py:108-111 | a production (`production` or `prod`) resource with public access always carries the CRITICAL public-access violation and scores at most 75 |
| CheckCompliance.DeductionsMember | cloudwise_finops/policy_engine/tools/CheckCompliance.py:125 | the deductions are at least the points of any one listed violation |
| CheckCompliance.CheckAnswers | cloudwise_finops/policy_engine/tools/CheckCompliance.py:47-89 | the tool answers exactly when tags, region, resource type and the policy groups are present, a compliance or tagging policy is loaded and every framework is valid; it errs exactly when a field or the groups are missing |
| CheckCompliance.FrameworkViolationsFacts | cloudwise_finops/policy_engine/tools/CheckCompliance.py:298-324 | the framework check reports the HIPAA audit-logging violation exactly under hipaa/all without audit logging, the PCI subnet violation exactly under pci/all for a Database or Storage outside a private subnet, both CRITICAL, nothing else |
| ValidateAction.AssessRiskFacts | cloudwise_finops/policy_engine/tools/ValidateAction.py:196-207 | HIGH exactly for a terminate/delete/migrate action or a cost impact over 1000; MEDIUM exactly for a downsize/stop/change action or a cost over 100 when not HIGH; a larger cost impact never lowers the risk |
| ValidateAction.FindProtectionTag | cloudwise_finops/policy_engine/tools/ValidateAction.py:209-221 | no tag is found exactly when no tag protects (key in the protected list after lower-casing, or value text "true", "critical" or "protected"); a found tag is the first protecting one in dictionary order |
| ValidateAction.CheckApprovalRequirements | cloudwise_finops/policy_engine/tools/ValidateAction.py:223-264 | the approval loop returns exactly the reference ApprovalRequirements: the last applying policy sets level and wait, each applying policy adds its role, and HIGH risk adds the Engineering Director |
| ValidateAction.ScanAppliesFacts | cloudwise_finops/policy_engine/tools/ValidateAction.py:231-249 | the scan records an applying policy exactly when some approval policy names the action (or "all") and the environment (or "all"); otherwise level "none", wait 0 and no approvers |
| ValidateAction.ScanApproversFacts | cloudwise_finops/policy_engine/tools/ValidateAction.py:243-249 | the scan collects exactly the roles that the applying policies' levels map to |
| ValidateAction.ApprovalNeededFacts | cloudwise_finops/policy_engine/tools/ValidateAction.py:251-264 | approval is required exactly when some policy applies or the risk is HIGH; HIGH risk always lists the Engineering Director; an estimated time is given exactly when approval is required; without approval nothing is listed, the level is "none" and the wait is 0 |
| ValidateAction.ApproversFacts | cloudwise_finops/policy_engine/tools/ValidateAction.py:252-259 | the listed approvers are distinct roles, exactly the collected roles plus, for HIGH risk, the director |
| ValidateAction.ScanRoles | cloudwise_finops/policy_engine/tools/ValidateAction.py:244-249 | the scan only ever lists Team Manager, Engineering Director or CFO |
| ValidateAction.FirstLevelMatch | cloudwise_finops/policy_engine/tools/ValidateAction.py:271-285 | no level matches exactly when no risk level of the policy equals the risk (upper-cased) with the action or its category listed; otherwise the config returned is that of the first matching level, every level before it failing to match |
| ValidateAction.AutomationCheck | cloudwise_finops/policy_engine/tools/ValidateAction.py:266-287 | can_automate is the negation of requires_approval; no policy is matched exactly when no level of any policy matches, and then automation is refused; automation implies some matching level does not demand approval |
| ValidateAction.AutomationFirstMatch | cloudwise_finops/policy_engine/tools/ValidateAction.py:268-287 | the first policy with a matching level decides: a policy is matched exactly when one exists, policy_matched is its name (default "automation_policy"), and can_automate holds exactly when its first matching level does not demand approval |
| ValidateAction.CheckRequiredTags | cloudwise_finops/policy_engine/tools/ValidateAction.py:298-300 | the inner loop returns exactly MissingTags: the required tags that are absent or falsy, in order |
| ValidateAction.CheckPolicyCompliance | cloudwise_finops/policy_engine/tools/ValidateAction.py:289-305 | the policy loop returns exactly ComplianceViolations over the policies with rule `all_resources_must_have_tags` |
| ValidateAction.MissingTagsFacts | cloudwise_finops/policy_engine/tools/ValidateAction.py:298-300 | a tag is reported exactly when it is required and not satisfied |
| ValidateAction.ComplianceViolationsFacts | cloudwise_finops/policy_engine/tools/ValidateAction.py:289-305 | a tag is reported exactly when some tag-rule policy requires it and it is missing or empty |
| ValidateAction.DecideStatusFacts | cloudwise_finops/policy_engine/tools/ValidateAction.py:127-137 | "requires_approval" exactly when approval is required; "blocked" exactly when neither approval nor automation applies and the resource is not compliant; "auto_approved" otherwise |
| ValidateAction.ResolveAll | cloudwise_finops/policy_engine/tools/ValidateAction.py:323 | one "resolve" step per violation, in order |
| ValidateAction.AsNotes | cloudwise_finops/policy_engine/tools/ValidateAction.py:145-146 | each missing tag becomes one "Missing required tag" note, in order |
| ValidateAction.ValidateAnswers | cloudwise_finops/policy_engine/tools/ValidateAction.py:42-82 | the tool answers exactly when the action type is known, resource_id and resource_type are given and policies were passed; an unknown action type is the only warning |
| ValidateAction.ProtectedResourceBlocked | cloudwise_finops/policy_engine/tools/ValidateAction.py:88-96 | a protecting tag blocks the action with HIGH risk and a single protected-tag violation naming a tag of the resource, whatever the policies say |
| ValidateAction.UnprotectedValidation | cloudwise_finops/policy_engine/tools/ValidateAction.py:98-146 | without protection the action is valid exactly when it has no violations and exactly when every tag rule is met; blocked implies invalid; HIGH risk always requires the Engineering Director's approval |
| ValidateAction.NextStepsFacts | cloudwise_finops/policy_engine/tools/ValidateAction.py:307-325 | approved and approval answers get three steps, the approval one naming the approvers; a block gets one step per violation and a final re-validation |
| ValidateAction.AutomatedDespiteViolations | cloudwise_finops/policy_engine/tools/ValidateAction.py:121-137 | for an unprotected resource that automation allows and no approval catches, the status is "auto_approved" whatever tags are missing, while the violations are still reported and is_valid is false when any are |
| ValidateAction.AutoApprovedWhileInvalid | cloudwise_finops/policy_engine/tools/ValidateAction.py:130-131 | concretely: modify_tags on a resource without the required owner tag, under the module's own sample automation policy, is "auto_approved" while is_valid is false |
| ValidateAction.ExampleLowRiskUnapproved | cloudwise_finops/policy_engine/tools/ValidateAction.py:200-206 | modify_tags of no cost is LOW risk and needs no approval in that example |
| ValidateAction.ModifyCategory | cloudwise_finops/policy_engine/tools/ValidateAction.py:276 | the category of "modify_tags" is "modify" |
| ValidateAction.ExampleAutomates | cloudwise_finops/policy_engine/tools/ValidateAction.py:266-285 | the example automation policy lets modify_tags at LOW risk automate |
| ValidateAction.ExampleMissesOwner | cloudwise_finops/policy_engine/tools/ValidateAction.py:289-305 | with no tags the example compliance policy reports just the owner tag |
| ApproveAutomation.ParseRisk | cloudwise_finops/policy_engine/tools/ApproveAutomation.py:44-47 | the risk level is accepted exactly when it is LOW, MEDIUM, HIGH or CRITICAL |
| ApproveAutomation.EligibilityFacts | cloudwise_finops/policy_engine/tools/ApproveAutomation.py:135-161 | eligible exactly for a LOW-risk action outside production ("production"/"prod") that is not destructive and whose compliance score (default 100) is at least 90 |
| ApproveAutomation.CostlyCriticalSkipsCfo | cloudwise_finops/policy_engine/tools/ApproveAutomation.py:185-196 | as written, a CRITICAL action costing 1000 a month is caught by the HIGH-or-cost branch and routed to the director alone (24-48 hours), while one costing 999 also needs the CFO |
| ApproveAutomation.RouteFacts | cloudwise_finops/policy_engine/tools/ApproveAutomation.py:183-196 | the corrected routing sends every CRITICAL action to the director and the CFO (48-72 hours), HIGH to the director, LOW to the team lead under 500 and the engineering manager from 500, and agrees with the code everywhere except CRITICAL at 1000 or more |
| ApproveAutomation.ManualApproversFacts | cloudwise_finops/policy_engine/tools/ApproveAutomation.py:180-200 | under the corrected routing, a manual request names someone and nobody twice, names the director for HIGH or CRITICAL risk and for production, the CFO for every CRITICAL action (which the code as written omits at a cost of 1000 or more), and outside production exactly the routed approvers |
| ApproveAutomation.ApproveAnswers | cloudwise_finops/policy_engine/tools/ApproveAutomation.py:42-71 | the tool decides exactly when the risk level is one of the four names, the threshold is not negative and action_type, resource_id and a numeric cost_impact are given |
| ApproveAutomation.ApproveDecisionFacts | cloudwise_finops/policy_engine/tools/ApproveAutomation.py:73-97 | approved exactly when eligible and the cost is within the threshold; an approval is automatic, by the system, complete and immediate with three steps; a refusal is pending, names a non-empty list (the director in production) and has five steps starting with the submission to them |
| ApproveAutomation.ThresholdMonotone | cloudwise_finops/policy_engine/tools/ApproveAutomation.py:84 | raising the threshold never turns an approval into a manual request |
| EstimateSavings.Normalize | cloudwise_finops/optimizer/tools/EstimateSavings.py:60-76 | a recommendation never warns, and normalises exactly when it has a category and a numeric monthly_savings and its effort is missing or numeric |
| EstimateSavings.NormalizeAll | cloudwise_finops/optimizer/tools/EstimateSavings.py:56-78 | the normalisation loop succeeds exactly when every recommendation normalises, returns then the normalised list, and otherwise returns the error of the first one that fails |
| EstimateSavings.GroupOfMembers | cloudwise_finops/optimizer/tools/EstimateSavings.py:84-90 | a resource's group holds exactly the recommendations with that id, and is non-empty exactly when the id occurs |
| EstimateSavings.GroupsOfKeys | cloudwise_finops/optimizer/tools/EstimateSavings.py:81-90 | resource_map has a key for exactly the ids that occur |
| EstimateSavings.GroupsOfValues | cloudwise_finops/optimizer/tools/EstimateSavings.py:84-90 | each entry of resource_map holds that resource's recommendations in input order |
| EstimateSavings.GroupByResource | cloudwise_finops/optimizer/tools/EstimateSavings.py:81-90 | the grouping loop builds exactly GroupsOf, its keys in order of first appearance, each holding that resource's recommendations in input order |
| EstimateSavings.PickSingle | cloudwise_finops/optimizer/tools/EstimateSavings.py:102-103 | a resource with one recommendation keeps it with no conflicts |
| EstimateSavings.ResolveConflicts | cloudwise_finops/optimizer/tools/EstimateSavings.py:92-111 | the conflict loop returns exactly Resolved: one pick per resource, in the dictionary's insertion order |
| EstimateSavings.PickFacts | cloudwise_finops/optimizer/tools/EstimateSavings.py:104-110 | the pick of a group is one of its recommendations with the smallest precedence (unknown categories 99), the first such since sorted is stable, and it counts the others as conflicts |
| EstimateSavings.ResolvedShape | cloudwise_finops/optimizer/tools/EstimateSavings.py:101-111 | there is one pick per distinct resource id, the ids are distinct, and every recommendation's id is among them |
| EstimateSavings.ResolvedFacts | cloudwise_finops/optimizer/tools/EstimateSavings.py:101-111 | the k-th pick belongs to the k-th distinct resource, is one of its recommendations with the smallest precedence, the first such in input order, and records how many others it replaced |
| EstimateSavings.TotalsOfKeys | cloudwise_finops/optimizer/tools/EstimateSavings.py:114-125 | category_totals has an entry for exactly the categories that occur |
| EstimateSavings.TotalsOfValues | cloudwise_finops/optimizer/tools/EstimateSavings.py:116-130 | each entry counts that category's survivors and sums their monthly, annual (12 x monthly) savings and effort days |
| EstimateSavings.TotalsOfIsCategoryTotals | cloudwise_finops/optimizer/tools/EstimateSavings.py:114-130 | the map the loop builds equals the comprehension over the categories |
| EstimateSavings.TotalByCategory | cloudwise_finops/optimizer/tools/EstimateSavings.py:113-130 | the accumulation loop returns the categories in order of first appearance and exactly CategoryTotals |
| EstimateSavings.CategoriesPartition | cloudwise_finops/optimizer/tools/EstimateSavings.py:113-139 | the categories partition the survivors: their counts add up to the number of survivors and their monthly totals to the raw monthly savings |
| EstimateSavings.PhasesPartition | cloudwise_finops/optimizer/tools/EstimateSavings.py:214-251 | phase 1 holds at most ten recommendations of at most 5 days, phase 2 at most ten of 5 to 15 days, and every ranked recommendation is in exactly one phase |
| EstimateSavings.SummaryFacts | cloudwise_finops/optimizer/tools/EstimateSavings.py:80-201 | the summary has one survivor per resource, conflicts are the difference, categories partition the survivors by count and savings, the adjusted savings are raw x confidence (never more for non-negative raw), annual is 12 x monthly, weeks are days / 5, and the lists are capped at 15, 5 and 3 |
| EstimateSavings.CategoriesCover | cloudwise_finops/optimizer/tools/EstimateSavings.py:116-117 | every survivor's category is listed |
| EstimateSavings.ScaledDown | cloudwise_finops/optimizer/tools/EstimateSavings.py:140 | a confidence in 0..1 never increases a non-negative saving nor makes it negative |
| EstimateSavings.Estimate | cloudwise_finops/optimizer/tools/EstimateSavings.py:37-78 | the tool warns exactly on an empty list, answers exactly for a non-empty list, a confidence in 0..1 and recommendations that all normalise, and then returns the summary of the normalised list |
| EstimateSavings.RankingFacts | cloudwise_finops/optimizer/tools/EstimateSavings.py:153 | the ranking orders the survivors by ROI, best first, keeps them all, and keeps equal ROIs in their earlier order |
| EstimateSavings.QuickWinMembers | cloudwise_finops/optimizer/tools/EstimateSavings.py:155-160 | the quick wins are exactly the survivors with adjusted savings of at least 100 and at most five days of effort |
| EstimateSavings.RoiFacts | cloudwise_finops/optimizer/tools/EstimateSavings.py:146-150 | with no effort the ROI is ten times the adjusted savings; otherwise it is the adjusted savings per week of effort |
| AnalyzeRightsizing.InstanceSpecs | cloudwise_finops/optimizer/tools/AnalyzeRightsizing.py:201-229 | a type has specs exactly when its provider's catalogue lists it |
| AnalyzeRightsizing.SmallerUndoneByLarger | cloudwise_finops/optimizer/tools/AnalyzeRightsizing.py:231-272 | a step down followed by a step up returns to the starting type, and both types are in their provider's catalogue |
| AnalyzeRightsizing.LargerUndoneBySmaller | cloudwise_finops/optimizer/tools/AnalyzeRightsizing.py:231-272 | a step up followed by a step down returns to the starting type, and both types are in their provider's catalogue |
| AnalyzeRightsizing.SizeStepPercentages | cloudwise_finops/optimizer/tools/AnalyzeRightsizing.py:236-272 | a step down saves 50 %, a step up costs 100 %, and a type without a step stays as it is at 0 % |
| AnalyzeRightsizing.Efficiency | cloudwise_finops/optimizer/tools/AnalyzeRightsizing.py:92-94 | the weighted efficiency 0.6 x average + 0.4 x peak lies between the average and the peak, and in 0..100 for figures in 0..100 |
| AnalyzeRightsizing.RecommendFacts | cloudwise_finops/optimizer/tools/AnalyzeRightsizing.py:99-114 | downsize exactly for an efficiency under 30 with both peaks under 60; upsize exactly for an efficiency over 70 with a peak over 85; no change otherwise |
| AnalyzeRightsizing.AnalyzeAnswers | cloudwise_finops/optimizer/tools/AnalyzeRightsizing.py:44-89 | the tool answers exactly for a known provider, four present numeric figures in 0..100, a numeric or missing lookback of at least 7 days and a catalogued instance type; a short lookback with otherwise valid metrics is the only warning |
| AnalyzeRightsizing.EvaluateFacts | cloudwise_finops/optimizer/tools/AnalyzeRightsizing.py:91-186 | the efficiency is the larger weighted figure in 0..100; no change keeps the type at 0 savings; a downsize saves a non-negative amount and an upsize costs one (100 % for a listed type); the risk is "NONE" exactly for no change and "MEDIUM" exactly for a downsize with a peak over 50; headroom is 100 minus the peak; annual savings are 12 x monthly |
| AnalyzeRightsizing.NotesFacts | cloudwise_finops/optimizer/tools/AnalyzeRightsizing.py:274-296 | a downsize gets three notes, five with the two cautions at MEDIUM risk, the first testing the target type; an upsize three; no change two |
| SuggestSpotInstances.GetSpotPricing | cloudwise_finops/optimizer/tools/SuggestSpotInstances.py:158-192 | pricing exists exactly for a type in its provider's catalogue, and every catalogued spot price is positive and below the on-demand price |
| SuggestSpotInstances.EvaluateFacts | cloudwise_finops/optimizer/tools/SuggestSpotInstances.py:194-216 | low tolerance is never recommended, always has LOW confidence, and is conditional exactly from 80 % savings with under 5 % interruptions; high tolerance is recommended exactly from 40 % savings; medium tolerance is recommended exactly from 70 % savings with under 10 % interruptions; neither is refused; HIGH confidence exactly for high tolerance from 60 % savings |
| SuggestSpotInstances.GuidanceFacts | cloudwise_finops/optimizer/tools/SuggestSpotInstances.py:218-250 | a refusal yields the single do-not-migrate step; otherwise the steps are numbered 1, 2, ... without gaps, seven of them for medium or high tolerance and five for low |
| SuggestSpotInstances.ProviderStepsCount | cloudwise_finops/optimizer/tools/SuggestSpotInstances.py:230-243 | every known provider contributes three steps |
| SuggestSpotInstances.SpotRiskFactorsFacts | cloudwise_finops/optimizer/tools/SuggestSpotInstances.py:97-110 | the risk factors are never empty, and they name a low-risk candidate exactly when the interruption rate is at most 15 %, the tolerance is not low and the savings reach 50 % |
| SuggestSpotInstances.SuggestAnswers | cloudwise_finops/optimizer/tools/SuggestSpotInstances.py:43-60 | the tool answers exactly for a known provider, a known tolerance and a catalogued instance type, and never warns |
| SuggestSpotInstances.EffectiveCostFacts | cloudwise_finops/optimizer/tools/SuggestSpotInstances.py:66-87 | for every answer, the spot cost is positive, the interruption overhead never makes the effective cost lower than the plain spot cost, so effective savings are at most the plain savings, which are positive |
| SuggestSpotInstances.SpotAnalysisCosts | cloudwise_finops/optimizer/tools/SuggestSpotInstances.py:62-143 | for any pricing with a positive spot price below on-demand, the effective monthly cost is at least the spot cost and the effective savings at most the plain savings |
| SuggestSpotInstances.CatalogOutcomes | cloudwise_finops/optimizer/tools/SuggestSpotInstances.py:163-216 | on the catalogued prices, high tolerance is always recommended with HIGH confidence, low tolerance always refused, and medium tolerance recommended only for m5.2xlarge on AWS |
| CalculateRISavings.GetPricing | cloudwise_finops/optimizer/tools/CalculateRISavings.py:176-219 | pricing exists exactly for a type in its provider's list |
| CalculateRISavings.PricingFacts | cloudwise_finops/optimizer/tools/CalculateRISavings.py:202-219 | every listed price is positive, the reserved rate lies strictly below the on-demand rate, the upfront payment is positive, and the discount is 35 % for one year and 55 % for three |
| CalculateRISavings.RecommendMonotone | cloudwise_finops/optimizer/tools/CalculateRISavings.py:97-111 | a longer break-even never gives a stronger recommendation, and the 999 of no savings is NOT RECOMMENDED |
| CalculateRISavings.RiskScore | cloudwise_finops/optimizer/tools/CalculateRISavings.py:223-241 | the combined risk score lies between 1 and 6 |
| CalculateRISavings.RiskFacts | cloudwise_finops/optimizer/tools/CalculateRISavings.py:221-249 | the risk is LOW exactly for a score of at most 2, MEDIUM exactly for 3 or 4 and HIGH exactly for 5 or 6; a low-risk 3-year term needs at least 70 % use and a break-even of at most 6 months; under 50 % use with a break-even beyond 12 months is always HIGH; at least 70 % use on a 1-year term with a break-even of at most 6 months is always LOW |
| CalculateRISavings.RiskFactorsFacts | cloudwise_finops/optimizer/tools/CalculateRISavings.py:251-267 | the risk factors are never empty, and they name a good candidate exactly for 70 to 95 % use on a 1-year term |
| CalculateRISavings.CalculateAnswers | cloudwise_finops/optimizer/tools/CalculateRISavings.py:47-81 | the tool reports exactly for a known provider and term, a usage of at least 292 hours and a listed type; a usage from 0 up to 292 hours is the only warning; the reported usage is capped at 730 and the utilisation lies in 40..100 |
| CalculateRISavings.ReachableRecommendations | cloudwise_finops/optimizer/tools/CalculateRISavings.py:83-111 | every accepted report saves money, so its break-even is upfront over savings; STRONGLY RECOMMENDED is never reached, and a 3-year term is always NOT RECOMMENDED |
| CalculateRISavings.ReportAlternatives | cloudwise_finops/optimizer/tools/CalculateRISavings.py:120-130 | an accepted report offers the shorter term exactly for a 3-year term, Savings Plans exactly below 70 % use, and the payment options exactly on AWS |
| CalculateRISavings.ReportBreakEven | cloudwise_finops/optimizer/tools/CalculateRISavings.py:87-101 | at a usage of 292 to 730 hours the monthly savings are positive and the break-even exceeds 3 months, and 12 months for a 3-year term |
| CalculateRISavings.OneYearBreakEven | cloudwise_finops/optimizer/tools/CalculateRISavings.py:87-101 | one-year savings are positive and take more than 3 months to repay the upfront payment |
| CalculateRISavings.ThreeYearBreakEven | cloudwise_finops/optimizer/tools/CalculateRISavings.py:87-101 | three-year savings are positive and take more than 12 months to repay the upfront payment |
| CalculateRISavings.RISavingsTool.Run | cloudwise_finops/optimizer/tools/CalculateRISavings.py:47-174 | run answers as the pure model on the usage it was given, leaves usage_hours capped at 730 once provider, term and sign are valid, and changes no other field |
| CalculateRISavings.RISavingsTool.constructor | cloudwise_finops/optimizer/tools/CalculateRISavings.py:26-45 | the tool starts with the instance type, region, term, usage and provider it is given |
| CrossProviderArbitrage.VmEgressFacts | cloudwise_finops/optimizer/tools/CalculateCrossProviderArbitrage.py:237-243 | GCP VM egress is free up to 1000 GB and costs 0.12 per GB above that; AWS charges 0.09 for every GB |
| CrossProviderArbitrage.ProviderCostFacts | cloudwise_finops/optimizer/tools/CalculateCrossProviderArbitrage.py:209-261 | a workload's monthly cost is never negative for non-negative specifications, and serverless and database workloads cost nothing |
| CrossProviderArbitrage.ProviderCosts | cloudwise_finops/optimizer/tools/CalculateCrossProviderArbitrage.py:76-87 | the loop leaves one cost per provider, each priced by the cost model |
| CrossProviderArbitrage.Cheapest | cloudwise_finops/optimizer/tools/CalculateCrossProviderArbitrage.py:91 | the cheapest choice is one of the three providers |
| CrossProviderArbitrage.CheapestFacts | cloudwise_finops/optimizer/tools/CalculateCrossProviderArbitrage.py:91-92 | the cheapest provider costs no more than any other, and every provider before it in table order costs strictly more, as min with a key returns the first minimum |
| CrossProviderArbitrage.MigrationEstimateFacts | cloudwise_finops/optimizer/tools/CalculateCrossProviderArbitrage.py:263-298 | complexity is HIGH exactly for databases and LOW exactly for Kubernetes and storage; the migration costs 500, 2000 or 10000 by complexity plus 50 per TB for storage; effort is 1, 4 or 12 weeks |
| CrossProviderArbitrage.DecideFacts | cloudwise_finops/optimizer/tools/CalculateCrossProviderArbitrage.py:112-130 | moving is advised only to a different provider with positive savings at a complexity below HIGH; MIGRATE exactly for a break-even of at most 6 months; CONSIDER only at LOW complexity within 12 months; without savings the break-even is 999 and the answer STAY |
| CrossProviderArbitrage.Comparison | cloudwise_finops/optimizer/tools/CalculateCrossProviderArbitrage.py:132-154 | the loop and the in-place sort leave the rows stably sorted by monthly cost |
| CrossProviderArbitrage.ComparisonFacts | cloudwise_finops/optimizer/tools/CalculateCrossProviderArbitrage.py:132-154 | the comparison has three rows, ascending by monthly cost, a permutation of the unsorted rows, with exactly one row marked current and one marked cheapest, whose difference is the monthly savings |
| CrossProviderArbitrage.RowsCount | cloudwise_finops/optimizer/tools/CalculateCrossProviderArbitrage.py:148-149 | exactly one unsorted row is marked current and exactly one cheapest |
| CrossProviderArbitrage.RoadmapFacts | cloudwise_finops/optimizer/tools/CalculateCrossProviderArbitrage.py:300-331 | the roadmap has 16 lines for Kubernetes and VMs and 12 otherwise, in phases that each open with their title, ending with the decommissioning of the source provider |
| CrossProviderArbitrage.Run | cloudwise_finops/optimizer/tools/CalculateCrossProviderArbitrage.py:47-207 | the tool's run, with its two loops and the sort, answers as the pure model of the tool |
| CrossProviderArbitrage.ArbitrageAnswers | cloudwise_finops/optimizer/tools/CalculateCrossProviderArbitrage.py:49-87 | the tool answers exactly for a known workload type and provider, JSON specs with the fields the workload needs and, for VMs and Kubernetes, a known region; it never warns |
| CrossProviderArbitrage.ReportFacts | cloudwise_finops/optimizer/tools/CalculateCrossProviderArbitrage.py:89-194 | savings are the current cost less the cheapest and never negative; without savings the break-even is 999; moving is never advised to the current provider or for a database; the roadmap is empty exactly when the answer is STAY and the target is then the current provider |
| CrossProviderArbitrage.AssembleFacts | cloudwise_finops/optimizer/tools/CalculateCrossProviderArbitrage.py:89-194 | the same facts for any cost table covering the providers |
| CrossProviderArbitrage.AssembleUnpriced | cloudwise_finops/optimizer/tools/CalculateCrossProviderArbitrage.py:94-130 | over a table of zero costs there are no savings and the answer is STAY |
| CrossProviderArbitrage.UnpricedWorkloadsStay | cloudwise_finops/optimizer/tools/CalculateCrossProviderArbitrage.py:261 | serverless and database workloads always get STAY with no savings and a zero current cost |
| DetectSpike.SeverityMonotone | cloudwise_finops/anomaly_detector/tools/DetectSpike.py:97-107 | a larger percentage deviation never gives a lower severity |
| DetectSpike.ConfidenceBounds | cloudwise_finops/anomaly_detector/tools/DetectSpike.py:109-113 | the confidence never exceeds 100, and an infinite z-score contributes exactly 50 |
| DetectSpike.DetectAnswers | cloudwise_finops/anomaly_detector/tools/DetectSpike.py:43-69 | the tool answers exactly for a non-negative value, a baseline with numeric mean and deviation, and positive thresholds; it never warns |
| DetectSpike.SpikeTests | cloudwise_finops/anomaly_detector/tools/DetectSpike.py:71-113 | a spike is exactly both tests passing; over a zero mean any positive cost passes the percentage test at a deviation of 100; otherwise the deviation is the relative change and the test compares it with the threshold; over a zero deviation the z-score is 0 for no change and infinite for any change, which always passes; the confidence is at most 100 |
| DetectSpike.SpikeIsRise | cloudwise_finops/anomaly_detector/tools/DetectSpike.py:71-95 | over a non-negative mean every spike is a rise above the mean, and over a positive mean the rise exceeds the threshold |
| DetectSpike.DeviationRise | cloudwise_finops/anomaly_detector/tools/DetectSpike.py:73-83 | passing the percentage test over a non-negative mean means a rise, beyond the threshold over a positive mean |
| DetectSpike.WithinDefaults | cloudwise_finops/anomaly_detector/tools/DetectSpike.py:115-120 | missing interval bounds default to 0 and infinity, so a non-negative value lies within an interval without bounds, and with only an upper bound exactly when it does not exceed it |
| ClassifyAnomaly.CollectSignals | cloudwise_finops/anomaly_detector/tools/ClassifyAnomaly.py:68-128 | the loop over the breakdown collects exactly the new-service, usage-spike, cost-only, zombie and major-contributor signals of the specification function |
| ClassifyAnomaly.SignalsExclusive | cloudwise_finops/anomaly_detector/tools/ClassifyAnomaly.py:85-111 | a service is at most one of new, usage spike and cost-only spike, and the two spike signals need a positive previous cost and usage |
| ClassifyAnomaly.ClassifyRules | cloudwise_finops/anomaly_detector/tools/ClassifyAnomaly.py:130-170 | the first tier that holds decides, each in both directions: new_resource at 85 exactly when some service is new; usage_spike at 80 exactly for a usage spike without new services; cost_spike at 75 exactly for a cost-only spike without either; zombie_resource at 70 exactly for a zombie without the three earlier signals; sustained_trend at 65 exactly for an increasing or decreasing trend without any signal; otherwise cost_spike at 50 with an unclear cause |
| ClassifyAnomaly.BaseActions | cloudwise_finops/anomaly_detector/tools/ClassifyAnomaly.py:208-236 | every classification has three different actions, each belonging to that classification |
| ClassifyAnomaly.BaseActionsDisjoint | cloudwise_finops/anomaly_detector/tools/ClassifyAnomaly.py:208-236 | two classifications never share a base action, so the actions name the classification |
| ClassifyAnomaly.RecommendationsFacts | cloudwise_finops/anomaly_detector/tools/ClassifyAnomaly.py:204-243 | three actions, or five at HIGH or CRITICAL severity with the two urgent ones first; the classification's three always end the list |
| ClassifyAnomaly.InputCheckFacts | cloudwise_finops/anomaly_detector/tools/ClassifyAnomaly.py:38-59 | the checks let through exactly a flagged anomaly with a non-empty breakdown list, and of their answers only the unflagged anomaly is a warning |
| ClassifyAnomaly.Run | cloudwise_finops/anomaly_detector/tools/ClassifyAnomaly.py:36-202 | the tool's run answers as the corrected model: the checks, the signal loop, then the verdict |
| ClassifyAnomaly.ClassifyAnswers | cloudwise_finops/anomaly_detector/tools/ClassifyAnomaly.py:36-202 | an anomaly without a truthy is_spike or is_significant is a warning; an empty or non-list breakdown an error; every other valid input is classified |
| ClassifyAnomaly.TrendAnomalyFails | cloudwise_finops/anomaly_detector/tools/ClassifyAnomaly.py:65-119 | a flagged trend anomaly without current_value and a breakdown with a positive cost fails as written through the division by zero at line 118, while the corrected tool classifies it as a sustained trend |
| ClassifyAnomaly.AsWrittenAgrees | cloudwise_finops/anomaly_detector/tools/ClassifyAnomaly.py:65-119 | the code as written fails exactly for inputs that pass the checks with a zero current value and some positive service cost, and otherwise agrees with the corrected tool |
| DetectTrendChange.ExtractPoints | cloudwise_finops/anomaly_detector/tools/DetectTrendChange.py:65-79 | the loop keeps, in order, exactly the entries with a numeric cost and a parsable date, as points |
| DetectTrendChange.SortByDate | cloudwise_finops/anomaly_detector/tools/DetectTrendChange.py:84-85 | the in-place sort leaves the points stably sorted by date |
| DetectTrendChange.LastN | cloudwise_finops/anomaly_detector/tools/DetectTrendChange.py:88 | the slice s[-k:] is the last k elements, or all of them when there are fewer |
| DetectTrendChange.Indices | cloudwise_finops/anomaly_detector/tools/DetectTrendChange.py:97 | range(n) yields the x values 0, 1, ..., n - 1 |
| DetectTrendChange.DenominatorGrows | cloudwise_finops/anomaly_detector/tools/DetectTrendChange.py:106 | the sum of squared x deviations never shrinks as points are added |
| DetectTrendChange.DenominatorPositive | cloudwise_finops/anomaly_detector/tools/DetectTrendChange.py:106-109 | with two or more points the denominator is positive, so the identical-dates error is never returned |
| DetectTrendChange.SsNonNegative | cloudwise_finops/anomaly_detector/tools/DetectTrendChange.py:115-117 | the total and residual sums of squares are never negative |
| DetectTrendChange.SsTotalZero | cloudwise_finops/anomaly_detector/tools/DetectTrendChange.py:116-120 | the total sum of squares about a value is zero exactly when every cost equals it |
| DetectTrendChange.SumOfConstant | cloudwise_finops/anomaly_detector/tools/DetectTrendChange.py:102 | the sum of n equal costs is n times that cost |
| DetectTrendChange.MeanOfConstant | cloudwise_finops/anomaly_detector/tools/DetectTrendChange.py:102 | the mean of equal costs is that cost |
| DetectTrendChange.SsTotalZeroIffConstant | cloudwise_finops/anomaly_detector/tools/DetectTrendChange.py:116-120 | the total sum of squares about the mean is zero exactly when all costs are equal |
| DetectTrendChange.DirectionFacts | cloudwise_finops/anomaly_detector/tools/DetectTrendChange.py:124-143 | the trend is stable exactly below the slope threshold and otherwise increasing or decreasing by the slope's sign; a significant trend is never stable and moves more than 100/30 a day |
| DetectTrendChange.InterpretMonotone | cloudwise_finops/anomaly_detector/tools/DetectTrendChange.py:197-208 | a better fit never reads as a weaker trend, and a fit above 0.5 is at least moderate |
| DetectTrendChange.Costs | cloudwise_finops/anomaly_detector/tools/DetectTrendChange.py:98 | the y values are the points' costs, one per point in order |
| DetectTrendChange.Run | cloudwise_finops/anomaly_detector/tools/DetectTrendChange.py:42-195 | the tool's run, with its extraction loop and in-place sort, answers as the pure model of the tool |
| DetectTrendChange.WindowFacts | cloudwise_finops/anomaly_detector/tools/DetectTrendChange.py:87-112 | the window is the last min(lookback, n) date-ordered points and always has at least 7, so the fallback to all points never applies and the regression always succeeds |
| DetectTrendChange.DetectAnswers | cloudwise_finops/anomaly_detector/tools/DetectTrendChange.py:42-112 | the tool answers exactly for a JSON list of at least 7 entries, a lookback of at least 7, a non-negative threshold and at least 7 usable entries; it never warns; the analysed period starts no later than it ends |
| DetectTrendChange.ConstantCostsNoFit | cloudwise_finops/anomaly_detector/tools/DetectTrendChange.py:116-120 | equal costs give a zero total sum of squares and an R squared of 0 |
| DetectTrendChange.ConfidenceBounds | cloudwise_finops/anomaly_detector/tools/DetectTrendChange.py:145-149 | R squared never exceeds 1, so the confidence never exceeds 100, and 7 or more points add at least 15 for sample size |
| NormalizeCostData.SplitFacts | cloudwise_finops/cloud_connector/tools/NormalizeCostData.py:109 | splitting on a separator the text contains gives at least two parts, so the [1] index is defined |
| NormalizeCostData.RangeSplitFacts | cloudwise_finops/cloud_connector/tools/NormalizeCostData.py:108-109 | the period start is the text before the first " to ", or all of it, with an empty end, when there is none |
| NormalizeCostData.NoSpaceNoSeparator | cloudwise_finops/cloud_connector/tools/NormalizeCostData.py:108-109 | a text without spaces never contains " to " |
| NormalizeCostData.RangeRoundTrip | cloudwise_finops/cloud_connector/tools/NormalizeCostData.py:108-109 | a range written "start to end" with space-free dates splits back into exactly its two dates |
| NormalizeCostData.NormalizeAws | cloudwise_finops/cloud_connector/tools/NormalizeCostData.py:89-118 | the loop appends exactly the records of the AWS normaliser, failing on the first item without a dimension or a cost |
| NormalizeCostData.NormalizeAzure | cloudwise_finops/cloud_connector/tools/NormalizeCostData.py:150-179 | the loop appends exactly the records of the Azure normaliser |
| NormalizeCostData.NormalizeGcp | cloudwise_finops/cloud_connector/tools/NormalizeCostData.py:120-148 | the loop appends exactly the records of the GCP normaliser |
| NormalizeCostData.AwsFacts | cloudwise_finops/cloud_connector/tools/NormalizeCostData.py:89-118 | an AWS breakdown normalises exactly when every item has a dimension and a cost, into one record per item in order, keyed "aws:" + dimension, with the document's account or "unknown" |
| NormalizeCostData.AwsFirstMissing | cloudwise_finops/cloud_connector/tools/NormalizeCostData.py:95-104 | the failure names the key missing from the first incomplete item, the dimension before the cost |
| NormalizeCostData.AzureFacts | cloudwise_finops/cloud_connector/tools/NormalizeCostData.py:150-179 | an Azure breakdown normalises exactly when every item has a dimension and a cost, one record per item keyed "azure:" + dimension with the subscription or "unknown"; an item's own date overrides both ends of the document's range |
| NormalizeCostData.GcpFacts | cloudwise_finops/cloud_connector/tools/NormalizeCostData.py:120-148 | GCP records always normalise one to one in region "global", defaulting to "unknown", 0 and "USD", each keyed "gcp:" + its resource name |
| NormalizeCostData.Run | cloudwise_finops/cloud_connector/tools/NormalizeCostData.py:35-87 | the tool's run, calling the normaliser loops, answers as the pure model of the tool |
| NormalizeCostData.NormalizeAnswers | cloudwise_finops/cloud_connector/tools/NormalizeCostData.py:37-62 | an unknown provider and unparsable JSON are errors; a document without its provider's item list gives the no-records warning; a GCP record list normalises exactly when it is non-empty |
| NormalizeCostData.Services | cloudwise_finops/cloud_connector/tools/NormalizeCostData.py:71 | the service names of the records, one per record in order |
| NormalizeCostData.SummaryFacts | cloudwise_finops/cloud_connector/tools/NormalizeCostData.py:64-80 | the count is every record while the first 20 at most are returned; between 1 and count distinct services; the currency is the first record's |
| NormalizeCostData.UncountedTotal | cloudwise_finops/cloud_connector/tools/NormalizeCostData.py:66-70 | only numeric, boolean or null costs enter the total, so records with only text or list costs total 0 |
| FetchGCPBillingExport.ProjectIdFacts | cloudwise_finops/cloud_connector/tools/FetchGCPBillingExport.py:72-74 | an accepted project filter has 6 to 30 characters, all lower-case letters, digits or hyphens, starts with a letter, does not end with a hyphen and holds no newline |
| FetchGCPBillingExport.TrailingNewlineAccepted | cloudwise_finops/cloud_connector/tools/FetchGCPBillingExport.py:73 | the pattern as written, whose end anchor also matches before a final newline, accepts "finops-prod" followed by a newline, which the intended check rejects |
| FetchGCPBillingExport.ProjectIdChecksAgree | cloudwise_finops/cloud_connector/tools/FetchGCPBillingExport.py:73 | on text without a newline the written and the intended check agree |
| FetchGCPBillingExport.NewlineFilterReturnsNothing | cloudwise_finops/cloud_connector/tools/FetchGCPBillingExport.py:72-160 | as written, a filter with a trailing newline passes validation and then matches no row, while the corrected tool rejects it |
| FetchGCPBillingExport.FetchAgrees | cloudwise_finops/cloud_connector/tools/FetchGCPBillingExport.py:56-170 | the written and the corrected tool agree on every filter without a newline |
| FetchGCPBillingExport.FetchAnswers | cloudwise_finops/cloud_connector/tools/FetchGCPBillingExport.py:56-75 | the tool answers exactly for parsable dates in order and an empty or valid filter; equal dates are accepted; it never warns; an empty filter is reported as all_projects |
| FetchGCPBillingExport.ReportFacts | cloudwise_finops/cloud_connector/tools/FetchGCPBillingExport.py:154-170 | a filter keeps exactly the rows of that project and no filter keeps all of them; the total is the kept rows' cost, the count their number, and at most the first 10 are returned |
| FetchGCPBillingExport.SampleProdRows | cloudwise_finops/cloud_connector/tools/FetchGCPBillingExport.py:118-160 | filtering the sample rows to finops-prod keeps its two rows, costing 9.17 |
| ScheduleReport.RecipientList | cloudwise_finops/reporter/tools/ScheduleReport.py:83 | the recipient list holds each comma-separated piece stripped, in order |
| ScheduleReport.RecipientListNonEmpty | cloudwise_finops/reporter/tools/ScheduleReport.py:83-86 | splitting always yields at least one piece, so the at-least-one-recipient error is never returned |
| ScheduleReport.ClassifyFacts | cloudwise_finops/reporter/tools/ScheduleReport.py:90-111 | an @ anywhere makes an email address before any prefix test; a slack:// prefix names the channel after it; an s3:// prefix a path; anything else is the unrecognised-format warning |
| ScheduleReport.EmptyRecipientsWarn | cloudwise_finops/reporter/tools/ScheduleReport.py:83-111 | an empty recipients text is one empty piece, which gives the unrecognised-format warning |
| ScheduleReport.ValidateRecipients | cloudwise_finops/reporter/tools/ScheduleReport.py:88-111 | the loop classifies each recipient in order and stops at the first unrecognised one |
| ScheduleReport.InterpretFacts | cloudwise_finops/reporter/tools/ScheduleReport.py:201-228 | hourly or daily exactly when day, month and weekday are all *, by the hour; weekly exactly with only the weekday set; monthly exactly with the day set and month *; custom exactly with a set month; a daily minute of 0 reads as 00; MON and 1 both read as Monday |
| ScheduleReport.NextRunOf | cloudwise_finops/reporter/tools/ScheduleReport.py:182-199 | within the next hour exactly when minute and hour are both *, a fixed time exactly when both are set, at that hour and minute |
| ScheduleReport.CronCheckPasses | cloudwise_finops/reporter/tools/ScheduleReport.py:49-80 | the configuration and cron checks pass exactly for a JSON configuration with a format and a cron expression of five fields whose minute uses only digits, *, /, - and commas |
| ScheduleReport.Run | cloudwise_finops/reporter/tools/ScheduleReport.py:47-180 | the tool's run, with its recipient loop, answers as the pure model of the tool |
| ScheduleReport.RecipientsStageFacts | cloudwise_finops/reporter/tools/ScheduleReport.py:82-111 | the recipient stage succeeds exactly when every piece is recognised, with one recipient per piece, warns only for an unrecognised one and never errors |
| ScheduleReport.ScheduleAnswers | cloudwise_finops/reporter/tools/ScheduleReport.py:47-180 | a schedule is created exactly for a configuration with a text format, a five-field cron with a valid minute, recognised recipients and a known time-range mode; a warning always comes from an unrecognised recipient |
| ScheduleReport.ScheduleDelivery | cloudwise_finops/reporter/tools/ScheduleReport.py:159-163 | the recipient count is the number of comma-separated pieces, and the delivery methods are exactly the recipients' types, never none |
| ScheduleReport.DeliveryFacts | cloudwise_finops/reporter/tools/ScheduleReport.py:162 | the set of delivery methods holds exactly the types that occur among the recipients |
| ScheduleReport.ClassifyNeverErrors | cloudwise_finops/reporter/tools/ScheduleReport.py:90-111 | classifying recipients never gives an error |
| ScheduleReport.MapAllWarning | cloudwise_finops/reporter/tools/ScheduleReport.py:90-111 | a warning from the recipient loop comes from some recipient |
| CostRecords.TotalCost | cloudwise_finops/reporter/tools/GenerateCostReport.py:76 | the summing loop computes the records' total cost, a missing cost counting 0 |
| CostRecords.KeysOf | cloudwise_finops/reporter/tools/GenerateCostReport.py:88-100 | one key per record, in record order |
| CostRecords.FirstSeenIsDedup | cloudwise_finops/reporter/tools/GenerateCostReport.py:102 | a dictionary's insertion order is the records' keys with repeats dropped, in order of first appearance |
| CostRecords.FirstSeenFacts | cloudwise_finops/reporter/tools/GenerateCostReport.py:102 | no key is inserted twice, and the keys are exactly those of the records |
| CostRecords.KeyTotalIsFilteredSum | cloudwise_finops/reporter/tools/GenerateCostReport.py:102 | each key's entry is the summed cost of exactly the records with that key |
| CostRecords.KeyTotalAbsent | cloudwise_finops/reporter/tools/GenerateCostReport.py:121 | a key that was never inserted has no cost, as get with a default of 0 returns |
| CostRecords.ItemsOverStep | cloudwise_finops/reporter/tools/GenerateCostReport.py:102 | one more record adds its cost to the items' sum when its key is among the names, and nothing otherwise |
| CostRecords.ItemsOverAppend | cloudwise_finops/reporter/tools/GenerateCostReport.py:102 | appending a key to the order adds that key's accumulated cost to the items' sum |
| CostRecords.BreakdownTotal | cloudwise_finops/reporter/tools/GenerateCostReport.py:76-102 | however the records are keyed, the dictionary's items sum to the total cost |
| CostRecords.BreakdownNames | cloudwise_finops/reporter/tools/GenerateCostReport.py:86-102 | the items name each key once, and every record's key is among them |
| CostRecords.BreakdownItems | cloudwise_finops/reporter/tools/GenerateCostReport.py:86-102 | each item is some record's key, costing the sum over exactly the records with that key |
| CostRecords.KeyCount | cloudwise_finops/reporter/tools/GenerateCostReport.py:117 | the dictionary has more than one key exactly when two records have different keys |
| CostRecords.TallyingStep | cloudwise_finops/reporter/tools/GenerateCostReport.py:81-83 | one turn of the accumulation loop appends a new key to the order and adds the record's cost to its entry |
| CostRecords.Tally | cloudwise_finops/reporter/tools/GenerateCostReport.py:80-83 | the accumulation loop leaves the keys in first-seen order, each with its records' summed cost |
| CostRecords.RankItems | cloudwise_finops/reporter/tools/GenerateCostReport.py:105 | sorting the items by cost in reverse gives the stable descending order |
| CostRecords.SumCosts | cloudwise_finops/reporter/tools/GenerateCostReport.py:221 | the summing loop computes the items' total cost |
| CostRecords.BreakdownOf | cloudwise_finops/reporter/tools/GenerateCostReport.py:86-102 | a breakdown dictionary after its loop, with its items in insertion order |
| CostRecords.ScaleMonotone | cloudwise_finops/reporter/tools/GenerateCostReport.py:124 | multiplying by a positive number keeps the order of two costs |
| CostRecords.PercentAbove | cloudwise_finops/reporter/tools/GenerateCostReport.py:123-124 | a guarded percentage exceeds a non-negative threshold exactly when the total is positive and the part exceeds that share of it |
| GenerateCostReport.KeyFacts | cloudwise_finops/reporter/tools/GenerateCostReport.py:88-100 | the environment level reads the environment tag and the provider level the provider; the tag level reads a tag literally named tag, so a record tagged only with an environment is untagged there; records without tags are untagged at both |
| GenerateCostReport.WarnsUntaggedIff | cloudwise_finops/reporter/tools/GenerateCostReport.py:120-125 | the untagged warning fires exactly when the total is positive and the untagged cost exceeds a tenth of it |
| GenerateCostReport.InsightFacts | cloudwise_finops/reporter/tools/GenerateCostReport.py:107-125 | at most three insights; the top item leads them; a multi-cloud insight exactly for more than one provider; the untagged warning exactly when untagged cost exceeds a tenth of a positive total |
| GenerateCostReport.CsvReport | cloudwise_finops/reporter/tools/GenerateCostReport.py:212-230 | the CSV loop produces exactly the lines of the CSV layout |
| GenerateCostReport.PercentsAdd | cloudwise_finops/reporter/tools/GenerateCostReport.py:221-225 | with a positive total, the items' percentages add up to their summed cost as a percentage of it |
| GenerateCostReport.CsvLayout | cloudwise_finops/reporter/tools/GenerateCostReport.py:212-230 | four header lines, one row per item in order with its name and cost, a blank line, and a TOTAL line holding the items' sum |
| GenerateCostReport.RowsPercentSum | cloudwise_finops/reporter/tools/GenerateCostReport.py:223-225 | the rows' percent column sums to the items' percentages |
| GenerateCostReport.CsvPercents | cloudwise_finops/reporter/tools/GenerateCostReport.py:221-228 | with a positive sum, the item rows' percentages add up to the 100 % the TOTAL line prints |
| GenerateCostReport.Validated | cloudwise_finops/reporter/tools/GenerateCostReport.py:49-72 | validation passes only with at least one record |
| GenerateCostReport.Run | cloudwise_finops/reporter/tools/GenerateCostReport.py:47-187 | the tool's run, with its loops and the sort, answers as the corrected model of the tool |
| GenerateCostReport.Summarize | cloudwise_finops/reporter/tools/GenerateCostReport.py:74-143 | the summary loops compute exactly the report of the records |
| GenerateCostReport.GenerateAnswers | cloudwise_finops/reporter/tools/GenerateCostReport.py:47-72 | an unknown format or level, unparsable data and a missing records array are errors, an empty array is the only warning, and all else gives the report of those records |
| GenerateCostReport.ReportTotals | cloudwise_finops/reporter/tools/GenerateCostReport.py:74-105 | the record count is the number of records, and the provider breakdown, the level breakdown and the ranked items all sum to the total cost |
| GenerateCostReport.RankingFacts | cloudwise_finops/reporter/tools/GenerateCostReport.py:104-105 | the ranking is the level's breakdown reordered, highest cost first, with equal costs in insertion order, and its first item is the most expensive |
| GenerateCostReport.TopInsight | cloudwise_finops/reporter/tools/GenerateCostReport.py:110-114 | with records, the first insight names the top ranked item and its cost |
| GenerateCostReport.TopFiveFacts | cloudwise_finops/reporter/tools/GenerateCostReport.py:171-174 | the top five are the first five ranked items, or all of them when there are fewer |
| GenerateCostReport.UntaggedOfRecords | cloudwise_finops/reporter/tools/GenerateCostReport.py:121 | the untagged cost is the cost of exactly the records keyed untagged at this level |
| GenerateCostReport.InsightsOfReport | cloudwise_finops/reporter/tools/GenerateCostReport.py:116-125 | the multi-cloud insight appears exactly when two records name different providers, and the untagged warning exactly when the untagged records cost more than a tenth of a positive total |
| GenerateCostReport.CsvOfReport | cloudwise_finops/reporter/tools/GenerateCostReport.py:127-135 | only a CSV request gets CSV content: its header names the level and currency, its TOTAL line is the total cost, and with a positive total its percent column adds up to 100 |
| GenerateCostReport.SingleRecord | cloudwise_finops/reporter/tools/GenerateCostReport.py:76-105 | a single record is its own total, breakdown and ranking |
| GenerateCostReport.ZeroTotalFails | cloudwise_finops/reporter/tools/GenerateCostReport.py:171-174 | as written, one record costing 0 fails on the top-five percentage at line 172, while the guarded report answers 0 % |
| GenerateCostReport.AsWrittenAgrees | cloudwise_finops/reporter/tools/GenerateCostReport.py:171-174 | whenever the records' total is positive the written and the guarded report agree |
| BuildDashboardData.FirstUnknownFacts | cloudwise_finops/reporter/tools/BuildDashboardData.py:54-56 | no name is reported exactly when all requested names are known, and a reported name is the first unknown one |
| BuildDashboardData.FindUnknown | cloudwise_finops/reporter/tools/BuildDashboardData.py:54-56 | the loop returns the first unknown chart name, or none |
| BuildDashboardData.ExpandFacts | cloudwise_finops/reporter/tools/BuildDashboardData.py:58-59 | once every name is known, the expanded request names only charts, and a chart is in it exactly when it or all was requested |
| BuildDashboardData.SharesSum | cloudwise_finops/reporter/tools/BuildDashboardData.py:218 | over a positive whole, the shares of some items add up to their summed cost as a percentage of it |
| BuildDashboardData.SharesOfWhole | cloudwise_finops/reporter/tools/BuildDashboardData.py:218 | the shares of items over their own positive sum make 100 |
| BuildDashboardData.RankingTotal | cloudwise_finops/reporter/tools/BuildDashboardData.py:195-202 | a descending ranking of a breakdown keeps its length and still sums to the total cost |
| BuildDashboardData.BreakdownNonEmpty | cloudwise_finops/reporter/tools/BuildDashboardData.py:195-199 | at least one record gives at least one breakdown entry |
| BuildDashboardData.SomePositive | cloudwise_finops/reporter/tools/BuildDashboardData.py:326-330 | items summing to more than zero include one costing more than zero |
| BuildDashboardData.FirstMax | cloudwise_finops/reporter/tools/BuildDashboardData.py:327 | max with a key returns an item no cheaper than any other, the first of the largest cost |
| BuildDashboardData.TopSlices | cloudwise_finops/reporter/tools/BuildDashboardData.py:201-202 | the first slices are at most ten of the services by decreasing cost, none cheaper than any service left out, the ranking a permutation of the breakdown |
| BuildDashboardData.SlicesFacts | cloudwise_finops/reporter/tools/BuildDashboardData.py:204-209 | the Other slice is the cost beyond the top ten and appears exactly when that is positive, never with ten services or fewer; with it the slices sum to the total |
| BuildDashboardData.KeyTotalNonNegative | cloudwise_finops/reporter/tools/BuildDashboardData.py:197-199 | with no negative cost, every breakdown entry is at least zero |
| BuildDashboardData.RankingNonNegative | cloudwise_finops/reporter/tools/BuildDashboardData.py:201-202 | with no negative cost, no entry of a ranked breakdown is below zero |
| BuildDashboardData.PieOfCosts | cloudwise_finops/reporter/tools/BuildDashboardData.py:193-225 | with no negative cost the slices sum to the total, and with a positive total their percentages make 100 |
| BuildDashboardData.BuildPie | cloudwise_finops/reporter/tools/BuildDashboardData.py:193-225 | the breakdown loop and the sort build exactly the guarded pie chart |
| BuildDashboardData.BarNames | cloudwise_finops/reporter/tools/BuildDashboardData.py:229-235 | one bar per provider name up to case, and a bar for every record's provider |
| BuildDashboardData.BarsUpperCase | cloudwise_finops/reporter/tools/BuildDashboardData.py:232-235 | every bar is labelled in upper case |
| BuildDashboardData.BarCosts | cloudwise_finops/reporter/tools/BuildDashboardData.py:227-237 | each bar costs the records of its provider; the bars sum to the total; one percentage per bar, making 100 over a positive total |
| BuildDashboardData.BuildBars | cloudwise_finops/reporter/tools/BuildDashboardData.py:227-255 | the provider loop builds exactly the guarded bar chart |
| BuildDashboardData.DatesFacts | cloudwise_finops/reporter/tools/BuildDashboardData.py:261 | the distinct dates are exactly the records' dates, no more of them than records |
| BuildDashboardData.TrendAverage | cloudwise_finops/reporter/tools/BuildDashboardData.py:257-272 | the average daily cost times the number of days counted is the total, which is also the month total |
| BuildDashboardData.TrendGrowth | cloudwise_finops/reporter/tools/BuildDashboardData.py:263-282 | the fixed month-over-month growth points up in amber and year-over-year growth up in red |
| BuildDashboardData.Spread | cloudwise_finops/reporter/tools/BuildDashboardData.py:261 | a total spread over at least one day and multiplied back is the total |
| BuildDashboardData.DistinctDates | cloudwise_finops/reporter/tools/BuildDashboardData.py:261 | the loop collects exactly the records' distinct dates |
| BuildDashboardData.BuildTrend | cloudwise_finops/reporter/tools/BuildDashboardData.py:257-284 | the trend loop builds exactly the trend indicators |
| BuildDashboardData.ShareAtMostWhole | cloudwise_finops/reporter/tools/BuildDashboardData.py:305 | a quotient by a positive number is at most 100 % of it exactly when the dividend is at most that number |
| BuildDashboardData.FirstMaxOfRanked | cloudwise_finops/reporter/tools/BuildDashboardData.py:295-305 | in a list ordered by decreasing cost the largest cost is the first |
| BuildDashboardData.RegionRankingFacts | cloudwise_finops/reporter/tools/BuildDashboardData.py:288-295 | the regions are ordered by decreasing cost, sum to the total, and the largest is the first |
| BuildDashboardData.HeatmapOrder | cloudwise_finops/reporter/tools/BuildDashboardData.py:286-309 | one cell per region in decreasing order of cost, with the region's name and cost, summing to the total |
| BuildDashboardData.CellsTop | cloudwise_finops/reporter/tools/BuildDashboardData.py:301-308 | over costs in decreasing order led by a positive one, the first cell is at 100 |
| BuildDashboardData.CellsBounded | cloudwise_finops/reporter/tools/BuildDashboardData.py:305 | when the largest cost is positive no cell is above 100 |
| BuildDashboardData.HeatmapIntensity | cloudwise_finops/reporter/tools/BuildDashboardData.py:286-314 | when the costliest region costs more than zero its cell is at 100 and none is above it |
| BuildDashboardData.BuildHeatmap | cloudwise_finops/reporter/tools/BuildDashboardData.py:286-314 | the region loop and the sort build exactly the guarded heatmap |
| BuildDashboardData.ConcentrationAppears | cloudwise_finops/reporter/tools/BuildDashboardData.py:320-336 | at most one concentration alert, present exactly when some service costs more than 40 % of a positive total |
| BuildDashboardData.ConcentrationSeverity | cloudwise_finops/reporter/tools/BuildDashboardData.py:326-336 | the alert names the first of the costliest services and is high exactly above 60 % of the total |
| BuildDashboardData.TopAbove | cloudwise_finops/reporter/tools/BuildDashboardData.py:327-330 | some item exceeds a bound exactly when the first costliest one does |
| BuildDashboardData.TaggingFacts | cloudwise_finops/reporter/tools/BuildDashboardData.py:338-354 | at most one tagging alert, present exactly when records without an environment tag cost more than a tenth of a positive total, carrying that cost and its percentage |
| BuildDashboardData.DashboardInsights | cloudwise_finops/reporter/tools/BuildDashboardData.py:316-356 | the insight loops compute exactly the dashboard insights |
| BuildDashboardData.Validate | cloudwise_finops/reporter/tools/BuildDashboardData.py:45-74 | the validation loop answers as the validation function |
| BuildDashboardData.Run | cloudwise_finops/reporter/tools/BuildDashboardData.py:43-141 | the tool's run, with its loops, answers as the corrected model of the tool |
| BuildDashboardData.BuildCharts | cloudwise_finops/reporter/tools/BuildDashboardData.py:76-136 | the chart builders produce exactly the guarded dashboard |
| BuildDashboardData.ValidatedOk | cloudwise_finops/reporter/tools/BuildDashboardData.py:45-74 | validation succeeds exactly for a known aggregation level, known chart names and a document with a non-empty records array |
| BuildDashboardData.ValidatedValue | cloudwise_finops/reporter/tools/BuildDashboardData.py:51-68 | a successful validation yields the document's records and the expanded request, every name of which was known |
| BuildDashboardData.UnknownChartFirst | cloudwise_finops/reporter/tools/BuildDashboardData.py:54-63 | an unknown chart name is reported, as a warning, before the JSON is looked at |
| BuildDashboardData.AssembleFacts | cloudwise_finops/reporter/tools/BuildDashboardData.py:76-136 | exactly the requested charts are built, so the chart count is the number of requested names; the record count and total are the records' |
| BuildDashboardData.ZeroCostFails | cloudwise_finops/reporter/tools/BuildDashboardData.py:99-101 | as written, a valid request for the breakdown over a record costing nothing fails on the division at line 218, while the guarded tool builds the dashboard |
| BuildDashboardData.AllRequested | cloudwise_finops/reporter/tools/BuildDashboardData.py:51 | chart types "all" parse to the single request all |
| BuildDashboardData.DailyAllZeroCost | cloudwise_finops/reporter/tools/BuildDashboardData.py:43-141 | the default request, daily and all charts, over one record costing nothing fails as written and succeeds when guarded |
| BuildDashboardData.SharesAgree | cloudwise_finops/reporter/tools/BuildDashboardData.py:218 | over a positive whole, guarded and unguarded shares agree |
| BuildDashboardData.TopRegionPositive | cloudwise_finops/reporter/tools/BuildDashboardData.py:305 | with a positive total the costliest region costs more than zero |
| BuildDashboardData.PieAgrees | cloudwise_finops/reporter/tools/BuildDashboardData.py:218 | over a positive total the written pie chart is the guarded one |
| BuildDashboardData.BarsAgree | cloudwise_finops/reporter/tools/BuildDashboardData.py:237 | over a positive total the written bar chart is the guarded one |
| BuildDashboardData.HeatmapAgrees | cloudwise_finops/reporter/tools/BuildDashboardData.py:305 | over a positive total the heatmap divides by a positive maximum and the written cells are the guarded ones |
| BuildDashboardData.ChartsAgree | cloudwise_finops/reporter/tools/BuildDashboardData.py:93-116 | with a positive total no requested chart divides by zero, and the written charts are the guarded ones |
| BuildDashboardData.AssembleAgrees | cloudwise_finops/reporter/tools/BuildDashboardData.py:76-136 | with a positive total the written dashboard is the guarded one |
| BuildDashboardData.AsWrittenAgrees | cloudwise_finops/reporter/tools/BuildDashboardData.py:43-141 | whenever the records' total is positive the written and the guarded tool agree |

## Left out

- JSON and YAML parsing, and reading the policy file in LoadBudgetPolicies: each tool's input is the parsed document as a datatype. Malformed JSON and a top level that is not an object are not modelled.
- Output formatting: `json.dumps`, the summary f-strings, the HTML and Markdown report templates, and `round(..., n)` to decimal places. Values are kept exact.
- Writing the report file in GenerateCostReport, and the rendering hints of the dashboard charts (colours, chart options).
- `datetime.now()` timestamps, generated ids, and the implementation instructions ScheduleReport prints.
- Date parsing with `strptime` and `fromisoformat`: a date is given as its text together with the day number it parses to.
- IEEE floating-point effects: every cost and percentage is an exact `real`, so rounding and overflow are not reproduced.
- BuildDashboardData.\_build\_timeseries: it buckets by `strftime`, and its weekly branch fails and is swallowed by a bare `except`.
- FetchGCPBillingExport's credential and environment-variable checks and the BigQuery client: the billing rows are a parameter, and the tool's three fixed rows are given as `SampleRows`.
- CacheCostSnapshot (a SQLite database), TriggerAlert (webhook lookup and Slack payload), FetchAWSCostExplorer and FetchAzureCostManagement (credential checks and fixed mock responses), IdentifyIdleResources (a fixed mock inventory built from the clock), CalculateBaseline and CreateForecast (floating-point statistics with square roots), and the agency and agent configuration files. These are not part of this model.
- JSON fields with a value of the wrong type (a string where a number is expected, a tag value that is not a string): a field is missing, present with its expected type, or, where the tool tests it, not a number. In particular, in NormalizeCostData a `breakdown`, `value` or `rows` that is an empty object or string iterates to nothing in Python and gives the no-records warning, whereas the model's `Invalid` list gives the not-iterable error; and in DetectTrendChange an entry of `cost_data` that is not an object cannot be represented.
- CalculateRISavings.GetPricing: the upfront cost is kept exact, while the tool rounds it to cents before the break-even and the risk score use it. A break-even within a rounding error of 6 or 12 months can therefore fall into the other recommendation or risk band (for example t3.medium on a 1-year term at 625.7 hours).
- Error and warning texts: the model keeps each message's fixed part and drops Python's interpolated exception details and some trailing advice sentences (CheckCompliance, SuggestSpotInstances, GenerateCostReport). A division by zero has one wording per tool ("division by zero" in GenerateCostReport, "float division by zero" in ClassifyAnomaly and BuildDashboardData), whereas Python's wording depends on whether the costs are JSON integers or floats, which the model does not tell apart.
- CrossProviderArbitrage.Comparison: the comparison table is sorted on the exact monthly cost, while the tool sorts on the cost rounded to cents. Two providers whose costs differ by less than a cent may therefore be ordered differently.
- ValidateAction.CheckApprovalRequirements: the tool de-duplicates approvers with `list(set(...))`, whose order Python leaves unspecified. The model keeps the first occurrence of each, in order, so only the set of approvers and its freedom from duplicates follow the source.
- Text.Lower, Text.Upper and Text.Strip (and LowerChars, UpperChars, StripSlice about them): only ASCII letters change case and only ASCII whitespace is stripped. Python also handles the rest of Unicode.

## Findings

| source | as written | input that shows it | evidently intended | confidence | as-written member | corrected member |
|---|---|---|---|---|---|---|
| cloudwise_finops/policy_engine/tools/ApproveAutomation.py:191-196 | the HIGH branch tests `risk == HIGH or cost >= 1000`, so a CRITICAL action of 1000 or more is routed to the engineering director alone | a CRITICAL action with a cost impact of 1000 | the else branch, commented CRITICAL, also asks the CFO for every CRITICAL action | not executed | ApproveAutomation.RouteAsWritten, ApproveAutomation.CostlyCriticalSkipsCfo | ApproveAutomation.Route, ApproveAutomation.RouteFacts |
| cloudwise_finops/anomaly_detector/tools/ClassifyAnomaly.py:114-118 | the major-contributor share divides by `current_value`, whose default is 0, so a breakdown with any positive cost raises ZeroDivisionError | a trend anomaly from DetectTrendChange (no `current_value`) with a service costing 100 | the anomaly is classified, here as a sustained trend | not executed | ClassifyAnomaly.ClassifyAnomalyAsWritten, ClassifyAnomaly.TrendAnomalyFails | ClassifyAnomaly.ClassifyAnomaly, ClassifyAnomaly.AsWrittenAgrees |
| cloudwise_finops/cloud_connector/tools/FetchGCPBillingExport.py:73 | `re.match` with a pattern ending in `$` also accepts a trailing newline | project filter "finops-prod\n" | such a filter is rejected as an invalid project id | not executed | FetchGCPBillingExport.FetchAsWritten, FetchGCPBillingExport.NewlineFilterReturnsNothing | FetchGCPBillingExport.Fetch, FetchGCPBillingExport.FetchAgrees |
| cloudwise_finops/reporter/tools/GenerateCostReport.py:172 | the top-five percentages divide by the total cost without a guard, so records that cost nothing in all end in an error | one record of cost 0 | a share of 0 %, as the guarded breakdowns give; a negative total (credits) also gives 0 %, because those guards test `total_cost > 0`; for the html and markdown formats the templates divide by the total at lines 270 and 298 as well, so the corrected tool stands for guarding all three divisions (the templates themselves are not modelled) | not executed | GenerateCostReport.GenerateAsWritten, GenerateCostReport.ZeroTotalFails | GenerateCostReport.Generate, GenerateCostReport.AsWrittenAgrees |
| cloudwise_finops/reporter/tools/BuildDashboardData.py:218 | the breakdown, provider and heatmap percentages divide by the total cost and by the top region's cost without the guard the insights use | the default request, daily with all charts, over one record of cost 0 | shares of 0 % and a dashboard; a negative total (credits) also gives 0 %, as the insights' `total_cost > 0` guards do | not executed | BuildDashboardData.BuildAsWritten, BuildDashboardData.DailyAllZeroCost | BuildDashboardData.Build, BuildDashboardData.AsWrittenAgrees |
