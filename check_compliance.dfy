/**
 * CheckCompliance: checks one resource against tagging, regional,
 * encryption, public-access and framework rules and scores the result.
 *
 * The per-rule checks loop over policies and append violations; each is a
 * method that is proved to build exactly the list its specification
 * function describes. `Check` is the tool's `run`.
 */
module CheckCompliance {
  import opened Outcomes
  import opened Values
  import opened Text
  import opened Seqs
  import opened Policies

  datatype Severity = Critical | High | Medium | Low

  datatype ViolationKind =
    | MissingTag(tag: string)
    | EmptyTag(tag: string)
    | RegionNotAllowed(region: string)
    | RegionBlocked(region: string)
    | RegionExplicitlyBlocked(region: string)
    | EncryptionDisabled
    | PublicAccessEnabled(resourceType: string)
    | HipaaAuditLoggingDisabled
    | PciNotInPrivateSubnet

  /** A violation: what is wrong, how bad it is, and the policy it breaks. */
  datatype Violation = Violation(kind: ViolationKind, severity: Severity, policy: string)

  /** The parsed `resource_data`; keys that the tool defaults are `None` when absent. */
  datatype Resource = Resource(
    tags: Option<Dict>,
    region: Option<string>,
    resourceType: Option<string>,
    encryption: Option<Value>,
    publicAccess: Option<Value>,
    auditLoggingEnabled: Option<Value>,
    privateSubnet: Option<Value>)

  datatype Report = Report(
    resourceId: string,
    resourceType: string,
    region: string,
    environment: Value,
    isCompliant: bool,
    score: int,
    frameworks: seq<string>,
    violations: seq<Violation>,
    criticalCount: nat,
    highCount: nat,
    mediumCount: nat,
    lowCount: nat,
    remediation: seq<Violation>)

  const ValidFrameworks: seq<string> := ["internal", "soc2", "hipaa", "pci", "gdpr", "all"]
  const DataStoreTypes: seq<string> := ["RDS", "S3", "EBS", "Database", "Storage"]

  // ---------------------------------------------------------------- tagging

  predicate IsTaggingPolicy(p: Policy)
  {
    p.rule == Some("all_resources_must_have_tags") || p.kind == Some("tagging")
  }

  /** A required tag is satisfied when present with a truthy value. */
  predicate TagSatisfied(tags: Dict, tag: string)
  {
    Lookup(tags, tag).Some? && Truthy(Lookup(tags, tag).value)
  }

  function TagCheck(tags: Dict, tag: string, policy: string): seq<Violation>
  {
    match Lookup(tags, tag)
    case None => [Violation(MissingTag(tag), High, policy)]
    case Some(v) => if !Truthy(v) then [Violation(EmptyTag(tag), Medium, policy)] else []
  }

  function RequiredTagViolations(tags: Dict, required: seq<string>, policy: string): seq<Violation>
  {
    if required == [] then []
    else RequiredTagViolations(tags, required[..|required| - 1], policy) + TagCheck(tags, required[|required| - 1], policy)
  }

  /** The violations `_check_tagging_compliance` reports. */
  function TaggingViolations(tags: Dict, policies: seq<Policy>): seq<Violation>
  {
    if policies == [] then []
    else
      var p := policies[|policies| - 1];
      TaggingViolations(tags, policies[..|policies| - 1])
        + (if IsTaggingPolicy(p) then RequiredTagViolations(tags, p.requiredTags, p.name.GetOr("tagging_policy")) else [])
  }

  /** The inner loop of `_check_tagging_compliance`: one policy's required tags. */
  method CheckRequiredTags(tags: Dict, required: seq<string>, name: string) returns (violations: seq<Violation>)
    ensures violations == RequiredTagViolations(tags, required, name)
  {
    violations := [];
    var j := 0;
    while j < |required|
      invariant 0 <= j <= |required|
      invariant violations == RequiredTagViolations(tags, required[..j], name)
    {
      var tag := required[j];
      var found := Lookup(tags, tag);
      if found.None? {
        violations := violations + [Violation(MissingTag(tag), High, name)];
      } else if !Truthy(found.value) {
        violations := violations + [Violation(EmptyTag(tag), Medium, name)];
      }
      assert required[..j + 1][..j] == required[..j];
      j := j + 1;
    }
    assert required[..j] == required;
  }

  method CheckTaggingCompliance(tags: Dict, policies: seq<Policy>) returns (violations: seq<Violation>)
    ensures violations == TaggingViolations(tags, policies)
  {
    violations := [];
    var i := 0;
    while i < |policies|
      invariant 0 <= i <= |policies|
      invariant violations == TaggingViolations(tags, policies[..i])
    {
      var policy := policies[i];
      if IsTaggingPolicy(policy) {
        var found := CheckRequiredTags(tags, policy.requiredTags, policy.name.GetOr("tagging_policy"));
        violations := violations + found;
      }
      assert policies[..i + 1][..i] == policies[..i];
      i := i + 1;
    }
    assert policies[..i] == policies;
  }

  /** Each tag violation is a missing tag (HIGH) or a present tag with an empty value (MEDIUM). */
  predicate TagViolationShape(tags: Dict, v: Violation)
  {
    (v.kind.MissingTag? && v.severity == High && !HasKey(tags, v.kind.tag))
    || (v.kind.EmptyTag? && v.severity == Medium && HasKey(tags, v.kind.tag) && !TagSatisfied(tags, v.kind.tag))
  }

  /** One tag's check reports nothing exactly when the tag is satisfied, and otherwise a violation of the right shape. */
  lemma TagCheckFacts(tags: Dict, tag: string, policy: string)
    ensures forall v :: v in TagCheck(tags, tag, policy) ==> TagViolationShape(tags, v)
    ensures TagCheck(tags, tag, policy) == [] <==> TagSatisfied(tags, tag)
  {
  }

  lemma {:induction false} RequiredTagViolationsFacts(tags: Dict, required: seq<string>, policy: string)
    ensures forall v :: v in RequiredTagViolations(tags, required, policy) ==> TagViolationShape(tags, v)
    ensures RequiredTagViolations(tags, required, policy) == [] <==> forall k :: 0 <= k < |required| ==> TagSatisfied(tags, required[k])
  {
    if required != [] {
      var init, tag := required[..|required| - 1], required[|required| - 1];
      RequiredTagViolationsFacts(tags, init, policy);
      TagCheckFacts(tags, tag, policy);
      assert RequiredTagViolations(tags, required, policy) == RequiredTagViolations(tags, init, policy) + TagCheck(tags, tag, policy);
      assert forall k :: 0 <= k < |init| ==> init[k] == required[k];
    }
  }

  /**
   * The tagging check reports nothing exactly when every required tag of
   * every tagging policy is present and non-empty; whatever it reports is
   * a missing tag (HIGH) or an empty one (MEDIUM).
   */
  lemma {:induction false} TaggingViolationsFacts(tags: Dict, policies: seq<Policy>)
    ensures forall v :: v in TaggingViolations(tags, policies) ==> TagViolationShape(tags, v)
    ensures TaggingViolations(tags, policies) == [] <==>
      forall i, k :: 0 <= i < |policies| && IsTaggingPolicy(policies[i]) && 0 <= k < |policies[i].requiredTags| ==>
        TagSatisfied(tags, policies[i].requiredTags[k])
  {
    if policies != [] {
      var init, p := policies[..|policies| - 1], policies[|policies| - 1];
      TaggingViolationsFacts(tags, init);
      RequiredTagViolationsFacts(tags, p.requiredTags, p.name.GetOr("tagging_policy"));
      assert forall i :: 0 <= i < |init| ==> init[i] == policies[i];
    }
  }

  // --------------------------------------------------------------- regional

  predicate IsRegionalPolicy(p: Policy)
  {
    p.kind == Some("compliance") || p.allowedRegions.Some?
  }

  /** A blocked pattern with a `*` blocks every region that starts with the pattern minus its `*`s; any other blocks itself. */
  predicate BlockedBy(region: string, pattern: string)
  {
    if '*' in pattern then StartsWith(region, RemoveAll(pattern, "*")) else region == pattern
  }

  function BlockedCheck(region: string, pattern: string, policy: string): seq<Violation>
  {
    if '*' in pattern then
      (if StartsWith(region, RemoveAll(pattern, "*")) then [Violation(RegionBlocked(region), Critical, policy)] else [])
    else if region == pattern then [Violation(RegionExplicitlyBlocked(region), Critical, policy)]
    else []
  }

  function BlockedViolations(region: string, patterns: seq<string>, policy: string): seq<Violation>
  {
    if patterns == [] then []
    else BlockedViolations(region, patterns[..|patterns| - 1], policy) + BlockedCheck(region, patterns[|patterns| - 1], policy)
  }

  function AllowedCheck(region: string, allowed: seq<string>, policy: string): seq<Violation>
  {
    if allowed != [] && region !in allowed then [Violation(RegionNotAllowed(region), Critical, policy)] else []
  }

  function PolicyRegionViolations(region: string, p: Policy): seq<Violation>
  {
    var name := p.name.GetOr("regional_policy");
    AllowedCheck(region, p.allowedRegions.GetOr([]), name) + BlockedViolations(region, p.blockedRegions, name)
  }

  /** The violations `_check_regional_compliance` reports. */
  function RegionalViolations(region: string, policies: seq<Policy>): seq<Violation>
  {
    if policies == [] then []
    else
      var p := policies[|policies| - 1];
      RegionalViolations(region, policies[..|policies| - 1])
        + (if IsRegionalPolicy(p) then PolicyRegionViolations(region, p) else [])
  }

  /** The blocked-pattern loop of `_check_regional_compliance` for one policy. */
  method CheckBlockedRegions(region: string, blocked: seq<string>, name: string) returns (violations: seq<Violation>)
    ensures violations == BlockedViolations(region, blocked, name)
  {
    violations := [];
    var j := 0;
    while j < |blocked|
      invariant 0 <= j <= |blocked|
      invariant violations == BlockedViolations(region, blocked[..j], name)
    {
      var pattern := blocked[j];
      assert blocked[..j + 1][..j] == blocked[..j];
      assert BlockedViolations(region, blocked[..j + 1], name)
        == BlockedViolations(region, blocked[..j], name) + BlockedCheck(region, pattern, name);
      if '*' in pattern {
        var prefix := RemoveAll(pattern, "*");
        if StartsWith(region, prefix) {
          violations := violations + [Violation(RegionBlocked(region), Critical, name)];
        }
      } else if region == pattern {
        violations := violations + [Violation(RegionExplicitlyBlocked(region), Critical, name)];
      }
      j := j + 1;
    }
    assert blocked[..j] == blocked;
  }

  /** One regional policy's checks: the allowed list, then the blocked patterns. */
  method CheckPolicyRegion(region: string, policy: Policy) returns (violations: seq<Violation>)
    ensures violations == PolicyRegionViolations(region, policy)
  {
    var name := policy.name.GetOr("regional_policy");
    var allowed := policy.allowedRegions.GetOr([]);
    violations := [];
    if allowed != [] && region !in allowed {
      violations := violations + [Violation(RegionNotAllowed(region), Critical, name)];
    }
    var blockedFound := CheckBlockedRegions(region, policy.blockedRegions, name);
    violations := violations + blockedFound;
  }

  method CheckRegionalCompliance(region: string, policies: seq<Policy>) returns (violations: seq<Violation>)
    ensures violations == RegionalViolations(region, policies)
  {
    violations := [];
    var i := 0;
    while i < |policies|
      invariant 0 <= i <= |policies|
      invariant violations == RegionalViolations(region, policies[..i])
    {
      var policy := policies[i];
      assert policies[..i + 1][..i] == policies[..i];
      if IsRegionalPolicy(policy) {
        var found := CheckPolicyRegion(region, policy);
        violations := violations + found;
      }
      i := i + 1;
    }
    assert policies[..i] == policies;
  }

  predicate AllCritical(vs: seq<Violation>)
  {
    forall k :: 0 <= k < |vs| ==> vs[k].severity == Critical
  }

  lemma BlockedCheckFacts(region: string, pattern: string, policy: string)
    ensures AllCritical(BlockedCheck(region, pattern, policy))
    ensures BlockedCheck(region, pattern, policy) == [] <==> !BlockedBy(region, pattern)
  {
  }

  lemma {:induction false} BlockedViolationsFacts(region: string, patterns: seq<string>, policy: string)
    ensures AllCritical(BlockedViolations(region, patterns, policy))
    ensures BlockedViolations(region, patterns, policy) == [] <==> forall k :: 0 <= k < |patterns| ==> !BlockedBy(region, patterns[k])
  {
    if patterns != [] {
      var init := patterns[..|patterns| - 1];
      var last := patterns[|patterns| - 1];
      BlockedViolationsFacts(region, init, policy);
      BlockedCheckFacts(region, last, policy);
      AllCriticalAppend(BlockedViolations(region, init, policy), BlockedCheck(region, last, policy));
      assert forall k :: 0 <= k < |init| ==> init[k] == patterns[k];
    }
  }

  /** A regional policy is satisfied when the region is allowed (or no list is given) and no blocked pattern matches it. */
  predicate RegionPermitted(region: string, p: Policy)
  {
    (p.allowedRegions.GetOr([]) == [] || region in p.allowedRegions.GetOr([]))
    && forall k :: 0 <= k < |p.blockedRegions| ==> !BlockedBy(region, p.blockedRegions[k])
  }

  lemma AllCriticalAppend(a: seq<Violation>, b: seq<Violation>)
    requires AllCritical(a) && AllCritical(b)
    ensures AllCritical(a + b)
  {
    assert forall k :: |a| <= k < |a + b| ==> (a + b)[k] == b[k - |a|];
  }

  /** One policy's violations are all CRITICAL, and there are none exactly when it permits the region. */
  lemma PolicyRegionFacts(region: string, p: Policy)
    ensures AllCritical(PolicyRegionViolations(region, p))
    ensures PolicyRegionViolations(region, p) == [] <==> RegionPermitted(region, p)
  {
    var name := p.name.GetOr("regional_policy");
    BlockedViolationsFacts(region, p.blockedRegions, name);
    AllCriticalAppend(AllowedCheck(region, p.allowedRegions.GetOr([]), name), BlockedViolations(region, p.blockedRegions, name));
  }

  /** Every regional violation is CRITICAL. */
  lemma {:induction false} RegionalAllCritical(region: string, policies: seq<Policy>)
    ensures AllCritical(RegionalViolations(region, policies))
  {
    if policies != [] {
      var init, p := policies[..|policies| - 1], policies[|policies| - 1];
      RegionalAllCritical(region, init);
      PolicyRegionFacts(region, p);
      AllCriticalAppend(RegionalViolations(region, init), if IsRegionalPolicy(p) then PolicyRegionViolations(region, p) else []);
    }
  }

  /** There are no regional violations exactly when every regional policy permits the region. */
  lemma {:induction false} RegionalNoneIff(region: string, policies: seq<Policy>)
    ensures RegionalViolations(region, policies) == [] <==>
      forall i :: 0 <= i < |policies| && IsRegionalPolicy(policies[i]) ==> RegionPermitted(region, policies[i])
  {
    if policies != [] {
      var init, p := policies[..|policies| - 1], policies[|policies| - 1];
      RegionalNoneIff(region, init);
      PolicyRegionFacts(region, p);
      assert forall i :: 0 <= i < |init| ==> init[i] == policies[i];
      assert RegionalViolations(region, policies) == [] <==>
        RegionalViolations(region, init) == [] && (IsRegionalPolicy(p) ==> PolicyRegionViolations(region, p) == []);
    }
  }

  /** A `*` anywhere in a blocked pattern is dropped and the remainder matched as a prefix: `ap-*` blocks `ap-south-1`. */
  lemma WildcardIsPrefix(region: string, pattern: string)
    requires '*' in pattern
    ensures BlockedBy(region, pattern) <==> StartsWith(region, RemoveAll(pattern, "*"))
    ensures '*' !in RemoveAll(pattern, "*")
  {
    RemoveAllChar(pattern, '*');
  }

  // ----------------------------------------------- encryption, access, frameworks

  function EncryptionViolations(encryption: Value, frameworks: seq<string>): seq<Violation>
  {
    if !Truthy(encryption) then
      var severity := if "hipaa" in frameworks || "pci" in frameworks || "soc2" in frameworks then Critical else High;
      [Violation(EncryptionDisabled, severity, "data_protection_policy")]
    else []
  }

  function PublicAccessViolations(publicAccess: Value, resourceType: string): seq<Violation>
  {
    if Truthy(publicAccess) then [Violation(PublicAccessEnabled(resourceType), Critical, "security_policy")] else []
  }

  function FrameworkViolations(resourceType: string, auditLogging: Value, privateSubnet: Value, frameworks: seq<string>): seq<Violation>
  {
    (if ("hipaa" in frameworks || "all" in frameworks) && !Truthy(auditLogging)
     then [Violation(HipaaAuditLoggingDisabled, Critical, "hipaa_compliance")] else [])
    + (if ("pci" in frameworks || "all" in frameworks) && resourceType in ["Database", "Storage"] && !Truthy(privateSubnet)
       then [Violation(PciNotInPrivateSubnet, Critical, "pci_dss_compliance")] else [])
  }

  predicate IsProduction(environment: Value)
  {
    environment == VStr("production") || environment == VStr("prod")
  }

  // ---------------------------------------------------------------- scoring

  function Points(s: Severity): nat
  {
    match s
    case Critical => 25
    case High => 10
    case Medium => 5
    case Low => 2
  }

  function Deductions(vs: seq<Violation>): nat
  {
    if vs == [] then 0 else Deductions(vs[..|vs| - 1]) + Points(vs[|vs| - 1].severity)
  }

  /** `max(0, 100 - total_deductions)`. */
  function Score(vs: seq<Violation>): int
  {
    if Deductions(vs) < 100 then 100 - Deductions(vs) else 0
  }

  lemma {:induction false} DeductionsAtLeast(vs: seq<Violation>)
    ensures Deductions(vs) >= 2 * |vs|
  {
    if vs != [] { DeductionsAtLeast(vs[..|vs| - 1]); }
  }

  /** The score lies in 0..100 and is 100 exactly when there is no violation. */
  lemma ScoreFacts(vs: seq<Violation>)
    ensures 0 <= Score(vs) <= 100
    ensures Score(vs) == 100 <==> vs == []
  {
    DeductionsAtLeast(vs);
  }

  function CountSeverity(vs: seq<Violation>, s: Severity): nat
  {
    if vs == [] then 0 else CountSeverity(vs[..|vs| - 1], s) + (if vs[|vs| - 1].severity == s then 1 else 0)
  }

  /** The four severity counts add up to the number of violations. */
  lemma {:induction false} SeverityCountsAddUp(vs: seq<Violation>)
    ensures CountSeverity(vs, Critical) + CountSeverity(vs, High) + CountSeverity(vs, Medium) + CountSeverity(vs, Low) == |vs|
  {
    if vs != [] { SeverityCountsAddUp(vs[..|vs| - 1]); }
  }

  // ------------------------------------------------------------------- run

  /** `[f.strip() for f in frameworks.split(",")]`. */
  function ParseFrameworks(arg: string): (r: seq<string>)
    ensures |r| >= 1 && |r| == |SplitOn(arg, ",")|
    ensures forall k :: 0 <= k < |r| ==> r[k] == Strip(SplitOn(arg, ",")[k])
  {
    var parts := SplitOn(arg, ",");
    seq(|parts|, i requires 0 <= i < |parts| => Strip(parts[i]))
  }

  /** The first framework that is not one of the valid names. */
  function FirstUnknown(frameworks: seq<string>): (r: Option<string>)
    ensures r.None? <==> forall k :: 0 <= k < |frameworks| ==> frameworks[k] in ValidFrameworks
    ensures r.Some? ==> r.value in frameworks && r.value !in ValidFrameworks
    ensures r.Some? ==> exists i :: (0 <= i < |frameworks| && frameworks[i] == r.value
      && forall j :: 0 <= j < i ==> frameworks[j] in ValidFrameworks)
  {
    if frameworks == [] then None
    else if frameworks[0] !in ValidFrameworks then Some(frameworks[0])
    else
      var rest := FirstUnknown(frameworks[1..]);
      assert forall k :: 1 <= k < |frameworks| ==> frameworks[k] == frameworks[1..][k - 1];
      if rest.Some? then
        var i :| 0 <= i < |frameworks[1..]| && frameworks[1..][i] == rest.value
          && forall j :: 0 <= j < i ==> frameworks[1..][j] in ValidFrameworks;
        assert frameworks[i + 1] == rest.value;
        assert forall j :: 0 <= j < i + 1 ==> frameworks[j] in ValidFrameworks;
        rest
      else rest
  }

  /** All violations, in the order the checks run. */
  function AllViolations(tags: Dict, region: string, resourceType: string, r: Resource,
                         frameworks: seq<string>, groups: PolicyGroups): seq<Violation>
  {
    var environment := Lookup(tags, "environment").GetOr(VStr("unknown"));
    TaggingViolations(tags, Group(groups, "compliance") + Group(groups, "tagging"))
    + RegionalViolations(region, Group(groups, "regional"))
    + (if resourceType in DataStoreTypes then EncryptionViolations(r.encryption.GetOr(VBool(false)), frameworks) else [])
    + (if IsProduction(environment) then PublicAccessViolations(r.publicAccess.GetOr(VBool(false)), resourceType) else [])
    + FrameworkViolations(resourceType, r.auditLoggingEnabled.GetOr(VBool(false)), r.privateSubnet.GetOr(VBool(false)), frameworks)
  }

  /** The tool's `run`: validation cascade, then the five checks and the score. */
  function Check(resourceId: string, r: Resource, frameworksArg: string, policies: Option<PolicyGroups>): Outcome<Report>
  {
    if r.tags.None? then Error("Missing required field 'tags' in resource_data")
    else if r.region.None? then Error("Missing required field 'region' in resource_data")
    else if r.resourceType.None? then Error("Missing required field 'resource_type' in resource_data")
    else if policies.None? then Error("policies parameter must contain 'policies' object")
    else if Group(policies.value, "compliance") == [] && Group(policies.value, "tagging") == [] then
      Warning("No compliance or tagging policies loaded")
    else
      var frameworks := ParseFrameworks(frameworksArg);
      match FirstUnknown(frameworks)
      case Some(f) => Warning("Unknown compliance framework '" + f + "'")
      case None =>
        var tags, region, resourceType := r.tags.value, r.region.value, r.resourceType.value;
        var vs := AllViolations(tags, region, resourceType, r, frameworks, policies.value);
        Ok(Report(
          resourceId, resourceType, region,
          Lookup(tags, "environment").GetOr(VStr("unknown")),
          vs == [], Score(vs), frameworks, vs,
          CountSeverity(vs, Critical), CountSeverity(vs, High), CountSeverity(vs, Medium), CountSeverity(vs, Low),
          Take(vs, 5)))
  }

  /**
   * The tool answers exactly when the three required fields and the policy
   * groups are present, some compliance or tagging policy is loaded and
   * every framework is valid; missing policies or an unknown framework is a
   * warning, and everything else an error.
   */
  lemma CheckAnswers(resourceId: string, r: Resource, frameworksArg: string, policies: Option<PolicyGroups>)
    ensures var fieldsOk := r.tags.Some? && r.region.Some? && r.resourceType.Some? && policies.Some?;
      var loaded := fieldsOk && (Group(policies.value, "compliance") != [] || Group(policies.value, "tagging") != []);
      && (Check(resourceId, r, frameworksArg, policies).Ok? <==>
            loaded && forall k :: 0 <= k < |ParseFrameworks(frameworksArg)| ==> ParseFrameworks(frameworksArg)[k] in ValidFrameworks)
      && (Check(resourceId, r, frameworksArg, policies).Error? <==> !fieldsOk)
  {
  }

  /**
   * HIPAA (or "all") without audit logging is a CRITICAL violation, and so
   * is PCI (or "all") for a Database or Storage resource outside a private
   * subnet; nothing else is reported by the framework check.
   */
  lemma FrameworkViolationsFacts(resourceType: string, auditLogging: Value, privateSubnet: Value, frameworks: seq<string>)
    ensures var vs := FrameworkViolations(resourceType, auditLogging, privateSubnet, frameworks);
      && AllCritical(vs)
      && (Violation(HipaaAuditLoggingDisabled, Critical, "hipaa_compliance") in vs <==>
            ("hipaa" in frameworks || "all" in frameworks) && !Truthy(auditLogging))
      && (Violation(PciNotInPrivateSubnet, Critical, "pci_dss_compliance") in vs <==>
            ("pci" in frameworks || "all" in frameworks) && resourceType in ["Database", "Storage"] && !Truthy(privateSubnet))
      && |vs| <= 2
  {
  }

  /**
   * A report is internally consistent: compliant exactly when the score is
   * 100, severity counts add up to the total, at most five remediation
   * steps taken from the front, and only valid frameworks checked.
   */
  lemma CheckReportFacts(resourceId: string, r: Resource, frameworksArg: string, policies: Option<PolicyGroups>)
    requires Check(resourceId, r, frameworksArg, policies).Ok?
    ensures var rep := Check(resourceId, r, frameworksArg, policies).value;
      && (rep.isCompliant <==> rep.violations == [])
      && (rep.isCompliant <==> rep.score == 100)
      && 0 <= rep.score <= 100
      && rep.criticalCount + rep.highCount + rep.mediumCount + rep.lowCount == |rep.violations|
      && rep.remediation <= rep.violations
      && |rep.remediation| == (if |rep.violations| < 5 then |rep.violations| else 5)
      && forall k :: 0 <= k < |rep.frameworks| ==> rep.frameworks[k] in ValidFrameworks
  {
    var rep := Check(resourceId, r, frameworksArg, policies).value;
    ScoreFacts(rep.violations);
    SeverityCountsAddUp(rep.violations);
  }

  /** An unencrypted data store is reported CRITICAL under HIPAA, PCI or SOC 2, and HIGH otherwise. */
  lemma UnencryptedDataStore(resourceId: string, r: Resource, frameworksArg: string, policies: Option<PolicyGroups>)
    requires Check(resourceId, r, frameworksArg, policies).Ok?
    requires r.resourceType.value in DataStoreTypes && !Truthy(r.encryption.GetOr(VBool(false)))
    ensures var rep := Check(resourceId, r, frameworksArg, policies).value;
      var fw := rep.frameworks;
      Violation(EncryptionDisabled, if "hipaa" in fw || "pci" in fw || "soc2" in fw then Critical else High, "data_protection_policy")
        in rep.violations
      && !rep.isCompliant
  {
  }

  /** A resource tagged as production with public access enabled always carries a CRITICAL public-access violation. */
  lemma PublicProductionResource(resourceId: string, r: Resource, frameworksArg: string, policies: Option<PolicyGroups>)
    requires Check(resourceId, r, frameworksArg, policies).Ok?
    requires IsProduction(Lookup(r.tags.value, "environment").GetOr(VStr("unknown")))
    requires Truthy(r.publicAccess.GetOr(VBool(false)))
    ensures var rep := Check(resourceId, r, frameworksArg, policies).value;
      Violation(PublicAccessEnabled(rep.resourceType), Critical, "security_policy") in rep.violations
      && rep.score <= 75
  {
    var rep := Check(resourceId, r, frameworksArg, policies).value;
    DeductionsMember(rep.violations, Violation(PublicAccessEnabled(rep.resourceType), Critical, "security_policy"));
  }

  /** A violation on the list costs at least its own points. */
  lemma {:induction false} DeductionsMember(vs: seq<Violation>, v: Violation)
    requires v in vs
    ensures Deductions(vs) >= Points(v.severity)
  {
    var init := vs[..|vs| - 1];
    if vs[|vs| - 1] != v {
      assert v in init by {
        var i :| 0 <= i < |vs| && vs[i] == v;
        assert init[i] == v;
      }
      DeductionsMember(init, v);
    }
  }
}
