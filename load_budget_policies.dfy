/**
 * LoadBudgetPolicies: sorts the policies of a parsed policy document into
 * the six categories the other tools read, keeping only those that apply
 * to the requested environment, and reports statistics and warnings.
 *
 * Reading and parsing the file are outside the model: the tool's input is
 * the file's extension and its parsed root.
 */
module LoadBudgetPolicies {
  import opened Outcomes
  import opened Text
  import opened Seqs
  import opened Policies

  const Categories: seq<string> := ["budget", "approval", "compliance", "automation", "regional", "tagging"]
  const Extensions: seq<string> := [".yaml", ".yml", ".json"]

  /** The parsed root of the policy file. Metadata keys default to "unknown". */
  datatype Root =
    | NotADict
    | Document(
        hasVersion: bool,
        version: Option<string>,
        lastUpdated: Option<string>,
        owner: Option<string>,
        policies: Option<seq<Policy>>)

  /** A policy without `environments` applies everywhere; otherwise it must list the environment or "all". */
  predicate Visible(p: Policy, env: string)
  {
    p.environments.None? || env in p.environments.value || "all" in p.environments.value
  }

  predicate InCategory(p: Policy, c: string, env: string)
  {
    p.kind == Some(c) && Visible(p, env)
  }

  /** A policy is loaded when its `type` is one of the six categories and it is visible. */
  predicate Loaded(p: Policy, env: string)
  {
    p.kind.Some? && p.kind.value in Categories && Visible(p, env)
  }

  /** Reference definition of the categorised policies: each category keeps its own visible policies, in file order. */
  function CategoryMap(policies: seq<Policy>, env: string): map<string, seq<Policy>>
  {
    map c | c in Categories :: Filter(policies, p => InCategory(p, c, env))
  }

  /** The categorisation loop of `run`. */
  method Categorize(policies: seq<Policy>, env: string) returns (cats: map<string, seq<Policy>>)
    ensures cats == CategoryMap(policies, env)
  {
    cats := map["budget" := [], "approval" := [], "compliance" := [], "automation" := [], "regional" := [], "tagging" := []];
    assert policies[..0] == [];
    EmptyCategoryMap(env);
    var i := 0;
    while i < |policies|
      invariant 0 <= i <= |policies|
      invariant cats == CategoryMap(policies[..i], env)
    {
      CategoryMapStep(policies, i, env);
      var policy := policies[i];
      var kind := policy.kind.GetOr("unknown");
      if kind in cats {
        if policy.environments.Some? {
          if env in policy.environments.value || "all" in policy.environments.value {
            cats := cats[kind := cats[kind] + [policy]];
          }
        } else {
          cats := cats[kind := cats[kind] + [policy]];
        }
      }
      i := i + 1;
    }
    assert policies[..i] == policies;
  }

  /**
   * One more policy joins its category's list when its type (or "unknown")
   * is a category and it applies to the environment, and changes nothing otherwise.
   */
  lemma CategoryMapStep(policies: seq<Policy>, i: nat, env: string)
    requires i < |policies|
    ensures var m := CategoryMap(policies[..i], env); var p := policies[i]; var kind := p.kind.GetOr("unknown");
      CategoryMap(policies[..i + 1], env) ==
        if kind in m && Visible(p, env) then m[kind := m[kind] + [p]] else m
  {
    var prefix := policies[..i + 1];
    assert prefix[..i] == policies[..i];
    var m := CategoryMap(policies[..i], env);
    var m' := CategoryMap(prefix, env);
    var p := policies[i];
    var kind := p.kind.GetOr("unknown");
    assert kind in m <==> p.kind.Some? && p.kind.value in Categories;
    var expected := if kind in m && Visible(p, env) then m[kind := m[kind] + [p]] else m;
    assert m'.Keys == expected.Keys;
    forall c | c in Categories
      ensures m'[c] == expected[c]
    {
      assert m'[c] == m[c] + (if InCategory(p, c, env) then [p] else []);
    }
  }

  /** With no policies read yet every category is empty. */
  lemma EmptyCategoryMap(env: string)
    ensures CategoryMap([], env) ==
      map["budget" := [], "approval" := [], "compliance" := [], "automation" := [], "regional" := [], "tagging" := []]
  {
    var m := CategoryMap([], env);
    var e: map<string, seq<Policy>> := map["budget" := [], "approval" := [], "compliance" := [], "automation" := [], "regional" := [], "tagging" := []];
    assert m.Keys == e.Keys;
  }

  /** `sum(len(cats) for cats in policy_categories.values())` over the given category names. */
  function SizeSum(cats: map<string, seq<Policy>>, names: seq<string>): nat
  {
    if names == [] then 0
    else (if names[0] in cats then |cats[names[0]]| else 0) + SizeSum(cats, names[1..])
  }

  /** Every loaded policy sits in exactly one category, so the six sizes add up to the number of loaded policies. */
  lemma {:induction false} LoadedCount(policies: seq<Policy>, env: string)
    ensures SizeSum(CategoryMap(policies, env), Categories) == |Filter(policies, p => Loaded(p, env))|
  {
    var m := CategoryMap(policies, env);
    var cs := Categories;
    assert cs[1..][1..][1..][1..][1..][1..] == [];
    assert SizeSum(m, cs[1..][1..][1..][1..][1..]) == |m["tagging"]|;
    assert SizeSum(m, cs[1..][1..][1..][1..]) == |m["regional"]| + |m["tagging"]|;
    assert SizeSum(m, cs[1..][1..][1..]) == |m["automation"]| + |m["regional"]| + |m["tagging"]|;
    assert SizeSum(m, cs[1..][1..]) == |m["compliance"]| + |m["automation"]| + |m["regional"]| + |m["tagging"]|;
    assert SizeSum(m, cs[1..]) == |m["approval"]| + |m["compliance"]| + |m["automation"]| + |m["regional"]| + |m["tagging"]|;
    SixWay(policies, env);
  }

  lemma {:induction false} SixWay(policies: seq<Policy>, env: string)
    ensures |Filter(policies, p => Loaded(p, env))| ==
      |Filter(policies, p => InCategory(p, "budget", env))| + |Filter(policies, p => InCategory(p, "approval", env))|
      + |Filter(policies, p => InCategory(p, "compliance", env))| + |Filter(policies, p => InCategory(p, "automation", env))|
      + |Filter(policies, p => InCategory(p, "regional", env))| + |Filter(policies, p => InCategory(p, "tagging", env))|
  {
    if policies != [] {
      SixWay(policies[..|policies| - 1], env);
    }
  }

  datatype LoadWarning = NoBudgetPolicies | NoApprovalPolicies

  datatype LoadResult = LoadResult(
    version: string,
    lastUpdated: string,
    owner: string,
    environment: string,
    categories: map<string, seq<Policy>>,
    totalPolicies: nat,
    byType: map<string, nat>,
    warnings: seq<LoadWarning>,
    valid: bool)

  const UnsupportedPrefix := "Unsupported policy file format '"
  const UnsupportedSuffix := "'"
  const NotADictMessage := "Policy file must contain a dictionary/object at root level."
  const NoVersionMessage := "Policy file missing 'version' field."
  const NoPoliciesMessage := "Policy file must contain 'policies' array/list."

  /** The tool's `run` on the file's extension and parsed contents. */
  method Load(extension: string, root: Root, env: string) returns (r: Outcome<LoadResult>)
    ensures r.Ok? <==> Lower(extension) in Extensions && root.Document? && root.hasVersion && root.policies.Some?
    ensures r.Warning? <==> Lower(extension) in Extensions && root.Document? && !root.hasVersion
    ensures r.Ok? ==>
      var res := r.value;
      var policies := root.policies.value;
      && res.categories == CategoryMap(policies, env)
      && res.totalPolicies == |Filter(policies, p => Loaded(p, env))|
      && (res.valid <==> res.totalPolicies > 0)
      && (forall c :: c in res.byType <==> c in Categories && res.categories[c] != [])
      && (forall c :: c in res.byType ==> res.byType[c] == |res.categories[c]|)
      && (NoBudgetPolicies in res.warnings <==> res.categories["budget"] == [])
      && (NoApprovalPolicies in res.warnings <==> res.categories["approval"] == [])
  {
    if Lower(extension) !in Extensions {
      return Error(UnsupportedPrefix + Lower(extension) + UnsupportedSuffix);
    }
    if root.NotADict? {
      return Error(NotADictMessage);
    }
    if !root.hasVersion {
      return Warning(NoVersionMessage);
    }
    if root.policies.None? {
      return Error(NoPoliciesMessage);
    }
    var policies := root.policies.value;
    var cats := Categorize(policies, env);
    var total := SizeSum(cats, Categories);
    LoadedCount(policies, env);
    var byType := map c | c in Categories && cats[c] != [] :: |cats[c]|;
    var warnings: seq<LoadWarning> := [];
    if cats["budget"] == [] {
      warnings := warnings + [NoBudgetPolicies];
    }
    if cats["approval"] == [] {
      warnings := warnings + [NoApprovalPolicies];
    }
    r := Ok(LoadResult(root.version.GetOr("unknown"), root.lastUpdated.GetOr("unknown"), root.owner.GetOr("unknown"),
      env, cats, total, byType, warnings, total > 0));
  }

  /** A policy is loaded into a category exactly when its type names that category and it applies to the environment. */
  lemma CategoryMembers(policies: seq<Policy>, env: string, c: string, p: Policy)
    requires c in Categories
    ensures p in CategoryMap(policies, env)[c] <==> p in policies && p.kind == Some(c) && Visible(p, env)
    ensures |CategoryMap(policies, env)[c]| <= |policies|
  {
    FilterMembers(policies, q => InCategory(q, c, env));
  }
}
