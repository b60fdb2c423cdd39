/**
 * EstimateSavings: merges the recommendations of the optimisation tools
 * into one plan. Recommendations are normalised, conflicts on the same
 * resource resolved by category precedence, savings totalled per category
 * and adjusted by a confidence factor, and the survivors ranked by return
 * on effort and split into three implementation phases.
 *
 * The normalisation, grouping, conflict resolution and per-category
 * accumulation are loops in the tool and methods here, each proved to
 * compute its specification function.
 */
module EstimateSavings {
  import opened Outcomes
  import opened Text
  import opened Seqs
  import opened Sorting

  // ---------------------------------------------------------- normalising

  /** One element of `recommendations_list` as parsed; number fields may fail `float(...)`. */
  datatype RawRec = RawRec(
    recommendationId: Option<string>,
    category: Option<string>,
    resourceId: Option<string>,
    monthlySavings: Field<real>,
    effortDays: Field<real>,
    riskLevel: Option<string>,
    description: Option<string>)

  datatype Input = NotAList | Items(recs: seq<RawRec>)

  datatype Rec = Rec(
    id: string,
    category: string,
    resourceId: string,
    savings: real,
    effort: real,
    risk: string,
    description: string)

  /** The checks and defaults applied to the recommendation at index `idx`. */
  function Normalize(raw: RawRec, idx: nat): (r: Outcome<Rec>)
    ensures !r.Warning?
    ensures r.Ok? <==> raw.category.Some? && raw.monthlySavings.Present? && !raw.effortDays.Invalid?
  {
    if raw.category.None? then Error("Recommendation " + NatToString(idx) + " missing required field 'category'")
    else if raw.monthlySavings.Absent? then Error("Recommendation " + NatToString(idx) + " missing required field 'monthly_savings'")
    else if raw.monthlySavings.Invalid? || raw.effortDays.Invalid? then Error("Error estimating savings: a numeric field is not a number")
    else
      Ok(Rec(
        raw.recommendationId.GetOr("rec_" + NatToString(idx)),
        raw.category.value,
        raw.resourceId.GetOr("unknown_" + NatToString(idx)),
        raw.monthlySavings.value,
        if raw.effortDays.Present? then raw.effortDays.value else 1.0,
        raw.riskLevel.GetOr("MEDIUM"),
        raw.description.GetOr(raw.category.value + " optimization")))
  }

  predicate AllNormalize(raws: seq<RawRec>)
  {
    forall k :: 0 <= k < |raws| ==> Normalize(raws[k], k).Ok?
  }

  /** `k` is the first index whose recommendation fails to normalise. */
  predicate FirstFailure(raws: seq<RawRec>, k: int)
  {
    0 <= k < |raws| && !Normalize(raws[k], k).Ok? && forall j :: 0 <= j < k ==> Normalize(raws[j], j).Ok?
  }

  function Normalized(raws: seq<RawRec>): (r: seq<Rec>)
    requires AllNormalize(raws)
    ensures |r| == |raws|
  {
    seq(|raws|, k requires 0 <= k < |raws| => Normalize(raws[k], k).value)
  }

  /** The normalisation loop: stops at the first recommendation that fails, with its error. */
  method NormalizeAll(raws: seq<RawRec>) returns (r: Outcome<seq<Rec>>)
    ensures r.Ok? <==> AllNormalize(raws)
    ensures r.Ok? ==> r.value == Normalized(raws)
    ensures !r.Ok? ==> r.Error?
    ensures !r.Ok? ==> exists k :: FirstFailure(raws, k) && Normalize(raws[k], k) == Error(r.msg)
  {
    var acc: seq<Rec> := [];
    var i := 0;
    while i < |raws|
      invariant 0 <= i <= |raws|
      invariant |acc| == i
      invariant forall k :: 0 <= k < i ==> Normalize(raws[k], k).Ok? && acc[k] == Normalize(raws[k], k).value
    {
      var n := Normalize(raws[i], i);
      if !n.Ok? {
        return Error(n.msg);
      }
      acc := acc + [n.value];
      i := i + 1;
    }
    return Ok(acc);
  }

  // ------------------------------------------------------------ conflicts

  function Ids(recs: seq<Rec>): (r: seq<string>)
    ensures |r| == |recs| && forall k :: 0 <= k < |recs| ==> r[k] == recs[k].resourceId
  {
    if recs == [] then [] else Ids(recs[..|recs| - 1]) + [recs[|recs| - 1].resourceId]
  }

  /** The resource ids in order of first appearance (the insertion order of `resource_map`). */
  function ResourceOrder(recs: seq<Rec>): seq<string>
  {
    Dedup(Ids(recs))
  }

  /** The recommendations for one resource, in input order. */
  function GroupOf(recs: seq<Rec>, id: string): seq<Rec>
  {
    if recs == [] then []
    else GroupOf(recs[..|recs| - 1], id) + (if recs[|recs| - 1].resourceId == id then [recs[|recs| - 1]] else [])
  }

  lemma {:induction false} GroupOfMembers(recs: seq<Rec>, id: string)
    ensures forall x :: x in GroupOf(recs, id) <==> x in recs && x.resourceId == id
    ensures id in Ids(recs) <==> GroupOf(recs, id) != []
  {
    if recs != [] {
      var init := recs[..|recs| - 1];
      GroupOfMembers(init, id);
      assert recs == init + [recs[|recs| - 1]];
      if id in Ids(recs) && recs[|recs| - 1].resourceId != id {
        var k :| 0 <= k < |recs| && Ids(recs)[k] == id;
        assert Ids(init)[k] == id;
      }
    }
  }

  /** One step of the grouping loop: `rec` joins its resource's group, which is created if new. */
  function AddToGroups(g: map<string, seq<Rec>>, rec: Rec): map<string, seq<Rec>>
  {
    g[rec.resourceId := (if rec.resourceId in g then g[rec.resourceId] else []) + [rec]]
  }

  /** The map the grouping loop builds: each id seen so far to its recommendations, in input order. */
  function GroupsOf(recs: seq<Rec>): map<string, seq<Rec>>
  {
    if recs == [] then map[] else AddToGroups(GroupsOf(recs[..|recs| - 1]), recs[|recs| - 1])
  }

  /** The ids of `prefix + [rec]` are those of `prefix`, then `rec`'s. */
  lemma IdsStep(prefix: seq<Rec>, rec: Rec)
    ensures Ids(prefix + [rec]) == Ids(prefix) + [rec.resourceId]
  {
    var next := prefix + [rec];
    assert next[..|prefix|] == prefix;
  }

  /** The order of first appearance grows by `rec`'s id exactly when that id is new. */
  lemma OrderStep(prefix: seq<Rec>, rec: Rec)
    ensures var order := Dedup(Ids(prefix));
      Dedup(Ids(prefix + [rec])) == if rec.resourceId in order then order else order + [rec.resourceId]
  {
    IdsStep(prefix, rec);
    var ids := Ids(prefix + [rec]);
    assert ids[..|ids| - 1] == Ids(prefix);
  }

  /** The map has a group for exactly the ids that occur. */
  lemma {:induction false} GroupsOfKeys(recs: seq<Rec>)
    ensures forall k :: k in GroupsOf(recs) <==> k in Ids(recs)
  {
    if recs != [] {
      var init := recs[..|recs| - 1];
      GroupsOfKeys(init);
      IdsStep(init, recs[|recs| - 1]);
      assert init + [recs[|recs| - 1]] == recs;
    }
  }

  /** Each group holds that resource's recommendations in input order. */
  lemma {:induction false} GroupsOfValues(recs: seq<Rec>)
    ensures forall k :: k in GroupsOf(recs) ==> GroupsOf(recs)[k] == GroupOf(recs, k)
  {
    if recs != [] {
      var init := recs[..|recs| - 1];
      GroupsOfValues(init);
      GroupsOfKeys(init);
      forall k | k in GroupsOf(recs)
        ensures GroupsOf(recs)[k] == GroupOf(recs, k)
      {
        var last := recs[|recs| - 1];
        assert GroupsOf(recs) == AddToGroups(GroupsOf(init), last);
        if k !in GroupsOf(init) {
          GroupOfMembers(init, k);
        }
      }
    }
  }

  /** What one iteration of the grouping loop does to the order and the map. */
  lemma GroupStep(recs: seq<Rec>, i: nat)
    requires i < |recs|
    ensures var id := recs[i].resourceId; var g := GroupsOf(recs[..i]);
      && ResourceOrder(recs[..i + 1]) == (if id in g then ResourceOrder(recs[..i]) else ResourceOrder(recs[..i]) + [id])
      && GroupsOf(recs[..i + 1]) == AddToGroups(g, recs[i])
  {
    assert recs[..i + 1][..i] == recs[..i];
    assert recs[..i + 1] == recs[..i] + [recs[i]];
    OrderStep(recs[..i], recs[i]);
    GroupsOfKeys(recs[..i]);
    DedupMembers(Ids(recs[..i]));
  }

  /** The grouping loop that fills `resource_map`. */
  method GroupByResource(recs: seq<Rec>) returns (order: seq<string>, groups: map<string, seq<Rec>>)
    ensures order == ResourceOrder(recs)
    ensures groups == GroupsOf(recs)
    ensures forall k :: k in groups <==> k in order
    ensures forall k :: k in groups ==> groups[k] == GroupOf(recs, k)
  {
    order := [];
    groups := map[];
    var i := 0;
    while i < |recs|
      invariant 0 <= i <= |recs|
      invariant order == ResourceOrder(recs[..i])
      invariant groups == GroupsOf(recs[..i])
    {
      GroupStep(recs, i);
      order := if recs[i].resourceId in groups then order else order + [recs[i].resourceId];
      groups := AddToGroups(groups, recs[i]);
      i := i + 1;
    }
    assert recs[..i] == recs;
    GroupsOfKeys(recs);
    GroupsOfValues(recs);
    DedupMembers(Ids(recs));
  }

  /** `precedence.get(category, 99)`: which kind of recommendation wins a conflict (smaller wins). */
  function Precedence(category: string): real
  {
    if category == "idle" then 1.0
    else if category == "arbitrage" then 2.0
    else if category == "rightsizing" then 3.0
    else if category == "spot" then 4.0
    else if category == "ri" then 5.0
    else 99.0
  }

  function PrecedenceOf(r: Rec): real
  {
    Precedence(r.category)
  }

  /** A surviving recommendation; `conflicts` is how many others for its resource it replaced (a note is attached when positive). */
  datatype Picked = Picked(rec: Rec, conflicts: nat)

  /** `sorted(recs, key=precedence)[0]`, with the size of the conflict. */
  function Pick(group: seq<Rec>): Picked
    requires group != []
  {
    SortByPermutes(group, PrecedenceOf);
    Picked(SortBy(group, PrecedenceOf)[0], |group| - 1)
  }

  function ResolveAll(recs: seq<Rec>, ids: seq<string>): (r: seq<Picked>)
    requires forall k :: 0 <= k < |ids| ==> ids[k] in Ids(recs)
    ensures |r| == |ids|
  {
    if ids == [] then []
    else
      var id := ids[|ids| - 1];
      GroupOfMembers(recs, id);
      ResolveAll(recs, ids[..|ids| - 1]) + [Pick(GroupOf(recs, id))]
  }

  /** `deduped_recommendations`: one pick per resource, in order of first appearance. */
  function Resolved(recs: seq<Rec>): seq<Picked>
  {
    ResolveAll(recs, ResourceOrder(recs))
  }

  lemma {:induction false} ResolveAllAt(recs: seq<Rec>, ids: seq<string>, k: nat)
    requires forall m :: 0 <= m < |ids| ==> ids[m] in Ids(recs)
    requires k < |ids|
    ensures GroupOf(recs, ids[k]) != []
    ensures ResolveAll(recs, ids)[k] == Pick(GroupOf(recs, ids[k]))
  {
    GroupOfMembers(recs, ids[k]);
    if k < |ids| - 1 {
      ResolveAllAt(recs, ids[..|ids| - 1], k);
    }
  }

  lemma ResolveStep(recs: seq<Rec>, ids: seq<string>, i: nat)
    requires forall m :: 0 <= m < |ids| ==> ids[m] in Ids(recs)
    requires i < |ids|
    ensures GroupOf(recs, ids[i]) != []
    ensures ResolveAll(recs, ids[..i + 1]) == ResolveAll(recs, ids[..i]) + [Pick(GroupOf(recs, ids[i]))]
  {
    assert ids[..i + 1][..i] == ids[..i];
    GroupOfMembers(recs, ids[i]);
  }

  /** A single recommendation for a resource is kept as it is. */
  lemma PickSingle(group: seq<Rec>)
    requires |group| == 1
    ensures Pick(group) == Picked(group[0], 0)
  {
    assert group[..0] == [];
    assert SortBy(group[..0], PrecedenceOf) == [];
    assert Insert([], group[0], PrecedenceOf) == [group[0]];
    assert SortBy(group, PrecedenceOf) == [group[0]];
  }

  /** The conflict-resolution loop over the groups. */
  method ResolveConflicts(recs: seq<Rec>) returns (deduped: seq<Picked>)
    ensures deduped == Resolved(recs)
  {
    var order, groups := GroupByResource(recs);
    DedupMembers(Ids(recs));
    deduped := [];
    var i := 0;
    while i < |order|
      invariant 0 <= i <= |order|
      invariant deduped == ResolveAll(recs, order[..i])
    {
      var group := groups[order[i]];
      ResolveStep(recs, order, i);
      if |group| == 1 {
        PickSingle(group);
        deduped := deduped + [Picked(group[0], 0)];
      } else {
        SortByPermutes(group, PrecedenceOf);
        var sortedRecs := SortBy(group, PrecedenceOf);
        deduped := deduped + [Picked(sortedRecs[0], |group| - 1)];
      }
      i := i + 1;
    }
    assert order[..i] == order;
  }

  /**
   * The pick of a group is one of its recommendations with the smallest
   * precedence, the first such in the group, and counts the others as
   * conflicts.
   */
  lemma PickFacts(g: seq<Rec>)
    requires g != []
    ensures var p := Pick(g);
      && p.rec in g
      && p.conflicts == |g| - 1
      && (forall x :: x in g ==> PrecedenceOf(p.rec) <= PrecedenceOf(x))
      && (exists j :: 0 <= j < |g| && g[j] == p.rec && forall i :: 0 <= i < j ==> PrecedenceOf(g[i]) > PrecedenceOf(p.rec))
  {
    SortByFirst(g, PrecedenceOf);
    forall x | x in g
      ensures PrecedenceOf(SortBy(g, PrecedenceOf)[0]) <= PrecedenceOf(x)
    {
      var m :| 0 <= m < |g| && g[m] == x;
    }
  }

  /** There is one pick per distinct resource id, and every recommendation's id is among them. */
  lemma ResolvedShape(recs: seq<Rec>)
    ensures |Resolved(recs)| == |ResourceOrder(recs)| <= |recs|
    ensures Distinct(ResourceOrder(recs))
    ensures forall m :: 0 <= m < |recs| ==> recs[m].resourceId in ResourceOrder(recs)
  {
    DedupLength(Ids(recs));
    forall m | 0 <= m < |recs|
      ensures recs[m].resourceId in ResourceOrder(recs)
    {
      assert Ids(recs)[m] == recs[m].resourceId;
    }
  }

  /**
   * After resolution the pick at position `k` belongs to the `k`-th
   * distinct resource id: it is one of that resource's recommendations
   * with the smallest precedence, the first such in input order, and
   * records how many others it replaced.
   */
  lemma ResolvedFacts(recs: seq<Rec>, k: nat)
    requires k < |ResourceOrder(recs)|
    ensures var id := ResourceOrder(recs)[k];
      var g := GroupOf(recs, id);
      var p := Resolved(recs)[k];
      && p.rec in recs && p.rec.resourceId == id
      && p.conflicts == |g| - 1
      && (forall x :: x in recs && x.resourceId == id ==> PrecedenceOf(p.rec) <= PrecedenceOf(x))
      && (exists j :: 0 <= j < |g| && g[j] == p.rec && forall i :: 0 <= i < j ==> PrecedenceOf(g[i]) > PrecedenceOf(p.rec))
  {
    var order := ResourceOrder(recs);
    var id := order[k];
    ResolveAllAt(recs, order, k);
    GroupOfMembers(recs, id);
    PickFacts(GroupOf(recs, id));
  }

  // ------------------------------------------------------ category totals

  datatype CategoryTotal = CategoryTotal(count: nat, monthly: real, annual: real, effortDays: real)

  const NoTotal := CategoryTotal(0, 0.0, 0.0, 0.0)

  /** Adds one recommendation to its category's entry. */
  function Accumulate(t: CategoryTotal, r: Rec): CategoryTotal
  {
    CategoryTotal(t.count + 1, t.monthly + r.savings, t.annual + r.savings * 12.0, t.effortDays + r.effort)
  }

  /** The accumulated entry of `category_totals` for category `c`. */
  function CatTotal(ps: seq<Picked>, c: string): CategoryTotal
  {
    if ps == [] then NoTotal
    else
      var t := CatTotal(ps[..|ps| - 1], c);
      var r := ps[|ps| - 1].rec;
      if r.category == c then Accumulate(t, r) else t
  }

  function CatsOf(ps: seq<Picked>): (r: seq<string>)
    ensures |r| == |ps| && forall k :: 0 <= k < |ps| ==> r[k] == ps[k].rec.category
  {
    if ps == [] then [] else CatsOf(ps[..|ps| - 1]) + [ps[|ps| - 1].rec.category]
  }

  /** One step of the accumulation loop: `r` is added to its category's entry, which is created if new. */
  function AddToTotals(t: map<string, CategoryTotal>, r: Rec): map<string, CategoryTotal>
  {
    t[r.category := Accumulate(if r.category in t then t[r.category] else NoTotal, r)]
  }

  /** The map the accumulation loop builds: each category seen so far to its entry. */
  function TotalsOf(ps: seq<Picked>): map<string, CategoryTotal>
  {
    if ps == [] then map[] else AddToTotals(TotalsOf(ps[..|ps| - 1]), ps[|ps| - 1].rec)
  }

  /** The categories of `prefix + [p]` are those of `prefix`, then `p`'s. */
  lemma CatsStep(prefix: seq<Picked>, p: Picked)
    ensures CatsOf(prefix + [p]) == CatsOf(prefix) + [p.rec.category]
  {
    var next := prefix + [p];
    assert next[..|prefix|] == prefix;
  }

  /** The order of first appearance grows by `p`'s category exactly when that category is new. */
  lemma CatOrderStep(prefix: seq<Picked>, p: Picked)
    ensures var order := Dedup(CatsOf(prefix));
      Dedup(CatsOf(prefix + [p])) == if p.rec.category in order then order else order + [p.rec.category]
  {
    CatsStep(prefix, p);
    var cats := CatsOf(prefix + [p]);
    assert cats[..|cats| - 1] == CatsOf(prefix);
  }

  /** The map has an entry for exactly the categories that occur. */
  lemma {:induction false} TotalsOfKeys(ps: seq<Picked>)
    ensures forall c :: c in TotalsOf(ps) <==> c in CatsOf(ps)
  {
    if ps != [] {
      var init := ps[..|ps| - 1];
      TotalsOfKeys(init);
      CatsStep(init, ps[|ps| - 1]);
      assert init + [ps[|ps| - 1]] == ps;
    }
  }

  /** A category absent from the map has no recommendation. */
  lemma {:induction false} CatTotalAbsent(ps: seq<Picked>, c: string)
    requires c !in CatsOf(ps)
    ensures CatTotal(ps, c) == NoTotal
  {
    if ps != [] {
      var init := ps[..|ps| - 1];
      CatsStep(init, ps[|ps| - 1]);
      assert init + [ps[|ps| - 1]] == ps;
      CatTotalAbsent(init, c);
    }
  }

  /** Each entry totals that category's recommendations. */
  lemma {:induction false} TotalsOfValues(ps: seq<Picked>)
    ensures forall c :: c in TotalsOf(ps) ==> TotalsOf(ps)[c] == CatTotal(ps, c)
  {
    if ps != [] {
      var init := ps[..|ps| - 1];
      TotalsOfValues(init);
      TotalsOfKeys(init);
      var c := ps[|ps| - 1].rec.category;
      if c !in TotalsOf(init) {
        CatTotalAbsent(init, c);
      }
    }
  }

  /** `category_totals`: an entry for each category that occurs. */
  function CategoryTotals(ps: seq<Picked>): map<string, CategoryTotal>
  {
    map c | c in Dedup(CatsOf(ps)) :: CatTotal(ps, c)
  }

  /** The loop's map is the comprehension over the categories. */
  lemma TotalsOfIsCategoryTotals(ps: seq<Picked>)
    ensures TotalsOf(ps) == CategoryTotals(ps)
  {
    TotalsOfKeys(ps);
    TotalsOfValues(ps);
    DedupMembers(CatsOf(ps));
    assert TotalsOf(ps).Keys == CategoryTotals(ps).Keys;
  }

  /** What one iteration of the accumulation loop does to the order and the map. */
  lemma TotalStep(ps: seq<Picked>, i: nat)
    requires i < |ps|
    ensures var c := ps[i].rec.category; var t := TotalsOf(ps[..i]);
      && Dedup(CatsOf(ps[..i + 1])) == (if c in t then Dedup(CatsOf(ps[..i])) else Dedup(CatsOf(ps[..i])) + [c])
      && TotalsOf(ps[..i + 1]) == AddToTotals(t, ps[i].rec)
  {
    assert ps[..i + 1][..i] == ps[..i];
    assert ps[..i + 1] == ps[..i] + [ps[i]];
    CatOrderStep(ps[..i], ps[i]);
    TotalsOfKeys(ps[..i]);
    DedupMembers(CatsOf(ps[..i]));
  }

  /** The accumulation loop of `category_totals`; categories keep their order of first appearance. */
  method TotalByCategory(ps: seq<Picked>) returns (order: seq<string>, totals: map<string, CategoryTotal>)
    ensures order == Dedup(CatsOf(ps))
    ensures totals == CategoryTotals(ps)
  {
    order := [];
    totals := map[];
    var i := 0;
    while i < |ps|
      invariant 0 <= i <= |ps|
      invariant order == Dedup(CatsOf(ps[..i]))
      invariant totals == TotalsOf(ps[..i])
    {
      TotalStep(ps, i);
      order := if ps[i].rec.category in totals then order else order + [ps[i].rec.category];
      totals := AddToTotals(totals, ps[i].rec);
      i := i + 1;
    }
    assert ps[..i] == ps;
    TotalsOfIsCategoryTotals(ps);
  }

  /** `avg_implementation_days` (before rounding). */
  function AverageDays(t: CategoryTotal): real
  {
    if t.count > 0 then t.effortDays / t.count as real else 0.0
  }

  function Savings(p: Picked): real
  {
    p.rec.savings
  }

  function Effort(p: Picked): real
  {
    p.rec.effort
  }

  function CountOver(ps: seq<Picked>, cats: seq<string>): nat
  {
    if cats == [] then 0 else CountOver(ps, cats[..|cats| - 1]) + CatTotal(ps, cats[|cats| - 1]).count
  }

  function MonthlyOver(ps: seq<Picked>, cats: seq<string>): real
  {
    if cats == [] then 0.0 else MonthlyOver(ps, cats[..|cats| - 1]) + CatTotal(ps, cats[|cats| - 1]).monthly
  }

  /** How often `x` occurs in `s`. */
  function Occurrences(s: seq<string>, x: string): nat
  {
    if s == [] then 0 else Occurrences(s[..|s| - 1], x) + (if s[|s| - 1] == x then 1 else 0)
  }

  lemma {:induction false} OccursOnce(s: seq<string>, x: string)
    requires Distinct(s) && x in s
    ensures Occurrences(s, x) == 1
  {
    var init := s[..|s| - 1];
    assert Distinct(init);
    if s[|s| - 1] == x {
      OccursNot(init, x);
    } else {
      assert x in init by {
        var k :| 0 <= k < |s| && s[k] == x;
        assert init[k] == x;
      }
      OccursOnce(init, x);
    }
  }

  lemma {:induction false} OccursNot(s: seq<string>, x: string)
    requires x !in s
    ensures Occurrences(s, x) == 0
  {
    if s != [] {
      assert s[..|s| - 1][..] <= s;
      OccursNot(s[..|s| - 1], x);
    }
  }

  lemma {:induction false} OverEmpty(cats: seq<string>)
    ensures CountOver([], cats) == 0 && MonthlyOver([], cats) == 0.0
  {
    if cats != [] { OverEmpty(cats[..|cats| - 1]); }
  }

  /** `n` copies of `x` added up. */
  function Times(n: nat, x: real): real
  {
    if n == 0 then 0.0 else Times(n - 1, x) + x
  }

  /** Adding one recommendation adds it to every listed category that is its own. */
  lemma {:induction false} OverStep(ps: seq<Picked>, cats: seq<string>)
    requires ps != []
    ensures var last := ps[|ps| - 1].rec;
      var n := Occurrences(cats, last.category);
      && CountOver(ps, cats) == CountOver(ps[..|ps| - 1], cats) + n
      && MonthlyOver(ps, cats) == MonthlyOver(ps[..|ps| - 1], cats) + Times(n, last.savings)
  {
    if cats != [] { OverStep(ps, cats[..|cats| - 1]); }
  }

  /**
   * The categories partition the recommendations: over a list naming each
   * category once, the counts add up to the number of recommendations and
   * the monthly totals to their total savings.
   */
  lemma {:induction false} CategoriesPartition(ps: seq<Picked>, cats: seq<string>)
    requires Distinct(cats)
    requires forall k :: 0 <= k < |ps| ==> ps[k].rec.category in cats
    ensures CountOver(ps, cats) == |ps|
    ensures MonthlyOver(ps, cats) == SumOf(ps, Savings)
  {
    if ps == [] {
      OverEmpty(cats);
    } else {
      var init := ps[..|ps| - 1];
      CategoriesPartition(init, cats);
      OverStep(ps, cats);
      OccursOnce(cats, ps[|ps| - 1].rec.category);
    }
  }

  // ------------------------------------------------------ ranking and plan

  /** `roi_score`: confidence-adjusted savings per week of effort, or ten times the savings for no (or negative) effort. */
  function Roi(p: Picked, confidence: real): real
  {
    var adjusted := AdjustedSavings(p, confidence);
    var weeks := p.rec.effort / 5.0;
    if weeks > 0.0 then adjusted / weeks else adjusted * 10.0
  }

  function RoiKey(confidence: real): Picked -> real
  {
    p => Roi(p, confidence)
  }

  /** `x * factor`, the confidence adjustment. */
  function Scaled(x: real, factor: real): real
  {
    x * factor
  }

  /** The confidence-adjusted monthly savings of one recommendation. */
  function AdjustedSavings(p: Picked, confidence: real): real
  {
    Scaled(p.rec.savings, confidence)
  }

  function Adjusted(confidence: real): Picked -> real
  {
    p => AdjustedSavings(p, confidence)
  }

  /** A quick win: at least 100 a month after adjustment, for at most five days of effort. */
  predicate QuickWin(p: Picked, confidence: real)
  {
    AdjustedSavings(p, confidence) >= 100.0 && p.rec.effort <= 5.0
  }

  function IsQuickWin(confidence: real): Picked -> bool
  {
    p => QuickWin(p, confidence)
  }

  predicate LowEffort(p: Picked)
  {
    p.rec.effort <= 5.0
  }

  predicate MediumEffort(p: Picked)
  {
    5.0 < p.rec.effort <= 15.0
  }

  function NotAmong(xs: seq<Picked>): Picked -> bool
  {
    p => p !in xs
  }

  function Phase1(prioritized: seq<Picked>): seq<Picked>
  {
    Take(Filter(prioritized, LowEffort), 10)
  }

  function Phase2(prioritized: seq<Picked>): seq<Picked>
  {
    Take(Filter(Filter(prioritized, MediumEffort), NotAmong(Phase1(prioritized))), 10)
  }

  function Phase3(prioritized: seq<Picked>): seq<Picked>
  {
    Filter(Filter(prioritized, NotAmong(Phase1(prioritized))), NotAmong(Phase2(prioritized)))
  }

  datatype PhaseKind = QuickWinsWeek1 | MediumEffortWeeks2To4 | StrategicMonth2

  /** A phase of the plan: its recommendations, their adjusted savings, and the first five shown as actions. */
  datatype Phase = Phase(kind: PhaseKind, recs: seq<Picked>, monthlySavings: real, shown: seq<Picked>)

  function MakePhase(kind: PhaseKind, recs: seq<Picked>, confidence: real): Phase
  {
    Phase(kind, recs, SumOf(recs, Adjusted(confidence)), Take(recs, 5))
  }

  /** `_create_phased_plan`: the three phases, each only when it is not empty. */
  function PhasedPlan(prioritized: seq<Picked>, confidence: real): seq<Phase>
  {
    var p1, p2, p3 := Phase1(prioritized), Phase2(prioritized), Phase3(prioritized);
    (if p1 != [] then [MakePhase(QuickWinsWeek1, p1, confidence)] else [])
    + (if p2 != [] then [MakePhase(MediumEffortWeeks2To4, p2, confidence)] else [])
    + (if p3 != [] then [MakePhase(StrategicMonth2, p3, confidence)] else [])
  }

  lemma TakeMembers(s: seq<Picked>, n: nat, x: Picked)
    requires x in Take(s, n)
    ensures x in s
  {
    var k :| 0 <= k < |Take(s, n)| && Take(s, n)[k] == x;
    assert s[k] == x;
  }

  /**
   * The phases partition the ranked list: every recommendation is in
   * exactly one phase and every phase member is ranked. Phase 1 holds at
   * most ten low-effort ones, phase 2 at most ten medium-effort ones.
   */
  lemma PhasesPartition(prioritized: seq<Picked>, x: Picked)
    ensures |Phase1(prioritized)| <= 10 && |Phase2(prioritized)| <= 10
    ensures x in Phase1(prioritized) ==> LowEffort(x)
    ensures x in Phase2(prioritized) ==> MediumEffort(x)
    ensures x in Phase1(prioritized) || x in Phase2(prioritized) || x in Phase3(prioritized) ==> x in prioritized
    ensures x in prioritized ==>
      (if x in Phase1(prioritized) then 1 else 0) + (if x in Phase2(prioritized) then 1 else 0)
      + (if x in Phase3(prioritized) then 1 else 0) == 1
  {
    var p1, p2 := Phase1(prioritized), Phase2(prioritized);
    var low := Filter(prioritized, LowEffort);
    var mid := Filter(prioritized, MediumEffort);
    var midRest := Filter(mid, NotAmong(p1));
    var rest := Filter(prioritized, NotAmong(p1));
    FilterMembers(prioritized, LowEffort);
    FilterMembers(prioritized, MediumEffort);
    FilterMembers(mid, NotAmong(p1));
    FilterMembers(prioritized, NotAmong(p1));
    FilterMembers(rest, NotAmong(p2));
    if x in p1 { TakeMembers(low, 10, x); }
    if x in p2 { TakeMembers(midRest, 10, x); }
  }

  // ------------------------------------------------------------------ run

  datatype SavingsEstimate = SavingsEstimate(
    deduped: seq<Picked>,
    conflictsResolved: int,
    rawMonthly: real,
    rawAnnual: real,
    adjustedMonthly: real,
    adjustedAnnual: real,
    effortDays: real,
    effortWeeks: real,
    categoryOrder: seq<string>,
    categories: map<string, CategoryTotal>,
    quickWinCount: nat,
    quickWinSavings: real,
    quickWinsShown: seq<Picked>,
    prioritized: seq<Picked>,
    topActions: seq<Picked>,
    phases: seq<Phase>)

  /** The tool's result for normalised recommendations, before rounding and formatting. */
  function Summarize(recs: seq<Rec>, confidence: real): SavingsEstimate
  {
    var deduped := Resolved(recs);
    Summary(|recs|, deduped, Dedup(CatsOf(deduped)), CategoryTotals(deduped), confidence)
  }

  /** The result built from the number of recommendations, the survivors of conflict resolution and their category totals. */
  function Summary(count: nat, deduped: seq<Picked>, order: seq<string>, totals: map<string, CategoryTotal>, confidence: real): SavingsEstimate
  {
    var raw := SumOf(deduped, Savings);
    var adjusted := Scaled(raw, confidence);
    var days := SumOf(deduped, Effort);
    var prioritized := SortByDescending(deduped, RoiKey(confidence));
    var quick := Filter(prioritized, IsQuickWin(confidence));
    SavingsEstimate(
      deduped, count - |deduped|, raw, raw * 12.0, adjusted, adjusted * 12.0, days, days / 5.0,
      order, totals, |quick|, SumOf(quick, Adjusted(confidence)), Take(quick, 5),
      prioritized, Take(prioritized, 15), PhasedPlan(prioritized, confidence))
  }

  /**
   * The summary counts one recommendation per resource and never more
   * conflicts than recommendations; its categories partition the
   * survivors, by count and by monthly savings; the adjusted figures are
   * the raw ones scaled by the confidence, never more than the raw ones
   * when no saving is negative.
   */
  lemma SummaryFacts(recs: seq<Rec>, confidence: real)
    requires 0.0 <= confidence <= 1.0
    ensures var e := Summarize(recs, confidence);
      && |e.deduped| == |ResourceOrder(recs)|
      && 0 <= e.conflictsResolved == |recs| - |e.deduped|
      && (forall c :: c in e.categories <==> c in e.categoryOrder)
      && (forall c :: c in e.categories ==> e.categories[c] == CatTotal(e.deduped, c))
      && Distinct(e.categoryOrder)
      && CountOver(e.deduped, e.categoryOrder) == |e.deduped|
      && MonthlyOver(e.deduped, e.categoryOrder) == e.rawMonthly
      && e.adjustedMonthly == Scaled(e.rawMonthly, confidence)
      && e.adjustedAnnual == e.adjustedMonthly * 12.0
      && e.effortWeeks * 5.0 == e.effortDays
      && (e.rawMonthly >= 0.0 ==> e.adjustedMonthly <= e.rawMonthly)
      && |e.topActions| <= 15 && |e.quickWinsShown| <= 5 && |e.phases| <= 3
  {
    var deduped := Resolved(recs);
    var order := Dedup(CatsOf(deduped));
    ResolvedShape(recs);
    CategoriesCover(deduped);
    CategoriesPartition(deduped, order);
    ScaledDown(SumOf(deduped, Savings), confidence);
  }

  /** Every survivor's category is listed in the category order. */
  lemma CategoriesCover(deduped: seq<Picked>)
    ensures forall k :: 0 <= k < |deduped| ==> deduped[k].rec.category in Dedup(CatsOf(deduped))
  {
    forall k | 0 <= k < |deduped|
      ensures deduped[k].rec.category in Dedup(CatsOf(deduped))
    {
      assert CatsOf(deduped)[k] == deduped[k].rec.category;
    }
  }

  /** A confidence of at most one never increases a saving, and never makes it negative. */
  lemma ScaledDown(x: real, factor: real)
    requires 0.0 <= factor <= 1.0
    ensures x >= 0.0 ==> 0.0 <= Scaled(x, factor) <= x
  {
  }

  /** The tool's `run`. */
  method Estimate(input: Input, confidence: real) returns (r: Outcome<SavingsEstimate>)
    ensures r.Warning? <==> input.Items? && input.recs == []
    ensures r.Ok? <==> input.Items? && input.recs != [] && 0.0 <= confidence <= 1.0 && AllNormalize(input.recs)
    ensures r.Ok? ==> r.value == Summarize(Normalized(input.recs), confidence)
  {
    if input.NotAList? {
      return Error("recommendations_list must be JSON array of recommendation objects.");
    }
    if input.recs == [] {
      return Warning("No recommendations provided. Total savings: $0.");
    }
    if !(0.0 <= confidence <= 1.0) {
      return Error("confidence_adjustment must be between 0.0 and 1.0.");
    }
    var normalized := NormalizeAll(input.recs);
    if !normalized.Ok? {
      return Error(normalized.msg);
    }
    var recs := normalized.value;
    var deduped := ResolveConflicts(recs);
    var order, totals := TotalByCategory(deduped);
    r := Ok(Summary(|recs|, deduped, order, totals, confidence));
  }

  /**
   * The ranking orders the survivors by ROI, best first, keeps them all,
   * and keeps equal ROIs in their earlier order.
   */
  lemma RankingFacts(deduped: seq<Picked>, confidence: real, v: real)
    ensures var ranked := SortByDescending(deduped, RoiKey(confidence));
      && (forall i, j :: 0 <= i < j < |ranked| ==> Roi(ranked[i], confidence) >= Roi(ranked[j], confidence))
      && multiset(ranked) == multiset(deduped)
      && WithKey(ranked, RoiKey(confidence), v) == WithKey(deduped, RoiKey(confidence), v)
  {
    var ranked := SortByDescending(deduped, RoiKey(confidence));
    SortByDescendingFacts(deduped, RoiKey(confidence), v);
    forall i, j | 0 <= i < j < |ranked|
      ensures Roi(ranked[i], confidence) >= Roi(ranked[j], confidence)
    {
      assert RoiKey(confidence)(ranked[i]) >= RoiKey(confidence)(ranked[j]);
    }
  }

  /** The quick wins are exactly the survivors with at least 100 of adjusted savings and at most five days of effort. */
  lemma QuickWinMembers(deduped: seq<Picked>, confidence: real, x: Picked)
    ensures x in Filter(SortByDescending(deduped, RoiKey(confidence)), IsQuickWin(confidence)) <==>
      x in deduped && QuickWin(x, confidence)
  {
    var ranked := SortByDescending(deduped, RoiKey(confidence));
    SortByMembers(deduped, Negated(RoiKey(confidence)), x);
    FilterMembers(ranked, IsQuickWin(confidence));
  }

  /** With no effort the ROI is ten times the adjusted savings; with positive effort it is the adjusted savings per week. */
  lemma RoiFacts(p: Picked, confidence: real)
    ensures p.rec.effort <= 0.0 ==> Roi(p, confidence) == 10.0 * AdjustedSavings(p, confidence)
    ensures p.rec.effort > 0.0 ==> Roi(p, confidence) * (p.rec.effort / 5.0) == AdjustedSavings(p, confidence)
    ensures p.rec.effort > 0.0 && AdjustedSavings(p, confidence) >= 0.0 ==> Roi(p, confidence) >= 0.0
  {
  }
}
