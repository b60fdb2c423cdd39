/**
 * The cost records the reporting tools read (NormalizeCostData's output),
 * and the one computation they all repeat: a dictionary from some key of a
 * record to the summed cost of the records with that key, filled in a loop.
 *
 * A Python dictionary keeps its keys in insertion order; the model keeps
 * that order (`FirstSeen`) beside a map from key to accumulated cost, and
 * `Breakdown` is what `.items()` walks.
 */
module CostRecords {
  import opened Outcomes
  import opened Seqs
  import opened Sorting

  /** One cost record, each field as `record.get(...)` finds it (None when absent). */
  datatype CostEntry = CostEntry(
    provider: Option<string>,
    service: Option<string>,
    region: Option<string>,
    accountId: Option<string>,
    cost: Option<real>,
    currency: Option<string>,
    tags: Option<map<string, string>>,
    date: Option<string>)

  /** A JSON argument holding the records: unparsable, or a document that may lack its "records" array. */
  datatype RecordsDocument = InvalidJson | Document(records: Option<seq<CostEntry>>)

  /** `records[0].get("currency", "USD") if records else "USD"`. */
  function Currency(rs: seq<CostEntry>): string
  {
    if rs != [] then rs[0].currency.GetOr("USD") else "USD"
  }

  /** `record.get("cost", 0)`. */
  function Cost(e: CostEntry): real
  {
    e.cost.GetOr(0.0)
  }

  /** `record.get("provider", "unknown")`. */
  function ProviderOf(e: CostEntry): string
  {
    e.provider.GetOr("unknown")
  }

  /** `record.get("tags", {}).get(name, "untagged")`. */
  function TagOf(e: CostEntry, name: string): string
  {
    if e.tags.Some? && name in e.tags.value then e.tags.value[name] else "untagged"
  }

  /** `record.get("service", "unknown")`. */
  function ServiceOf(e: CostEntry): string
  {
    e.service.GetOr("unknown")
  }

  /** `record.get("region", "unknown")`. */
  function RegionOf(e: CostEntry): string
  {
    e.region.GetOr("unknown")
  }

  function Total(rs: seq<CostEntry>): real
  {
    SumOf(rs, Cost)
  }

  /** `sum(record.get("cost", 0) for record in records)`. */
  method TotalCost(rs: seq<CostEntry>) returns (total: real)
    ensures total == Total(rs)
  {
    total := 0.0;
    var i := 0;
    while i < |rs|
      invariant 0 <= i <= |rs|
      invariant total == SumOf(rs[..i], Cost)
    {
      assert rs[..i + 1][..i] == rs[..i];
      total := total + Cost(rs[i]);
      i := i + 1;
    }
    assert rs[..i] == rs;
  }

  // ---------------------------------------------------------------------
  // Breakdowns: `d[key] = d.get(key, 0) + record.get("cost", 0)`, or `d[key] += ...` on a defaultdict
  // ---------------------------------------------------------------------

  function KeysOf(es: seq<CostEntry>, key: CostEntry -> string): (r: seq<string>)
    ensures |r| == |es| && forall k :: 0 <= k < |es| ==> r[k] == key(es[k])
  {
    if es == [] then [] else KeysOf(es[..|es| - 1], key) + [key(es[|es| - 1])]
  }

  /** The dictionary's keys in order of first insertion. */
  function FirstSeen(es: seq<CostEntry>, key: CostEntry -> string): seq<string>
  {
    if es == [] then []
    else
      var d := FirstSeen(es[..|es| - 1], key);
      var k := key(es[|es| - 1]);
      if k in d then d else d + [k]
  }

  /** The insertion order holds each record's key once, in order of first appearance. */
  lemma {:induction false} FirstSeenIsDedup(es: seq<CostEntry>, key: CostEntry -> string)
    ensures FirstSeen(es, key) == Dedup(KeysOf(es, key))
  {
    if es != [] {
      FirstSeenIsDedup(es[..|es| - 1], key);
      assert KeysOf(es, key)[..|es| - 1] == KeysOf(es[..|es| - 1], key);
    }
  }

  /** No key is inserted twice, and the keys are exactly those of the records. */
  lemma FirstSeenFacts(es: seq<CostEntry>, key: CostEntry -> string)
    ensures Distinct(FirstSeen(es, key))
    ensures forall k :: k in FirstSeen(es, key) <==> k in KeysOf(es, key)
  {
    FirstSeenIsDedup(es, key);
    DedupMembers(KeysOf(es, key));
  }

  /** The accumulated cost of the records whose key is `k`. */
  function KeyTotal(es: seq<CostEntry>, key: CostEntry -> string, k: string): real
  {
    if es == [] then 0.0
    else
      var t := KeyTotal(es[..|es| - 1], key, k);
      if key(es[|es| - 1]) == k then t + Cost(es[|es| - 1]) else t
  }

  function KeyIs(key: CostEntry -> string, k: string): CostEntry -> bool
  {
    e => key(e) == k
  }

  /** `(name, accumulated cost)` for each name of `ks`, in that order. */
  function ItemsOver(es: seq<CostEntry>, key: CostEntry -> string, ks: seq<string>): seq<(string, real)>
  {
    seq(|ks|, i requires 0 <= i < |ks| => (ks[i], KeyTotal(es, key, ks[i])))
  }

  /** `d.items()` once the loop is done: each key in order of first insertion, with its total. */
  function Breakdown(es: seq<CostEntry>, key: CostEntry -> string): seq<(string, real)>
  {
    ItemsOver(es, key, FirstSeen(es, key))
  }

  /** The dictionary itself. */
  function Tallied(es: seq<CostEntry>, key: CostEntry -> string): map<string, real>
  {
    map k | k in FirstSeen(es, key) :: KeyTotal(es, key, k)
  }

  function ItemCost(item: (string, real)): real
  {
    item.1
  }

  /** A key's entry is the sum of the costs of exactly the records with that key. */
  lemma {:induction false} KeyTotalIsFilteredSum(es: seq<CostEntry>, key: CostEntry -> string, k: string)
    ensures KeyTotal(es, key, k) == SumOf(Filter(es, KeyIs(key, k)), Cost)
  {
    if es != [] {
      var front := es[..|es| - 1];
      var last := es[|es| - 1];
      var p := KeyIs(key, k);
      KeyTotalIsFilteredSum(front, key, k);
      if key(last) == k {
        assert Filter(es, p) == Filter(front, p) + [last];
        SumOfSingle(last, Cost);
        SumOfAppend(Filter(front, p), [last], Cost);
      } else {
        assert Filter(es, p) == Filter(front, p) + [];
        assert Filter(front, p) + [] == Filter(front, p);
      }
    }
  }

  /** A key that was never inserted has no cost. */
  lemma {:induction false} KeyTotalAbsent(es: seq<CostEntry>, key: CostEntry -> string, k: string)
    requires k !in FirstSeen(es, key)
    ensures KeyTotal(es, key, k) == 0.0
  {
    if es != [] {
      KeyTotalAbsent(es[..|es| - 1], key, k);
    }
  }

  /** One more record adds its cost to the items' sum when its key is among the names, and nothing otherwise. */
  lemma {:induction false} ItemsOverStep(es: seq<CostEntry>, e: CostEntry, key: CostEntry -> string, ks: seq<string>)
    requires Distinct(ks)
    ensures SumOf(ItemsOver(es + [e], key, ks), ItemCost)
      == SumOf(ItemsOver(es, key, ks), ItemCost) + (if key(e) in ks then Cost(e) else 0.0)
  {
    if ks != [] {
      var front := ks[..|ks| - 1];
      var k := ks[|ks| - 1];
      var next := es + [e];
      assert next[..|es|] == es;
      assert ItemsOver(next, key, ks)[..|front|] == ItemsOver(next, key, front);
      assert ItemsOver(es, key, ks)[..|front|] == ItemsOver(es, key, front);
      assert KeyTotal(next, key, k) == KeyTotal(es, key, k) + (if key(e) == k then Cost(e) else 0.0);
      assert key(e) in ks <==> key(e) in front || key(e) == k by {
        assert ks == front + [k];
      }
      assert key(e) in front ==> key(e) != k;
      ItemsOverStep(es, e, key, front);
    }
  }

  /** Appending a name to the list adds its accumulated cost to the items' sum. */
  lemma ItemsOverAppend(es: seq<CostEntry>, key: CostEntry -> string, ks: seq<string>, k: string)
    ensures SumOf(ItemsOver(es, key, ks + [k]), ItemCost) == SumOf(ItemsOver(es, key, ks), ItemCost) + KeyTotal(es, key, k)
  {
    var items := ItemsOver(es, key, ks + [k]);
    assert items[..|ks|] == ItemsOver(es, key, ks);
  }

  /** However the records are keyed, the items of the breakdown sum to the total cost. */
  lemma {:induction false} BreakdownTotal(es: seq<CostEntry>, key: CostEntry -> string)
    ensures SumOf(Breakdown(es, key), ItemCost) == SumOf(es, Cost)
  {
    if es != [] {
      var front := es[..|es| - 1];
      var e := es[|es| - 1];
      var d := FirstSeen(front, key);
      assert es == front + [e];
      BreakdownTotal(front, key);
      FirstSeenFacts(front, key);
      ItemsOverStep(front, e, key, d);
      if key(e) !in d {
        ItemsOverAppend(es, key, d, key(e));
        KeyTotalAbsent(front, key, key(e));
      }
    }
  }

  /** The breakdown names each key once, and every record's key is among them. */
  lemma BreakdownNames(es: seq<CostEntry>, key: CostEntry -> string)
    ensures forall i, j :: 0 <= i < j < |Breakdown(es, key)| ==> Breakdown(es, key)[i].0 != Breakdown(es, key)[j].0
    ensures forall k :: 0 <= k < |es| ==> exists i :: 0 <= i < |Breakdown(es, key)| && Breakdown(es, key)[i].0 == key(es[k])
  {
    var b := Breakdown(es, key);
    var d := FirstSeen(es, key);
    FirstSeenFacts(es, key);
    assert forall i :: 0 <= i < |b| ==> b[i].0 == d[i];
    forall k | 0 <= k < |es|
      ensures exists i :: 0 <= i < |b| && b[i].0 == key(es[k])
    {
      assert KeysOf(es, key)[k] in d;
      var i :| 0 <= i < |d| && d[i] == KeysOf(es, key)[k];
      assert b[i].0 == key(es[k]);
    }
  }

  /** Each item is the key of some record, costing the sum over exactly the records with that key. */
  lemma BreakdownItems(es: seq<CostEntry>, key: CostEntry -> string)
    ensures forall i :: 0 <= i < |Breakdown(es, key)| ==>
      (exists k :: 0 <= k < |es| && key(es[k]) == Breakdown(es, key)[i].0)
      && Breakdown(es, key)[i].1 == SumOf(Filter(es, KeyIs(key, Breakdown(es, key)[i].0)), Cost)
  {
    var b := Breakdown(es, key);
    var d := FirstSeen(es, key);
    FirstSeenFacts(es, key);
    forall i | 0 <= i < |b|
      ensures exists k :: 0 <= k < |es| && key(es[k]) == b[i].0
      ensures b[i].1 == SumOf(Filter(es, KeyIs(key, b[i].0)), Cost)
    {
      assert b[i] == (d[i], KeyTotal(es, key, d[i]));
      assert d[i] in KeysOf(es, key);
      var k :| 0 <= k < |es| && KeysOf(es, key)[k] == d[i];
      KeyTotalIsFilteredSum(es, key, d[i]);
    }
  }

  /** The dictionary has more than one key exactly when two records have different keys. */
  lemma KeyCount(es: seq<CostEntry>, key: CostEntry -> string)
    ensures |Breakdown(es, key)| > 1 <==> exists i, j :: 0 <= i < |es| && 0 <= j < |es| && key(es[i]) != key(es[j])
  {
    var d := FirstSeen(es, key);
    var ks := KeysOf(es, key);
    FirstSeenFacts(es, key);
    if |d| > 1 {
      assert d[0] in ks && d[1] in ks;
      var a :| 0 <= a < |ks| && ks[a] == d[0];
      var b :| 0 <= b < |ks| && ks[b] == d[1];
      assert key(es[a]) != key(es[b]);
    }
    if exists i, j :: 0 <= i < |es| && 0 <= j < |es| && key(es[i]) != key(es[j]) {
      var i, j :| 0 <= i < |es| && 0 <= j < |es| && key(es[i]) != key(es[j]);
      assert ks[i] in d && ks[j] in d;
      var a :| 0 <= a < |d| && d[a] == ks[i];
      var b :| 0 <= b < |d| && d[b] == ks[j];
      assert a != b;
    }
  }

  /** `order` and `totals` are the dictionary's insertion order and entries after the records of `prefix`. */
  ghost predicate Tallying(prefix: seq<CostEntry>, key: CostEntry -> string, order: seq<string>, totals: map<string, real>)
  {
    && order == FirstSeen(prefix, key)
    && (forall k :: k in totals <==> k in order)
    && (forall k :: k in totals ==> totals[k] == KeyTotal(prefix, key, k))
  }

  /** One turn of the loop: a new key is appended to the order, and the record's cost added to its entry. */
  lemma TallyingStep(es: seq<CostEntry>, i: nat, key: CostEntry -> string, order: seq<string>, totals: map<string, real>)
    requires i < |es| && Tallying(es[..i], key, order, totals)
    ensures var k := key(es[i]);
      Tallying(es[..i + 1], key,
        if k in totals then order else order + [k],
        totals[k := (if k in totals then totals[k] else 0.0) + Cost(es[i])])
  {
    var prefix := es[..i];
    var next := es[..i + 1];
    assert next[..i] == prefix;
    var k := key(es[i]);
    var totals' := totals[k := (if k in totals then totals[k] else 0.0) + Cost(es[i])];
    if k !in totals {
      KeyTotalAbsent(prefix, key, k);
    }
    forall c | c in totals'
      ensures totals'[c] == KeyTotal(next, key, c)
    {
      assert KeyTotal(next, key, c) == KeyTotal(prefix, key, c) + (if c == k then Cost(es[i]) else 0.0);
    }
  }

  /** The accumulation loop: keys in order of first appearance, each with its records' summed cost. */
  method Tally(es: seq<CostEntry>, key: CostEntry -> string) returns (order: seq<string>, totals: map<string, real>)
    ensures order == FirstSeen(es, key)
    ensures totals == Tallied(es, key)
  {
    order := [];
    totals := map[];
    var i := 0;
    while i < |es|
      invariant 0 <= i <= |es|
      invariant Tallying(es[..i], key, order, totals)
    {
      var k := key(es[i]);
      TallyingStep(es, i, key, order, totals);
      order, totals :=
        if k in totals then order else order + [k],
        totals[k := (if k in totals then totals[k] else 0.0) + Cost(es[i])];
      i := i + 1;
    }
    assert es[..i] == es;
  }

  /** `sorted(items, key=lambda x: x[1], reverse=True)`, in place on an array. */
  method RankItems(items: seq<(string, real)>) returns (ranked: seq<(string, real)>)
    ensures ranked == SortByDescending(items, ItemCost)
  {
    var a := new (string, real)[|items|](k requires 0 <= k < |items| => items[k]);
    assert a[..] == items;
    SortInPlace(a, Negated(ItemCost));
    ranked := a[..];
  }

  /** `sum(item[1] for item in items)`. */
  method SumCosts(items: seq<(string, real)>) returns (total: real)
    ensures total == SumOf(items, ItemCost)
  {
    total := 0.0;
    var i := 0;
    while i < |items|
      invariant 0 <= i <= |items|
      invariant total == SumOf(items[..i], ItemCost)
    {
      assert items[..i + 1][..i] == items[..i];
      total := total + items[i].1;
      i := i + 1;
    }
    assert items[..i] == items;
  }

  /** A breakdown dictionary after its loop, with its `.items()`. */
  method BreakdownOf(rs: seq<CostEntry>, key: CostEntry -> string) returns (totals: map<string, real>, items: seq<(string, real)>)
    ensures totals == Tallied(rs, key)
    ensures items == Breakdown(rs, key)
  {
    var order;
    order, totals := Tally(rs, key);
    items := seq(|order|, k requires 0 <= k < |order| => (order[k], totals[order[k]]));
  }

  // ---------------------------------------------------------------------
  // Percentages
  // ---------------------------------------------------------------------

  /** `part / total * 100 if total > 0 else 0`. */
  function Percent(part: real, total: real): real
  {
    if total > 0.0 then part / total * 100.0 else 0.0
  }

  /** Multiplying by a positive number keeps the order. */
  lemma ScaleMonotone(a: real, b: real, t: real)
    requires t > 0.0
    ensures a > b <==> a * t > b * t
  {
    if a > b {
      assert (a - b) * t > 0.0;
    } else {
      assert (b - a) * t >= 0.0;
    }
  }

  /** With a non-negative threshold, a percentage exceeds it exactly when the total is positive and the part exceeds that share of it. */
  lemma PercentAbove(part: real, total: real, threshold: real)
    requires threshold >= 0.0
    ensures Percent(part, total) > threshold <==> total > 0.0 && part * 100.0 > threshold * total
  {
    if total > 0.0 {
      var p := part / total * 100.0;
      assert p * total == part * 100.0;
      ScaleMonotone(p, threshold, total);
    }
  }
}
