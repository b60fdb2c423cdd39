/**
 * Sequence helpers shared by the tools: sums, filters, `[:n]` slicing and
 * order-preserving de-duplication. Sums and filters are defined from the
 * back, so a loop that handles one more element per step keeps
 * `acc == SumOf(s[..i], f)` without further help.
 */
module Seqs {

  /** `sum(f(x) for x in s)`. */
  function SumOf<T>(s: seq<T>, f: T -> real): real
  {
    if s == [] then 0.0 else SumOf(s[..|s| - 1], f) + f(s[|s| - 1])
  }

  lemma {:induction false} SumOfAppend<T>(a: seq<T>, b: seq<T>, f: T -> real)
    ensures SumOf(a + b, f) == SumOf(a, f) + SumOf(b, f)
    decreases |b|
  {
    if b == [] {
      assert a + b == a;
    } else {
      var ab := a + b;
      assert ab[..|ab| - 1] == a + b[..|b| - 1];
      assert ab[|ab| - 1] == b[|b| - 1];
      SumOfAppend(a, b[..|b| - 1], f);
    }
  }

  lemma SumOfSingle<T>(x: T, f: T -> real)
    ensures SumOf([x], f) == f(x)
  {
    assert [x][..0] == [];
  }

  /** A sum of terms that are each at least zero is at least zero. */
  lemma {:induction false} SumOfNonNegative<T>(s: seq<T>, f: T -> real)
    requires forall k :: 0 <= k < |s| ==> f(s[k]) >= 0.0
    ensures SumOf(s, f) >= 0.0
  {
    if s != [] { SumOfNonNegative(s[..|s| - 1], f); }
  }

  /** `[x for x in s if p(x)]`. */
  function Filter<T>(s: seq<T>, p: T -> bool): seq<T>
  {
    if s == [] then [] else Filter(s[..|s| - 1], p) + (if p(s[|s| - 1]) then [s[|s| - 1]] else [])
  }

  lemma {:induction false} FilterAppend<T>(a: seq<T>, b: seq<T>, p: T -> bool)
    ensures Filter(a + b, p) == Filter(a, p) + Filter(b, p)
    decreases |b|
  {
    if b == [] {
      assert a + b == a;
    } else {
      var ab := a + b;
      assert ab[..|ab| - 1] == a + b[..|b| - 1];
      assert ab[|ab| - 1] == b[|b| - 1];
      FilterAppend(a, b[..|b| - 1], p);
    }
  }

  /** Filtering keeps exactly the elements that satisfy the predicate. */
  lemma {:induction false} FilterMembers<T>(s: seq<T>, p: T -> bool)
    ensures forall x :: x in Filter(s, p) <==> x in s && p(x)
    ensures |Filter(s, p)| <= |s|
  {
    if s != [] {
      FilterMembers(s[..|s| - 1], p);
      assert s == s[..|s| - 1] + [s[|s| - 1]];
    }
  }

  /** Reordering a sequence does not change how many of its elements satisfy a predicate. */
  lemma {:induction false} FilterPermutation<T>(s: seq<T>, t: seq<T>, p: T -> bool)
    requires multiset(s) == multiset(t)
    ensures |Filter(s, p)| == |Filter(t, p)|
    decreases |s|
  {
    if s == [] {
      assert |multiset(t)| == 0;
    } else {
      var x := s[|s| - 1];
      assert s == s[..|s| - 1] + [x];
      assert x in multiset(t);
      var j :| 0 <= j < |t| && t[j] == x;
      var rest := t[..j] + t[j + 1..];
      assert t == t[..j] + [x] + t[j + 1..];
      calc {
        multiset(rest);
        multiset(t[..j]) + multiset(t[j + 1..]);
        multiset(t) - multiset{x};
        multiset(s) - multiset{x};
        multiset(s[..|s| - 1]);
      }
      FilterPermutation(s[..|s| - 1], rest, p);
      assert [x][..0] == [];
      FilterAppend(t[..j], [x], p);
      FilterAppend(t[..j] + [x], t[j + 1..], p);
      FilterAppend(t[..j], t[j + 1..], p);
    }
  }

  /** Reordering a sequence does not change its sum. */
  lemma {:induction false} SumOfPermutation<T>(s: seq<T>, t: seq<T>, f: T -> real)
    requires multiset(s) == multiset(t)
    ensures SumOf(s, f) == SumOf(t, f)
    decreases |s|
  {
    if s == [] {
      assert |multiset(t)| == 0;
    } else {
      var x := s[|s| - 1];
      assert s == s[..|s| - 1] + [x];
      assert x in multiset(t);
      var j :| 0 <= j < |t| && t[j] == x;
      var rest := t[..j] + t[j + 1..];
      assert t == t[..j] + [x] + t[j + 1..];
      calc {
        multiset(rest);
        multiset(t[..j]) + multiset(t[j + 1..]);
        multiset(t) - multiset{x};
        multiset(s) - multiset{x};
        multiset(s[..|s| - 1]);
      }
      SumOfPermutation(s[..|s| - 1], rest, f);
      SumOfSingle(x, f);
      SumOfAppend(t[..j], [x], f);
      SumOfAppend(t[..j] + [x], t[j + 1..], f);
      SumOfAppend(t[..j], t[j + 1..], f);
    }
  }

  /** `[f(x) for x in s if p(x)]`. */
  function MapFilter<T, U>(s: seq<T>, p: T -> bool, f: T -> U): seq<U>
  {
    if s == [] then [] else MapFilter(s[..|s| - 1], p, f) + (if p(s[|s| - 1]) then [f(s[|s| - 1])] else [])
  }

  /** The mapped list has one element per element satisfying the predicate, and is empty exactly when none does. */
  lemma {:induction false} MapFilterFacts<T, U>(s: seq<T>, p: T -> bool, f: T -> U)
    ensures |MapFilter(s, p, f)| == |Filter(s, p)|
    ensures MapFilter(s, p, f) == [] <==> forall k :: 0 <= k < |s| ==> !p(s[k])
  {
    if s != [] {
      var front := s[..|s| - 1];
      var x := s[|s| - 1];
      MapFilterFacts(front, p, f);
      assert |MapFilter(s, p, f)| == |MapFilter(front, p, f)| + (if p(x) then 1 else 0);
      assert |Filter(s, p)| == |Filter(front, p)| + (if p(x) then 1 else 0);
      assert (forall k :: 0 <= k < |s| ==> !p(s[k])) <==> (forall k :: 0 <= k < |front| ==> !p(front[k])) && !p(x) by {
        assert forall k :: 0 <= k < |front| ==> front[k] == s[k];
      }
    }
  }

  /** `s[:n]`. */
  function Take<T>(s: seq<T>, n: nat): (r: seq<T>)
    ensures |r| == if n <= |s| then n else |s|
    ensures r <= s
  {
    if n <= |s| then s[..n] else s
  }

  predicate Distinct<T(==)>(s: seq<T>)
  {
    forall i, j :: 0 <= i < j < |s| ==> s[i] != s[j]
  }

  /** The first occurrence of each element, in order of first appearance. */
  function Dedup<T(==)>(s: seq<T>): (r: seq<T>)
    ensures Distinct(r)
    ensures forall k :: 0 <= k < |s| ==> s[k] in r
    ensures forall k :: 0 <= k < |r| ==> r[k] in s
  {
    if s == [] then []
    else
      var d := Dedup(s[..|s| - 1]);
      var x := s[|s| - 1];
      assert forall k :: 0 <= k < |s| - 1 ==> s[k] == s[..|s| - 1][k];
      if x in d then d else d + [x]
  }

  /** De-duplication keeps exactly the elements of its input. */
  lemma DedupMembers<T>(s: seq<T>)
    ensures forall x :: x in Dedup(s) <==> x in s
  {
    forall x | x in s
      ensures x in Dedup(s)
    {
      var k :| 0 <= k < |s| && s[k] == x;
    }
  }

  lemma {:induction false} DedupLength<T>(s: seq<T>)
    ensures |Dedup(s)| <= |s|
  {
    if s != [] { DedupLength(s[..|s| - 1]); }
  }

  /** A filter every element passes keeps the whole sequence. */
  lemma {:induction false} FilterAll<T>(s: seq<T>, p: T -> bool)
    requires forall k :: 0 <= k < |s| ==> p(s[k])
    ensures Filter(s, p) == s
  {
    if s != [] {
      FilterAll(s[..|s| - 1], p);
    }
  }

  /** The number of elements of `s` satisfying `p`. */
  function CountWhere<T>(s: seq<T>, p: T -> bool): nat
  {
    |Filter(s, p)|
  }
}
