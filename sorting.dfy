/**
 * Python's `sorted(xs, key=k)` and `xs.sort(key=k)`: a stable sort by a
 * real-valued key. `reverse=True` keeps equal elements in their original
 * order too, so it is the same stable sort by the negated key.
 *
 * The functional definition inserts each element, last to first seen,
 * after every element whose key is not larger; the in-place method does
 * the same with adjacent swaps and is proved to produce exactly it.
 */
module Sorting {
  import opened Seqs

  predicate SortedBy<T>(s: seq<T>, key: T -> real)
  {
    forall i, j :: 0 <= i < j < |s| ==> key(s[i]) <= key(s[j])
  }

  /** The elements whose key is `v`, in order. */
  function WithKey<T>(s: seq<T>, key: T -> real, v: real): seq<T>
  {
    if s == [] then [] else WithKey(s[..|s| - 1], key, v) + (if key(s[|s| - 1]) == v then [s[|s| - 1]] else [])
  }

  /** Put `x` after every element of `t` whose key does not exceed its own. */
  function Insert<T>(t: seq<T>, x: T, key: T -> real): seq<T>
  {
    if t != [] && key(t[|t| - 1]) > key(x) then Insert(t[..|t| - 1], x, key) + [t[|t| - 1]] else t + [x]
  }

  /** `sorted(s, key=key)`. */
  function SortBy<T>(s: seq<T>, key: T -> real): seq<T>
  {
    if s == [] then [] else Insert(SortBy(s[..|s| - 1], key), s[|s| - 1], key)
  }

  function Negated<T>(key: T -> real): T -> real
  {
    x => -key(x)
  }

  /** `sorted(s, key=key, reverse=True)`. */
  function SortByDescending<T>(s: seq<T>, key: T -> real): seq<T>
  {
    SortBy(s, Negated(key))
  }

  lemma {:induction false} InsertMultiset<T>(t: seq<T>, x: T, key: T -> real)
    ensures multiset(Insert(t, x, key)) == multiset(t) + multiset{x}
    decreases |t|
  {
    if t != [] && key(t[|t| - 1]) > key(x) {
      InsertMultiset(t[..|t| - 1], x, key);
      assert t == t[..|t| - 1] + [t[|t| - 1]];
    }
  }

  lemma {:induction false} InsertSorted<T>(t: seq<T>, x: T, key: T -> real)
    requires SortedBy(t, key)
    ensures SortedBy(Insert(t, x, key), key)
    decreases |t|
  {
    if t != [] && key(t[|t| - 1]) > key(x) {
      var p, last := t[..|t| - 1], t[|t| - 1];
      InsertSorted(p, x, key);
      InsertMultiset(p, x, key);
      var q := Insert(p, x, key);
      forall k | 0 <= k < |q|
        ensures key(q[k]) <= key(last)
      {
        assert q[k] in multiset(p) + multiset{x} by { assert q[k] in multiset(q); }
        if q[k] != x {
          var m :| 0 <= m < |p| && p[m] == q[k];
        }
      }
    }
  }

  lemma {:induction false} InsertWithKey<T>(t: seq<T>, x: T, key: T -> real, v: real)
    ensures WithKey(Insert(t, x, key), key, v) == WithKey(t, key, v) + (if key(x) == v then [x] else [])
    decreases |t|
  {
    if t != [] && key(t[|t| - 1]) > key(x) {
      var p, last := t[..|t| - 1], t[|t| - 1];
      InsertWithKey(p, x, key, v);
      var q := Insert(p, x, key);
      assert (q + [last])[..|q + [last]| - 1] == q;
    } else {
      assert (t + [x])[..|t + [x]| - 1] == t;
    }
  }

  /** The result of `sorted` is ordered by the key. */
  lemma {:induction false} SortBySorted<T>(s: seq<T>, key: T -> real)
    ensures SortedBy(SortBy(s, key), key)
  {
    if s != [] {
      SortBySorted(s[..|s| - 1], key);
      InsertSorted(SortBy(s[..|s| - 1], key), s[|s| - 1], key);
    }
  }

  /** The result of `sorted` is a rearrangement of its input. */
  lemma {:induction false} SortByPermutes<T>(s: seq<T>, key: T -> real)
    ensures multiset(SortBy(s, key)) == multiset(s)
    ensures |SortBy(s, key)| == |s|
  {
    if s != [] {
      SortByPermutes(s[..|s| - 1], key);
      InsertMultiset(SortBy(s[..|s| - 1], key), s[|s| - 1], key);
      assert s == s[..|s| - 1] + [s[|s| - 1]];
    }
    assert |SortBy(s, key)| == |multiset(SortBy(s, key))|;
  }

  /** Stability: the elements sharing a key keep their original relative order. */
  lemma {:induction false} SortByStable<T>(s: seq<T>, key: T -> real, v: real)
    ensures WithKey(SortBy(s, key), key, v) == WithKey(s, key, v)
  {
    if s != [] {
      SortByStable(s[..|s| - 1], key, v);
      InsertWithKey(SortBy(s[..|s| - 1], key), s[|s| - 1], key, v);
    }
  }

  lemma {:induction false} WithNegatedKey<T>(s: seq<T>, key: T -> real, v: real)
    ensures WithKey(s, Negated(key), -v) == WithKey(s, key, v)
  {
    if s != [] { WithNegatedKey(s[..|s| - 1], key, v); }
  }

  /** `sorted(..., reverse=True)`: ordered by decreasing key, a rearrangement, and stable. */
  lemma SortByDescendingFacts<T>(s: seq<T>, key: T -> real, v: real)
    ensures forall i, j :: 0 <= i < j < |SortByDescending(s, key)| ==>
      key(SortByDescending(s, key)[i]) >= key(SortByDescending(s, key)[j])
    ensures multiset(SortByDescending(s, key)) == multiset(s)
    ensures |SortByDescending(s, key)| == |s|
    ensures WithKey(SortByDescending(s, key), key, v) == WithKey(s, key, v)
  {
    SortByDescendingOrdered(s, key);
    SortByPermutes(s, Negated(key));
    SortByStable(s, Negated(key), -v);
    WithNegatedKey(SortByDescending(s, key), key, v);
    WithNegatedKey(s, key, v);
  }

  /** Sorting on the negated key orders by decreasing key. */
  lemma SortByDescendingOrdered<T>(s: seq<T>, key: T -> real)
    ensures forall i, j :: 0 <= i < j < |SortByDescending(s, key)| ==>
      key(SortByDescending(s, key)[i]) >= key(SortByDescending(s, key)[j])
  {
    var r := SortByDescending(s, key);
    SortBySorted(s, Negated(key));
    forall i, j | 0 <= i < j < |r|
      ensures key(r[i]) >= key(r[j])
    {
      assert Negated(key)(r[i]) <= Negated(key)(r[j]);
    }
  }

  /** Sorting does not change which elements a filter keeps. */
  lemma SortByMembers<T>(s: seq<T>, key: T -> real, x: T)
    ensures x in SortBy(s, key) <==> x in s
  {
    SortByPermutes(s, key);
    assert x in SortBy(s, key) <==> x in multiset(SortBy(s, key));
  }

  lemma {:induction false} WithKeyHead<T>(s: seq<T>, key: T -> real, v: real)
    requires s != [] && key(s[0]) == v
    ensures WithKey(s, key, v) != [] && WithKey(s, key, v)[0] == s[0]
  {
    if |s| > 1 {
      WithKeyHead(s[..|s| - 1], key, v);
    } else {
      assert s[..0] == [];
    }
  }

  /** The first element with key `v` is the first element of `s` with that key. */
  lemma {:induction false} WithKeyFirst<T>(s: seq<T>, key: T -> real, v: real)
    ensures WithKey(s, key, v) == [] <==> forall i :: 0 <= i < |s| ==> key(s[i]) != v
    ensures WithKey(s, key, v) != [] ==> exists j :: (0 <= j < |s| && s[j] == WithKey(s, key, v)[0] && key(s[j]) == v
      && forall i :: 0 <= i < j ==> key(s[i]) != v)
  {
    if s != [] {
      var init := s[..|s| - 1];
      WithKeyFirst(init, key, v);
      assert forall i :: 0 <= i < |init| ==> init[i] == s[i];
      if WithKey(init, key, v) != [] {
        var j :| 0 <= j < |init| && init[j] == WithKey(init, key, v)[0] && key(init[j]) == v
          && forall i :: 0 <= i < j ==> key(init[i]) != v;
        assert s[j] == WithKey(s, key, v)[0];
      } else if key(s[|s| - 1]) == v {
        assert s[|s| - 1] == WithKey(s, key, v)[0];
      }
    }
  }

  /**
   * `sorted(s, key=key)[0]` is an element of `s` with the least key, and
   * among the elements sharing that key it is the first one of `s`.
   */
  lemma SortByFirst<T>(s: seq<T>, key: T -> real)
    requires s != []
    ensures |SortBy(s, key)| == |s|
    ensures SortBy(s, key)[0] in s
    ensures forall k :: 0 <= k < |s| ==> key(SortBy(s, key)[0]) <= key(s[k])
    ensures exists j :: 0 <= j < |s| && s[j] == SortBy(s, key)[0] && forall i :: 0 <= i < j ==> key(s[i]) > key(s[j])
  {
    var r := SortBy(s, key);
    SortBySorted(s, key);
    SortByPermutes(s, key);
    var h := r[0];
    assert h in multiset(r);
    forall k | 0 <= k < |s|
      ensures key(h) <= key(s[k])
    {
      assert s[k] in multiset(s);
      var m :| 0 <= m < |r| && r[m] == s[k];
    }
    SortByStable(s, key, key(h));
    WithKeyHead(r, key, key(h));
    WithKeyFirst(s, key, key(h));
  }

  /** Inserting `x` in front of a tail `u` of larger keys, behind a prefix `p` of keys at most its own. */
  lemma {:induction false} InsertSplit<T>(p: seq<T>, u: seq<T>, x: T, key: T -> real)
    requires p == [] || key(p[|p| - 1]) <= key(x)
    requires forall m :: 0 <= m < |u| ==> key(u[m]) > key(x)
    ensures Insert(p + u, x, key) == p + [x] + u
    decreases |u|
  {
    if u != [] {
      var u' := u[..|u| - 1];
      assert (p + u)[..|p + u| - 1] == p + u';
      InsertSplit(p, u', x, key);
    } else {
      assert p + u == p;
    }
  }

  /** A sequence that holds `t[..j]`, then `x`, then `t[j..]` is `Insert(t, x)` when `j` is where the swaps stopped. */
  lemma InsertedAt<T>(t: seq<T>, x: T, j: nat, b: seq<T>, key: T -> real)
    requires j <= |t| && |b| == |t| + 1
    requires j == 0 || key(t[j - 1]) <= key(x)
    requires forall m :: j <= m < |t| ==> key(t[m]) > key(x)
    requires b[j] == x
    requires forall m :: 0 <= m < j ==> b[m] == t[m]
    requires forall m :: j < m < |b| ==> b[m] == t[m - 1]
    ensures b == Insert(t, x, key)
  {
    assert t == t[..j] + t[j..];
    InsertSplit(t[..j], t[j..], x, key);
    var r := t[..j] + [x] + t[j..];
    forall m | 0 <= m < |b|
      ensures b[m] == r[m]
    {
      if m < j { assert r[m] == t[m]; }
      else if m > j { assert r[m] == t[m - 1]; }
    }
  }

  /** Moves `a[i]` left past the larger keys before it: one insertion step of the in-place sort. */
  method InsertAt<T>(a: array<T>, i: nat, key: T -> real)
    requires i < a.Length
    modifies a
    ensures a[..i + 1] == Insert(old(a[..i]), old(a[i]), key)
    ensures forall m :: i < m < a.Length ==> a[m] == old(a[m])
  {
    ghost var t := a[..i];
    var x := a[i];
    var j := i;
    while j > 0 && key(a[j - 1]) > key(a[j])
      invariant 0 <= j <= i
      invariant a[j] == x
      invariant forall m :: 0 <= m < j ==> a[m] == t[m]
      invariant forall m :: j < m <= i ==> a[m] == t[m - 1]
      invariant forall m :: j <= m < i ==> key(t[m]) > key(x)
      invariant forall m :: i < m < a.Length ==> a[m] == old(a[m])
    {
      a[j - 1], a[j] := a[j], a[j - 1];
      j := j - 1;
    }
    InsertedAt(t, x, j, a[..i + 1], key);
  }

  /** `a.sort(key=key)`, in place: the array ends up holding `sorted(old(a), key=key)`. */
  method SortInPlace<T>(a: array<T>, key: T -> real)
    modifies a
    ensures a[..] == SortBy(old(a[..]), key)
  {
    ghost var input := a[..];
    var i := 0;
    while i < a.Length
      invariant 0 <= i <= a.Length
      invariant a[..i] == SortBy(input[..i], key)
      invariant forall m :: i <= m < a.Length ==> a[m] == input[m]
    {
      InsertAt(a, i, key);
      assert input[..i + 1][..i] == input[..i];
      i := i + 1;
    }
    assert input[..a.Length] == input;
    assert a[..a.Length] == a[..];
  }
}
