/**
 * The handful of Python string operations the tools use: `lower`/`upper`,
 * `startswith`, `in` on substrings, `split(sep)`, `split()`, `strip()`,
 * `replace(old, "")` and `str(n)` for naturals. Only ASCII letters change
 * case and only ASCII whitespace is whitespace.
 */
module Text {
  import opened Outcomes

  /** ASCII whitespace as Python's `str.isspace` sees it (tab to carriage return, the separators 28-31, space). */
  predicate IsSpace(c: char)
  {
    (9 <= c as int <= 13) || (28 <= c as int <= 32)
  }

  function LowerChar(c: char): char
  {
    if 'A' <= c <= 'Z' then (c as int + 32) as char else c
  }

  function UpperChar(c: char): char
  {
    if 'a' <= c <= 'z' then (c as int - 32) as char else c
  }

  /** `s.lower()`. */
  function Lower(s: string): (r: string)
    ensures |r| == |s|
  {
    seq(|s|, i requires 0 <= i < |s| => LowerChar(s[i]))
  }

  /** `s.upper()`. */
  function Upper(s: string): (r: string)
    ensures |r| == |s|
  {
    seq(|s|, i requires 0 <= i < |s| => UpperChar(s[i]))
  }

  /** `s.lower()` lower-cases each character in place, so no upper-case ASCII letter is left. */
  lemma LowerChars(s: string)
    ensures |Lower(s)| == |s|
    ensures forall i :: 0 <= i < |s| ==> Lower(s)[i] == LowerChar(s[i])
    ensures forall i :: 0 <= i < |s| ==> !('A' <= Lower(s)[i] <= 'Z')
  {
  }

  /** `s.upper()` upper-cases each character in place, so no lower-case ASCII letter is left. */
  lemma UpperChars(s: string)
    ensures |Upper(s)| == |s|
    ensures forall i :: 0 <= i < |s| ==> Upper(s)[i] == UpperChar(s[i])
    ensures forall i :: 0 <= i < |s| ==> !('a' <= Upper(s)[i] <= 'z')
  {
  }

  predicate StartsWith(s: string, prefix: string)
  {
    |prefix| <= |s| && s[..|prefix|] == prefix
  }

  /** `sub` occurs in `s` starting at index `j`. */
  predicate OccursAt(s: string, sub: string, j: int)
  {
    0 <= j && j + |sub| <= |s| && s[j..j + |sub|] == sub
  }

  /** `sub in s`. */
  predicate ContainsSub(s: string, sub: string)
  {
    exists j :: 0 <= j <= |s| - |sub| && OccursAt(s, sub, j)
  }

  lemma OccursAtTail(s: string, sub: string, j: int)
    requires s != [] && 0 <= j
    ensures OccursAt(s[1..], sub, j) <==> OccursAt(s, sub, j + 1)
  {
    if 0 <= j && j + |sub| <= |s| - 1 {
      assert s[1..][j..j + |sub|] == s[j + 1..j + 1 + |sub|];
    }
  }

  /** `s.find(sub)`: the first index at which `sub` occurs. */
  function FindSub(s: string, sub: string): (r: Option<nat>)
    ensures r.Some? ==> OccursAt(s, sub, r.value)
    ensures r.Some? ==> forall j :: 0 <= j < r.value ==> !OccursAt(s, sub, j)
    ensures r.None? <==> !ContainsSub(s, sub)
    decreases |s|
  {
    if |s| < |sub| then None
    else if s[..|sub|] == sub then
      assert OccursAt(s, sub, 0);
      Some(0)
    else
      var rest := FindSub(s[1..], sub);
      assert !OccursAt(s, sub, 0);
      assert ContainsSub(s, sub) ==> ContainsSub(s[1..], sub) by {
        if ContainsSub(s, sub) {
          var j :| 0 <= j <= |s| - |sub| && OccursAt(s, sub, j);
          OccursAtTail(s, sub, j - 1);
        }
      }
      match rest
      case None => None
      case Some(i) =>
        OccursAtTail(s, sub, i);
        forall j | 0 <= j < i + 1
          ensures !OccursAt(s, sub, j)
        {
          if j > 0 { OccursAtTail(s, sub, j - 1); }
        }
        Some(i + 1)
  }

  /** `s.split(sep)` for a non-empty separator. */
  function SplitOn(s: string, sep: string): (r: seq<string>)
    requires |sep| > 0
    ensures |r| >= 1
    decreases |s|
  {
    match FindSub(s, sep)
    case None => [s]
    case Some(i) => [s[..i]] + SplitOn(s[i + |sep|..], sep)
  }

  /** `sep.join(parts)`. */
  function Join(parts: seq<string>, sep: string): string
  {
    if parts == [] then ""
    else if |parts| == 1 then parts[0]
    else parts[0] + sep + Join(parts[1..], sep)
  }

  lemma PrefixBeforeFirst(s: string, sep: string, i: nat)
    requires i <= |s| && |sep| > 0
    requires forall j :: 0 <= j < i ==> !OccursAt(s, sep, j)
    ensures !ContainsSub(s[..i], sep)
  {
    if ContainsSub(s[..i], sep) {
      var j :| 0 <= j <= |s[..i]| - |sep| && OccursAt(s[..i], sep, j);
      assert s[..i][j..j + |sep|] == s[j..j + |sep|];
      assert OccursAt(s, sep, j);
    }
  }

  /** Splitting and joining again on the same separator gives back the text, and no piece holds the separator. */
  lemma {:induction false} SplitJoin(s: string, sep: string)
    requires |sep| > 0
    ensures Join(SplitOn(s, sep), sep) == s
    ensures forall k :: 0 <= k < |SplitOn(s, sep)| ==> !ContainsSub(SplitOn(s, sep)[k], sep)
    decreases |s|
  {
    match FindSub(s, sep)
    case None =>
    case Some(i) =>
      var tail := s[i + |sep|..];
      var rest := SplitOn(tail, sep);
      SplitJoin(tail, sep);
      var r := SplitOn(s, sep);
      assert r == [s[..i]] + rest;
      assert s == s[..i] + sep + tail by {
        assert s[i..i + |sep|] == sep;
      }
      PrefixBeforeFirst(s, sep, i);
      assert Join(r, sep) == s[..i] + sep + Join(rest, sep);
      forall k | 0 <= k < |r|
        ensures !ContainsSub(r[k], sep)
      {
        if k > 0 { assert r[k] == rest[k - 1]; }
      }
  }

  /** `s.replace(sub, "")`: every non-overlapping occurrence of `sub`, left to right, removed. */
  function RemoveAll(s: string, sub: string): string
    requires |sub| > 0
  {
    Join(SplitOn(s, sub), "")
  }

  lemma {:induction false} JoinEmptyHasNoChar(parts: seq<string>, c: char)
    requires forall k :: 0 <= k < |parts| ==> c !in parts[k]
    ensures c !in Join(parts, "")
  {
    if |parts| > 1 {
      JoinEmptyHasNoChar(parts[1..], c);
      assert Join(parts, "") == parts[0] + Join(parts[1..], "");
    }
  }

  /** Removing every occurrence of a one-character string leaves no such character. */
  lemma RemoveAllChar(s: string, c: char)
    ensures c !in RemoveAll(s, [c])
  {
    var parts := SplitOn(s, [c]);
    SplitJoin(s, [c]);
    forall k | 0 <= k < |parts|
      ensures c !in parts[k]
    {
      if c in parts[k] {
        var j :| 0 <= j < |parts[k]| && parts[k][j] == c;
        assert parts[k][j..j + 1] == [c];
        assert OccursAt(parts[k], [c], j);
      }
    }
    JoinEmptyHasNoChar(parts, c);
  }

  /** Every character of `g` is whitespace. */
  predicate AllSpace(g: string)
  {
    forall m :: 0 <= m < |g| ==> IsSpace(g[m])
  }

  /** Length of the leading run of non-whitespace characters. */
  function WordLength(s: string): (n: nat)
    ensures n <= |s|
    ensures forall k :: 0 <= k < n ==> !IsSpace(s[k])
    ensures n < |s| ==> IsSpace(s[n])
  {
    if s == [] || IsSpace(s[0]) then 0 else 1 + WordLength(s[1..])
  }

  /** `s.split()`: the maximal runs of non-whitespace characters. */
  function SplitWhitespace(s: string): (r: seq<string>)
    ensures forall k :: 0 <= k < |r| ==> r[k] != "" && forall m :: 0 <= m < |r[k]| ==> !IsSpace(r[k][m])
    decreases |s|
  {
    if s == [] then []
    else if IsSpace(s[0]) then SplitWhitespace(s[1..])
    else
      var n := WordLength(s);
      [s[..n]] + SplitWhitespace(s[n..])
  }

  /** The whitespace runs around the words of `SplitWhitespace(s)`: before the first, between each two, after the last. */
  function Gaps(s: string): (r: seq<string>)
    ensures |r| == |SplitWhitespace(s)| + 1
    decreases |s|
  {
    if s == [] then [""]
    else if IsSpace(s[0]) then
      var g := Gaps(s[1..]);
      [[s[0]] + g[0]] + g[1..]
    else [""] + Gaps(s[WordLength(s)..])
  }

  /** `gaps[0] + words[0] + gaps[1] + ... + words[n - 1] + gaps[n]`. */
  function Interleave(gaps: seq<string>, words: seq<string>): string
    requires |gaps| == |words| + 1
    decreases |words|
  {
    if words == [] then gaps[0] else gaps[0] + words[0] + Interleave(gaps[1..], words[1..])
  }

  lemma GapsFirst(s: string)
    ensures Gaps(s)[0] == "" <==> s == [] || !IsSpace(s[0])
  {
  }

  lemma {:induction false} GapsAllSpace(s: string)
    ensures forall k :: 0 <= k < |Gaps(s)| ==> AllSpace(Gaps(s)[k])
    decreases |s|
  {
    if s == [] {
    } else if IsSpace(s[0]) {
      var g := Gaps(s[1..]);
      GapsAllSpace(s[1..]);
      assert Gaps(s)[1..] == g[1..];
      assert AllSpace([s[0]] + g[0]);
    } else {
      GapsAllSpace(s[WordLength(s)..]);
    }
  }

  lemma {:induction false} GapsInner(s: string)
    ensures forall k :: 0 < k < |Gaps(s)| - 1 ==> Gaps(s)[k] != ""
    decreases |s|
  {
    if s == [] {
    } else if IsSpace(s[0]) {
      var g := Gaps(s[1..]);
      GapsInner(s[1..]);
      assert Gaps(s)[1..] == g[1..];
    } else {
      var n := WordLength(s);
      GapsInner(s[n..]);
      GapsFirst(s[n..]);
      assert Gaps(s)[1..] == Gaps(s[n..]);
    }
  }

  /** Text in front of the first gap is text in front of the whole. */
  lemma InterleaveFirstGap(x: string, g: seq<string>, w: seq<string>)
    requires |g| == |w| + 1
    ensures Interleave([x + g[0]] + g[1..], w) == x + Interleave(g, w)
  {
    var h := [x + g[0]] + g[1..];
    assert h[1..] == g[1..];
    if w != [] {
      assert Interleave(h, w) == h[0] + w[0] + Interleave(h[1..], w[1..]);
      assert Interleave(g, w) == g[0] + w[0] + Interleave(g[1..], w[1..]);
    }
  }

  /** A word after an empty gap is text in front of the whole. */
  lemma InterleaveWord(word: string, g: seq<string>, w: seq<string>)
    requires |g| == |w| + 1
    ensures Interleave([""] + g, [word] + w) == word + Interleave(g, w)
  {
    var h, v := [""] + g, [word] + w;
    assert h[1..] == g && v[1..] == w;
    assert Interleave(h, v) == h[0] + v[0] + Interleave(h[1..], v[1..]);
    assert h[0] + v[0] == word;
  }

  lemma {:induction false} InterleaveGaps(s: string)
    ensures s == Interleave(Gaps(s), SplitWhitespace(s))
    decreases |s|
  {
    if s == [] {
    } else if IsSpace(s[0]) {
      var g := Gaps(s[1..]);
      InterleaveGaps(s[1..]);
      InterleaveFirstGap([s[0]], g, SplitWhitespace(s[1..]));
      assert s == [s[0]] + s[1..];
    } else {
      var n := WordLength(s);
      InterleaveGaps(s[n..]);
      InterleaveWord(s[..n], Gaps(s[n..]), SplitWhitespace(s[n..]));
      assert s == s[..n] + s[n..];
    }
  }

  /**
   * `s.split()` yields the maximal runs of non-whitespace characters of `s`,
   * in order: `s` is those words with whitespace between them, at least one
   * character between each two, and possibly some before the first and after
   * the last.
   */
  lemma SplitWhitespaceRuns(s: string)
    ensures forall k :: 0 <= k < |Gaps(s)| ==> AllSpace(Gaps(s)[k])
    ensures forall k :: 0 < k < |Gaps(s)| - 1 ==> Gaps(s)[k] != ""
    ensures s == Interleave(Gaps(s), SplitWhitespace(s))
  {
    GapsAllSpace(s);
    GapsInner(s);
    InterleaveGaps(s);
  }

  function TrimLeft(s: string): (r: string)
    ensures r == [] || !IsSpace(r[0])
    ensures |r| <= |s| && r == s[|s| - |r|..]
    ensures AllSpace(s[..|s| - |r|])
  {
    if s != [] && IsSpace(s[0]) then TrimLeft(s[1..]) else s
  }

  function TrimRight(s: string): (r: string)
    ensures r == [] || !IsSpace(r[|r| - 1])
    ensures |r| <= |s| && r == s[..|r|]
    ensures AllSpace(s[|r|..])
  {
    if s != [] && IsSpace(s[|s| - 1]) then TrimRight(s[..|s| - 1]) else s
  }

  /** `s.strip()`. */
  function Strip(s: string): (r: string)
    ensures r == [] || (!IsSpace(r[0]) && !IsSpace(r[|r| - 1]))
  {
    var t := TrimRight(s);
    var u := TrimLeft(t);
    assert u != [] ==> u[|u| - 1] == t[|t| - 1];
    u
  }

  /** Where `s.strip()` starts in `s`: the length of the leading whitespace cut off. */
  function StripStart(s: string): (i: nat)
    ensures i + |Strip(s)| <= |s|
  {
    |TrimRight(s)| - |TrimLeft(TrimRight(s))|
  }

  /** `s.strip()` is the middle of `s` once the whitespace at both ends is cut off. */
  lemma StripSlice(s: string)
    ensures var i := StripStart(s);
      && Strip(s) == s[i..i + |Strip(s)|]
      && AllSpace(s[..i]) && AllSpace(s[i + |Strip(s)|..])
  {
    var t := TrimRight(s);
    var u := TrimLeft(t);
    var i := |t| - |u|;
    assert AllSpace(t[..i]) && AllSpace(s[|t|..]);
    assert s[..i] == t[..i];
    assert s[i + |u|..] == s[|t|..];
  }

  /** A trailing whitespace character adds no word. */
  lemma {:induction false} SplitWhitespaceTrailing(s: string, c: char)
    requires IsSpace(c)
    ensures SplitWhitespace(s + [c]) == SplitWhitespace(s)
    decreases |s|
  {
    var t := s + [c];
    if s == [] {
      assert t[1..] == [];
    } else if IsSpace(s[0]) {
      assert t[1..] == s[1..] + [c];
      SplitWhitespaceTrailing(s[1..], c);
    } else {
      var n := WordLength(s);
      WordLengthTrailing(s, c);
      assert t[..n] == s[..n];
      assert t[n..] == s[n..] + [c];
      SplitWhitespaceTrailing(s[n..], c);
    }
  }

  lemma {:induction false} WordLengthTrailing(s: string, c: char)
    requires IsSpace(c)
    ensures WordLength(s + [c]) == WordLength(s)
    decreases |s|
  {
    if s != [] && !IsSpace(s[0]) {
      assert (s + [c])[1..] == s[1..] + [c];
      WordLengthTrailing(s[1..], c);
    }
  }

  lemma {:induction false} SplitWhitespaceTrimRight(s: string)
    ensures SplitWhitespace(TrimRight(s)) == SplitWhitespace(s)
    decreases |s|
  {
    if s != [] && IsSpace(s[|s| - 1]) {
      SplitWhitespaceTrimRight(s[..|s| - 1]);
      SplitWhitespaceTrailing(s[..|s| - 1], s[|s| - 1]);
      assert s[..|s| - 1] + [s[|s| - 1]] == s;
    }
  }

  lemma {:induction false} SplitWhitespaceTrimLeft(s: string)
    ensures SplitWhitespace(TrimLeft(s)) == SplitWhitespace(s)
    decreases |s|
  {
    if s != [] && IsSpace(s[0]) {
      SplitWhitespaceTrimLeft(s[1..]);
    }
  }

  /** `s.strip().split() == s.split()`. */
  lemma SplitWhitespaceStrip(s: string)
    ensures SplitWhitespace(Strip(s)) == SplitWhitespace(s)
  {
    SplitWhitespaceTrimRight(s);
    SplitWhitespaceTrimLeft(TrimRight(s));
  }

  /** Removing a prefix from a text in which it occurs only as that prefix leaves the rest. */
  lemma RemoveLeadingOnly(rest: string, prefix: string)
    requires |prefix| > 0 && !ContainsSub(rest, prefix)
    ensures RemoveAll(prefix + rest, prefix) == rest
  {
    var s := prefix + rest;
    assert s[..|prefix|] == prefix;
    assert s[|prefix|..] == rest;
    assert SplitOn(rest, prefix) == [rest];
    assert SplitOn(s, prefix) == [""] + [rest];
    assert Join(["", rest], "") == "" + "" + Join([rest], "");
  }

  function DigitChar(d: nat): char
    requires d < 10
  {
    ('0' as int + d) as char
  }

  /** `str(n)` for a natural number: its decimal digits. */
  function NatToString(n: nat): (r: string)
    ensures |r| >= 1
    ensures forall k :: 0 <= k < |r| ==> '0' <= r[k] <= '9'
  {
    if n < 10 then [DigitChar(n)] else NatToString(n / 10) + [DigitChar(n % 10)]
  }

  /** The value of a string of decimal digits. */
  function DigitsValue(s: string): int
    requires forall k :: 0 <= k < |s| ==> '0' <= s[k] <= '9'
  {
    if s == [] then 0 else 10 * DigitsValue(s[..|s| - 1]) + (s[|s| - 1] as int - '0' as int)
  }

  /** Reading back the digits `str(n)` prints gives `n`. */
  lemma {:induction false} NatToStringRoundTrip(n: nat)
    ensures DigitsValue(NatToString(n)) == n
  {
    if n >= 10 {
      NatToStringRoundTrip(n / 10);
      var r := NatToString(n);
      assert r[..|r| - 1] == NatToString(n / 10);
    }
  }
}
