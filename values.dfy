/**
 * JSON-like values as the tools receive them from parsed input, with the
 * two Python behaviours the tools rely on: truthiness (`if not value`) and
 * `str(value).lower()`.
 */
module Values {
  import opened Outcomes
  import Text

  datatype Value =
    | VNull
    | VBool(b: bool)
    | VNum(n: real)
    | VStr(s: string)
    | VList(items: seq<Value>)
    | VDict(entries: seq<(string, Value)>)

  /** Python truthiness: None, False, 0, "", [] and {} are false. */
  predicate Truthy(v: Value)
  {
    match v
    case VNull => false
    case VBool(b) => b
    case VNum(n) => n != 0.0
    case VStr(s) => s != ""
    case VList(xs) => xs != []
    case VDict(es) => es != []
  }

  /** A dictionary with string keys, in insertion order. */
  type Dict = seq<(string, Value)>

  predicate HasKey(d: Dict, k: string)
  {
    exists i :: 0 <= i < |d| && d[i].0 == k
  }

  /** `d.get(k)`: the value of the first entry with key `k`. */
  function Lookup(d: Dict, k: string): (r: Option<Value>)
    ensures r.Some? <==> HasKey(d, k)
    ensures r.Some? ==> exists i :: 0 <= i < |d| && d[i] == (k, r.value)
  {
    if d == [] then None
    else if d[0].0 == k then Some(d[0].1)
    else
      var rest := Lookup(d[1..], k);
      assert HasKey(d, k) ==> d[0].0 == k || HasKey(d[1..], k) by {
        if HasKey(d, k) {
          var i :| 0 <= i < |d| && d[i].0 == k;
          if i > 0 { assert d[1..][i - 1].0 == k; }
        }
      }
      assert rest.Some? ==> exists i :: 0 <= i < |d| && d[i] == (k, rest.value) by {
        if rest.Some? {
          var j :| 0 <= j < |d[1..]| && d[1..][j] == (k, rest.value);
          assert d[j + 1] == (k, rest.value);
        }
      }
      rest
  }

  /**
   * Whether `str(v).lower()` equals the lower-case word `w` (`w` being one
   * of the plain words the tools compare against). Only a string, a boolean
   * or None can print as such a word: `str(True)` is `"True"`.
   */
  predicate PrintsAsLower(v: Value, w: string)
  {
    match v
    case VStr(s) => Text.Lower(s) == w
    case VBool(b) => (if b then "true" else "false") == w
    case VNull => "none" == w
    case _ => false
  }
}
