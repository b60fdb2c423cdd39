/**
 * Shared result shapes of the CloudWise FinOps tools.
 *
 * Every tool's `run` answers with a JSON document that is either an error
 * (`"Error: ..."`), a warning (`"Warning: ..."`) or a result object; the
 * model keeps that three-way split and drops the textual wrapping.
 */
module Outcomes {

  datatype Option<T> = None | Some(value: T)
  {
    /** The value, or `default` when absent (Python's `dict.get(key, default)`). */
    function GetOr(default: T): (r: T)
      ensures Some? ==> r == value
      ensures None? ==> r == default
    {
      if Some? then value else default
    }
  }

  /** What a tool's `run` returns: an error, a warning, or a result. */
  datatype Outcome<R> = Error(msg: string) | Warning(msg: string) | Ok(value: R)

  /**
   * A field of a tool's input: missing from the dictionary, present but not
   * convertible to the number/date the tool wants (`float(...)` or
   * `strptime` raising), or present and usable.
   */
  datatype Field<T> = Absent | Invalid | Present(value: T)

  /** Applies `f` to every item in order, stopping at the first error as a raised exception would. */
  function MapAll<T, U>(s: seq<T>, f: T -> Outcome<U>): Outcome<seq<U>>
  {
    if s == [] then Ok([])
    else
      match MapAll(s[..|s| - 1], f)
      case Ok(rs) => (match f(s[|s| - 1]) case Ok(v) => Ok(rs + [v]) case Error(m) => Error(m) case Warning(m) => Warning(m))
      case Error(m) => Error(m)
      case Warning(m) => Warning(m)
  }

  /** Every item maps successfully exactly when the whole map does, and then the i-th result is `f` of the i-th item. */
  lemma {:induction false} MapAllFacts<T, U>(s: seq<T>, f: T -> Outcome<U>)
    ensures MapAll(s, f).Ok? <==> forall k :: 0 <= k < |s| ==> f(s[k]).Ok?
    ensures MapAll(s, f).Ok? ==>
      |MapAll(s, f).value| == |s| && forall k :: 0 <= k < |s| ==> MapAll(s, f).value[k] == f(s[k]).value
  {
    if s != [] {
      var init := s[..|s| - 1];
      MapAllFacts(init, f);
      assert forall k :: 0 <= k < |init| ==> init[k] == s[k];
    }
  }

  /** Once a prefix has failed, the whole sequence fails with the same message. */
  lemma {:induction false} MapAllFailure<T, U>(s: seq<T>, i: nat, f: T -> Outcome<U>)
    requires i <= |s| && !MapAll(s[..i], f).Ok?
    ensures MapAll(s, f) == MapAll(s[..i], f)
    decreases |s| - i
  {
    if i < |s| {
      assert s[..i + 1][..i] == s[..i];
      MapAllFailure(s, i + 1, f);
    } else {
      assert s[..i] == s;
    }
  }

  /** The first failing item decides the message. */
  lemma MapAllFirstError<T, U>(s: seq<T>, i: nat, f: T -> Outcome<U>)
    requires i < |s| && f(s[i]).Error?
    requires forall k :: 0 <= k < i ==> f(s[k]).Ok?
    ensures MapAll(s, f) == Error(f(s[i]).msg)
  {
    var pre := s[..i];
    MapAllFacts(pre, f);
    assert forall k :: 0 <= k < i ==> pre[k] == s[k];
    assert s[..i + 1][..i] == pre;
    MapAllFailure(s, i + 1, f);
  }

  /** One more successful item extends the mapped prefix by its value. */
  lemma MapAllStep<T, U>(s: seq<T>, i: nat, f: T -> Outcome<U>, acc: seq<U>)
    requires i < |s| && MapAll(s[..i], f) == Ok(acc) && f(s[i]).Ok?
    ensures MapAll(s[..i + 1], f) == Ok(acc + [f(s[i]).value])
  {
    assert s[..i + 1][..i] == s[..i];
  }
}
