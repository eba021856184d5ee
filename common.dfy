/** Option and outcome types shared by the whole model, and the JavaScript
    truthiness tests (`x || default`, `if (x)`) that the source applies to
    optional request fields. */
module Common {

  datatype Option<+T> = None | Some(value: T)

  /** Result of an operation that either succeeds with a value or fails
      with the error message the source throws. */
  datatype Outcome<+T> = Ok(value: T) | Err(message: string)

  /** `if (x)` on an optional number: absent and 0 are both falsy. */
  predicate TruthyNumber(x: Option<real>) {
    x.Some? && x.value != 0.0
  }

  /** `if (s)` on an optional string: absent and "" are both falsy. */
  predicate TruthyString(s: Option<string>) {
    s.Some? && s.value != ""
  }

  /** `s || fallback` on an optional string. */
  function StringOr(s: Option<string>, fallback: string): (r: string)
    ensures TruthyString(s) ==> r == s.value
    ensures !TruthyString(s) ==> r == fallback
  {
    if TruthyString(s) then s.value else fallback
  }

  /** `s || null` on an optional string: the empty string becomes null. */
  function StringOrNull(s: Option<string>): (r: Option<string>)
    ensures r.Some? <==> TruthyString(s)
    ensures r.Some? ==> r == s
  {
    if TruthyString(s) then s else None
  }

  /** `n || fallback` on an optional integer: absent and 0 give the fallback. */
  function IntOr(n: Option<int>, fallback: int): (r: int)
    ensures n.Some? && n.value != 0 ==> r == n.value
    ensures n.None? || n.value == 0 ==> r == fallback
  {
    if n.Some? && n.value != 0 then n.value else fallback
  }

  /** `flag || false` on an optional boolean. */
  function FlagOr(b: Option<bool>): (r: bool)
    ensures r <==> b == Some(true)
  {
    b.Some? && b.value
  }
}
