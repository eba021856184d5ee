/** JavaScript numbers as far as the client arithmetic needs them: the
    special values, the four operators with their infinity and NaN rules,
    `parseFloat` on keypad text and the decimal digits of a natural number.
    Finite values are exact reals; rounding to doubles is not modelled. */
module JsNumbers {

  datatype JsNumber = Finite(value: real) | PosInfinity | NegInfinity | NaN

  /** JavaScript truthiness: 0 and NaN are falsy. */
  predicate Truthy(x: JsNumber) {
    x != Finite(0.0) && x != NaN
  }

  function Infinity(positive: bool): JsNumber {
    if positive then PosInfinity else NegInfinity
  }

  /** The sign of a non-NaN number, +0 counted as positive. */
  predicate NonNegative(x: JsNumber) {
    x == PosInfinity || (x.Finite? && x.value >= 0.0)
  }

  function Negate(x: JsNumber): JsNumber {
    match x
    case Finite(v) => Finite(-v)
    case PosInfinity => NegInfinity
    case NegInfinity => PosInfinity
    case NaN => NaN
  }

  /** `a + b`: opposite infinities give NaN. */
  function Add(a: JsNumber, b: JsNumber): JsNumber {
    if a == NaN || b == NaN then NaN
    else if a.Finite? && b.Finite? then Finite(a.value + b.value)
    else if (a == PosInfinity && b == NegInfinity) || (a == NegInfinity && b == PosInfinity) then NaN
    else if a == PosInfinity || b == PosInfinity then PosInfinity
    else NegInfinity
  }

  function Subtract(a: JsNumber, b: JsNumber): JsNumber {
    Add(a, Negate(b))
  }

  /** `a * b`: an infinity times 0 is NaN. */
  function Multiply(a: JsNumber, b: JsNumber): JsNumber {
    if a == NaN || b == NaN then NaN
    else if a.Finite? && b.Finite? then Finite(a.value * b.value)
    else if a == Finite(0.0) || b == Finite(0.0) then NaN
    else Infinity(NonNegative(a) == NonNegative(b))
  }

  /** `a / b` on finite operands: a zero divisor gives an infinity or NaN. */
  function Divide(a: real, b: real): JsNumber {
    if b != 0.0 then Finite(a / b)
    else if a > 0.0 then PosInfinity
    else if a < 0.0 then NegInfinity
    else NaN
  }

  /** `a / b` on numbers. */
  function Quotient(a: JsNumber, b: JsNumber): JsNumber {
    if a == NaN || b == NaN then NaN
    else if a.Finite? && b.Finite? then Divide(a.value, b.value)
    else if !a.Finite? && !b.Finite? then NaN
    else if a.Finite? then Finite(0.0)
    else Infinity(NonNegative(a) == NonNegative(b))
  }

  /** Subtraction undoes addition, and division by a non-zero finite
      number undoes multiplication. */
  lemma InverseOperations(a: real, b: real)
    ensures Subtract(Add(Finite(a), Finite(b)), Finite(b)) == Finite(a)
    ensures b != 0.0 ==> Quotient(Multiply(Finite(a), Finite(b)), Finite(b)) == Finite(a)
  {
  }

  // ---- decimal text ----

  predicate IsDigit(c: char) {
    '0' <= c <= '9'
  }

  function DigitValue(c: char): nat
    requires IsDigit(c)
  {
    (c - '0') as nat
  }

  function DigitChar(d: nat): (c: char)
    requires d < 10
    ensures IsDigit(c) && DigitValue(c) == d
  {
    '0' + d as char
  }

  predicate AllDigits(s: string) {
    forall i :: 0 <= i < |s| ==> IsDigit(s[i])
  }

  /** The value of a string of decimal digits ("" is 0). */
  function DigitsValue(s: string): nat
    requires AllDigits(s)
  {
    if s == [] then 0 else DigitsValue(s[..|s| - 1]) * 10 + DigitValue(s[|s| - 1])
  }

  /** `String(n)` for a natural number: its decimal digits, no leading zero. */
  function NatToString(n: nat): (s: string)
    ensures AllDigits(s) && |s| >= 1
    ensures |s| > 1 ==> s[0] != '0'
  {
    if n < 10 then [DigitChar(n)]
    else NatToString(n / 10) + [DigitChar(n % 10)]
  }

  lemma {:induction false} NatToStringRoundTrip(n: nat)
    ensures DigitsValue(NatToString(n)) == n
  {
    if n >= 10 {
      NatToStringRoundTrip(n / 10);
      var s := NatToString(n);
      assert s[..|s| - 1] == NatToString(n / 10);
    }
  }

  /** How many digits `s` starts with. */
  function LeadingDigits(s: string): (k: nat)
    ensures k <= |s| && AllDigits(s[..k])
    ensures k < |s| ==> !IsDigit(s[k])
  {
    if s == [] || !IsDigit(s[0]) then 0
    else
      var k := 1 + LeadingDigits(s[1..]);
      assert s[..k] == [s[0]] + s[1..][..k - 1];
      k
  }

  function Pow10(k: nat): (r: nat)
    ensures r >= 1
  {
    if k == 0 then 1 else 10 * Pow10(k - 1)
  }

  /** Text the calculator keypad can produce: digits and points. */
  predicate KeypadText(s: string) {
    forall i :: 0 <= i < |s| ==> IsDigit(s[i]) || s[i] == '.'
  }

  /** `parseFloat` on keypad text: the longest prefix of the form
      digits[.digits]; without a single digit in it the result is NaN. */
  function ParseFloat(s: string): (r: JsNumber)
    requires KeypadText(s)
    ensures r.NaN? <==> LeadingDigits(s) == 0 && (|s| == 0 || LeadingDigits(s[1..]) == 0)
    ensures r.Finite? ==> r.value >= 0.0
  {
    var i := LeadingDigits(s);
    var whole := DigitsValue(s[..i]) as real;
    if i < |s| then
      assert s[i] == '.';
      var rest := s[i + 1..];
      var j := LeadingDigits(rest);
      if i == 0 && j == 0 then NaN
      else Finite(whole + DigitsValue(rest[..j]) as real / Pow10(j) as real)
    else if i == 0 then NaN
    else Finite(whole)
  }

  /** `parseFloat(String(n))` gives `n` back. */
  lemma ParseFloatReadsNatToString(n: nat)
    ensures ParseFloat(NatToString(n)) == Finite(n as real)
  {
    var s := NatToString(n);
    AllDigitsLeadingDigits(s);
    assert s[..|s|] == s;
    NatToStringRoundTrip(n);
  }

  lemma {:induction false} AllDigitsLeadingDigits(s: string)
    requires AllDigits(s)
    ensures LeadingDigits(s) == |s|
  {
    if s != [] {
      AllDigitsLeadingDigits(s[1..]);
    }
  }
}
