/**
 * The few JavaScript values the pages compute with: numbers that may be
 * not-a-number or infinite, `null`, absent properties, `Math.round` and the
 * decimal text `toString` gives a non-negative integer.
 */
module JsValues {

  /** A JavaScript number. Finite values are exact reals: IEEE-754 rounding is not modelled. */
  datatype Number = NaN | Infinity(negative: bool) | Finite(value: real)

  /** A value that may be `null`: React state initialised with `null`, what `localStorage.getItem` returns. */
  datatype Nullable<T> = Null | NonNull(value: T)

  /** A property that may be missing (or `undefined`) in an object. */
  datatype Option<T> = None | Some(value: T)

  /** `Math.round` on a finite argument: the nearest integer, a half rounded up. */
  function Round(x: real): (r: int)
    ensures x - 0.5 < r as real <= x + 0.5
  {
    (x + 0.5).Floor
  }

  /** `Math.round` on any number: not-a-number and the infinities are returned as they are. */
  function MathRound(n: Number): (r: Number)
    ensures r.NaN? <==> n.NaN?
    ensures r.Infinity? <==> n.Infinity?
    ensures n.Finite? ==> r.Finite? && r.value == Round(n.value) as real
    ensures n.Infinity? ==> r == n
  {
    match n
    case Finite(x) => Finite(Round(x) as real)
    case _ => n
  }

  /** Multiplication by a positive constant, as `x * k` evaluates in JavaScript. */
  function Scale(n: Number, k: real): (r: Number)
    requires k > 0.0
    ensures r.Finite? <==> n.Finite?
    ensures !n.Finite? ==> r == n
  {
    if n.Finite? then Finite(n.value * k) else n
  }

  /** The digit character for `d`. */
  function DigitChar(d: int): (c: char)
    requires 0 <= d < 10
    ensures '0' <= c <= '9' && c as int - '0' as int == d
  {
    ('0' as int + d) as char
  }

  predicate IsDigits(s: string) {
    forall i :: 0 <= i < |s| ==> '0' <= s[i] <= '9'
  }

  /** The text `n.toString()` gives for a non-negative integer: decimal digits, no leading zero. */
  function DecimalString(n: nat): (s: string)
    ensures |s| >= 1 && IsDigits(s)
    ensures |s| > 1 ==> s[0] != '0'
    decreases n
  {
    if n < 10 then [DigitChar(n)] else DecimalString(n / 10) + [DigitChar(n % 10)]
  }

  /** The value a string of decimal digits denotes; the reference reading of `DecimalString`. */
  function DecimalValue(s: string): nat
    requires IsDigits(s)
    decreases |s|
  {
    if s == [] then 0
    else DecimalValue(s[..|s| - 1]) * 10 + (s[|s| - 1] as int - '0' as int)
  }

  /** Reading back the decimal text of `n` gives `n`. */
  lemma {:induction false} DecimalRoundTrip(n: nat)
    ensures DecimalValue(DecimalString(n)) == n
    decreases n
  {
    var s := DecimalString(n);
    if n >= 10 {
      DecimalRoundTrip(n / 10);
      assert s[..|s| - 1] == DecimalString(n / 10);
    }
  }

  /** Different integers print differently, so the text identifies the number. */
  lemma DecimalStringInjective(m: nat, n: nat)
    requires DecimalString(m) == DecimalString(n)
    ensures m == n
  {
    DecimalRoundTrip(m);
    DecimalRoundTrip(n);
  }
}
