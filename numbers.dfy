/**
 * The JVM number types the app uses (`Long`, `Int`, `Double`) and the decimal text of a
 * `Long`, as written by a string template and as read back by the navigation argument
 * parser.
 */
module Numbers {
  import opened Wrappers

  const LONG_MIN: int := -0x8000_0000_0000_0000
  const LONG_MAX: int := 0x7FFF_FFFF_FFFF_FFFF

  /** Kotlin `Long`: a signed 64-bit integer. */
  type Long = x: int | -0x8000_0000_0000_0000 <= x <= 0x7FFF_FFFF_FFFF_FFFF

  /** Kotlin `Int`: a signed 32-bit integer. */
  type Int32 = x: int | -0x8000_0000 <= x <= 0x7FFF_FFFF

  /** `Long` addition, which wraps around on overflow. */
  function AddLong(a: Long, b: Long): (r: Long)
    ensures LONG_MIN <= a + b <= LONG_MAX ==> r == a + b
    ensures a + b > LONG_MAX ==> r == a + b - 0x1_0000_0000_0000_0000
    ensures a + b < LONG_MIN ==> r == a + b + 0x1_0000_0000_0000_0000
  {
    var s := a + b;
    if s > LONG_MAX then s - 0x1_0000_0000_0000_0000
    else if s < LONG_MIN then s + 0x1_0000_0000_0000_0000
    else s
  }

  /** Kotlin `Double` (IEEE 754 binary64). Finite values are kept as exact reals; the
      rounding to 53 bits of precision is not modelled. */
  datatype Double = Finite(value: real) | NaN | PositiveInfinity | NegativeInfinity

  /** The IEEE 754 comparison `x <= 0.0`, which is false for NaN. */
  predicate AtMostZero(x: Double) {
    match x
    case Finite(v) => v <= 0.0
    case NaN => false
    case PositiveInfinity => false
    case NegativeInfinity => true
  }

  predicate IsDigit(c: char) {
    '0' <= c <= '9'
  }

  predicate AllDigits(s: string) {
    forall i :: 0 <= i < |s| ==> IsDigit(s[i])
  }

  function DigitChar(d: nat): char
    requires d < 10
  {
    ('0' as int + d) as char
  }

  function DigitValue(c: char): nat
    requires IsDigit(c)
  {
    c as int - '0' as int
  }

  /** The decimal digits of `n`, most significant first, with no leading zero. */
  function NatToDecimal(n: nat): (r: string)
    ensures r != [] && AllDigits(r)
    ensures |r| > 1 ==> r[0] != '0'
    decreases n
  {
    if n < 10 then [DigitChar(n)] else NatToDecimal(n / 10) + [DigitChar(n % 10)]
  }

  /** The number that a string of decimal digits denotes. */
  function DecimalValue(s: string): nat
    requires AllDigits(s)
  {
    if s == [] then 0 else DecimalValue(s[..|s| - 1]) * 10 + DigitValue(s[|s| - 1])
  }

  /** Reading back the digits of `n` gives `n`. */
  lemma {:induction false} DecimalRoundTrip(n: nat)
    ensures DecimalValue(NatToDecimal(n)) == n
    decreases n
  {
    if n >= 10 {
      var d := NatToDecimal(n / 10);
      DecimalRoundTrip(n / 10);
      assert (d + [DigitChar(n % 10)])[..|d|] == d;
    }
  }

  function Pow10(k: nat): (r: nat)
    ensures k >= 1 ==> r >= 10
  {
    if k == 0 then 1 else 10 * Pow10(k - 1)
  }

  /** For k >= 1, `n` has more than `k` digits exactly when it is at least 10^k. */
  lemma {:induction false} DecimalLength(n: nat, k: nat)
    requires k >= 1
    ensures |NatToDecimal(n)| > k <==> n >= Pow10(k)
    decreases n
  {
    if n >= 10 && k > 1 {
      DecimalLength(n / 10, k - 1);
      assert n / 10 >= Pow10(k - 1) <==> n >= 10 * Pow10(k - 1);
    }
  }

  /** A `Long` in a string template (`"$id"`): a '-' for a negative value, then its
      digits. */
  function LongToString(x: int): string {
    if x < 0 then "-" + NatToDecimal(-x) else NatToDecimal(x)
  }

  /** `String.toLong()` as the navigation library applies it to a `LongType` route
      argument: an optional '+' or '-', then one or more decimal digits, and a value within
      the `Long` range; anything else is a `NumberFormatException`, here `None`. */
  function ParseLong(s: string): Option<Long> {
    if s == [] then None
    else
      var digits := if s[0] == '-' || s[0] == '+' then s[1..] else s;
      if digits == [] || !AllDigits(digits) then None
      else
        var v: int := if s[0] == '-' then -(DecimalValue(digits) as int) else DecimalValue(digits);
        if LONG_MIN <= v <= LONG_MAX then Some(v) else None
  }

  /** The text of a `Long` parses back to the same `Long`. */
  lemma LongRoundTrip(x: Long)
    ensures ParseLong(LongToString(x)) == Some(x)
  {
    if x < 0 {
      var m: nat := -(x as int);
      var d := NatToDecimal(m);
      var s := "-" + d;
      assert s[0] == '-' && s[1..] == d;
      DecimalRoundTrip(m);
      assert ParseLong(s) == Some(x);
    } else {
      var d := NatToDecimal(x);
      assert IsDigit(d[0]);
      DecimalRoundTrip(x);
      assert ParseLong(d) == Some(x);
    }
  }
}
