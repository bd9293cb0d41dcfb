/**
  The JavaScript values that the fingerprinting core passes around, and the
  decimal text JavaScript gives an integer (`"" + n`, `n.toString()`).
 */
module JsValues {

  datatype Option<+T> = None | Some(value: T)

  /** One element of a `Uint8Array`. */
  newtype byte = x: int | 0 <= x < 256

  /**
    A value that a WebGL query answers or that the capability record holds.
    Numbers are integers in this model; `Precision` is the object that
    `describe_precision` returns.
   */
  datatype Value =
    | Undefined
    | Null
    | Bool(b: bool)
    | Num(n: int)
    | Str(s: string)
    | Strings(items: seq<string>)
    | Numbers(elems: seq<int>)
    | Precision(high: string, medium: string, low: string, range: string)

  /** `typeof v === "object"` for a value other than `null`. */
  predicate IsObject(v: Value) {
    v.Strings? || v.Numbers? || v.Precision?
  }

  predicate IsDigit(c: char) {
    '0' <= c <= '9'
  }

  predicate AllDigits(s: string) {
    forall k :: 0 <= k < |s| ==> IsDigit(s[k])
  }

  function DigitChar(d: nat): (c: char)
    requires d < 10
    ensures IsDigit(c) && c as int - '0' as int == d
  {
    (48 + d) as char
  }

  /** The decimal text of a natural number, most significant digit first and without leading zeros. */
  function Decimal(n: nat): (r: string)
    ensures 1 <= |r| && AllDigits(r)
    ensures (r[0] == '0') <==> n == 0
    ensures |r| == 1 <==> n < 10
  {
    if n < 10 then [DigitChar(n)] else Decimal(n / 10) + [DigitChar(n % 10)]
  }

  /** The numeric value of a string of decimal digits; the inverse of `Decimal`. */
  function ParseDecimal(s: string): nat
    requires AllDigits(s)
  {
    if s == [] then 0 else ParseDecimal(s[..|s| - 1]) * 10 + (s[|s| - 1] as int - '0' as int)
  }

  lemma {:induction false} DecimalRoundTrip(n: nat)
    ensures ParseDecimal(Decimal(n)) == n
  {
    if n >= 10 {
      var d := Decimal(n);
      assert d[..|d| - 1] == Decimal(n / 10);
      DecimalRoundTrip(n / 10);
    }
  }

  lemma DecimalInjective(a: nat, b: nat)
    requires Decimal(a) == Decimal(b)
    ensures a == b
  {
    DecimalRoundTrip(a);
    DecimalRoundTrip(b);
  }

  /** `"" + i` for an integer `i`. */
  function IntText(i: int): (r: string)
    ensures 1 <= |r|
  {
    if i < 0 then "-" + Decimal(-i) else Decimal(i)
  }

  lemma IntTextInjective(a: int, b: int)
    requires IntText(a) == IntText(b)
    ensures a == b
  {
    if a < 0 && b < 0 {
      assert IntText(a)[1..] == Decimal(-a) && IntText(b)[1..] == Decimal(-b);
      DecimalInjective(-a, -b);
    } else if a >= 0 && b >= 0 {
      DecimalInjective(a, b);
    }
  }

  /** The only integer whose text is "1" is 1. */
  lemma IntTextIsOne(i: int)
    ensures IntText(i) == "1" <==> i == 1
  {
    if IntText(i) == "1" {
      assert i >= 0;
      assert IntText(1) == "1";
      IntTextInjective(i, 1);
    }
  }
}
