/**
 * The JavaScript values that reach the SQL builders through a JSON request
 * body, the truthiness test the handlers apply to optional fields
 * (`if (col.length) ...`), and the text a template literal produces when it
 * interpolates a value (`${col.length}`, which is `String(v)`).
 */
module Js {

  /** `Number.MAX_SAFE_INTEGER`, 2^53 - 1. */
  const MAX_SAFE_INTEGER: int := 0x1F_FFFF_FFFF_FFFF

  /**
   * The integers a JavaScript number holds exactly, and which `String(n)`
   * writes as plain decimal digits.
   */
  type SafeInt = n: int | -MAX_SAFE_INTEGER <= n <= MAX_SAFE_INTEGER

  /** A JSON scalar as JavaScript sees it; an absent field is `Undefined`. */
  datatype Value =
    | Undefined
    | Null
    | Bool(b: bool)
    | Num(n: SafeInt)
    | Str(s: string)

  /** JavaScript truthiness: exactly `undefined`, `null`, `false`, `0` and `""` are falsy. */
  predicate Truthy(v: Value)
    ensures Truthy(v) <==> !(v == Undefined || v == Null || v == Bool(false) || v == Num(0) || v == Str(""))
  {
    match v
    case Undefined => false
    case Null => false
    case Bool(b) => b
    case Num(n) => n != 0
    case Str(s) => s != ""
  }

  predicate IsDigit(c: char) {
    '0' <= c <= '9'
  }

  function Digit(d: nat): (c: char)
    requires d < 10
    ensures IsDigit(c) && (c as int) - ('0' as int) == d
  {
    ('0' as int + d) as char
  }

  function DigitValue(c: char): nat
    requires IsDigit(c)
  {
    (c as int) - ('0' as int)
  }

  /** The decimal numeral of a natural number, as `String(n)` writes it for a safe integer. */
  function NatToDecimal(n: nat): (r: string)
    ensures |r| >= 1
    ensures forall i :: 0 <= i < |r| ==> IsDigit(r[i])
    ensures r[0] == '0' <==> n == 0
    ensures n < 10 <==> |r| == 1
  {
    if n < 10 then [Digit(n)] else NatToDecimal(n / 10) + [Digit(n % 10)]
  }

  /** Reads a string of decimal digits back as a number. */
  function DecimalToNat(s: string): nat
    requires forall i :: 0 <= i < |s| ==> IsDigit(s[i])
  {
    if s == [] then 0 else DecimalToNat(s[..|s| - 1]) * 10 + DigitValue(s[|s| - 1])
  }

  lemma {:induction false} DecimalRoundTrip(n: nat)
    ensures DecimalToNat(NatToDecimal(n)) == n
  {
    if n >= 10 {
      DecimalRoundTrip(n / 10);
      var s := NatToDecimal(n);
      assert s[..|s| - 1] == NatToDecimal(n / 10);
    }
  }

  /**
   * `String(v)` for the values modelled here, which is what `${v}` inserts.
   * Only the empty string interpolates to nothing: a falsy `0`, `false` or
   * `null` still writes text, which is why the handlers test truthiness
   * before they append a clause. A number is written with a leading minus
   * sign exactly when it is negative.
   */
  function Render(v: Value): (r: string)
    ensures r == "" <==> v == Str("")
    ensures v.Num? ==> r != [] && (r[0] == '-' <==> v.n < 0)
  {
    match v
    case Undefined => "undefined"
    case Null => "null"
    case Bool(b) => if b then "true" else "false"
    case Num(n) => if n < 0 then "-" + NatToDecimal(-n) else NatToDecimal(n)
    case Str(s) => s
  }

  /** Reads an integer numeral, with an optional leading minus sign. */
  function ParseInteger(s: string): int
    requires s != [] && (s[0] == '-' || IsDigit(s[0]))
    requires forall i :: 1 <= i < |s| ==> IsDigit(s[i])
  {
    if s[0] == '-' then 0 - DecimalToNat(s[1..]) as int else DecimalToNat(s)
  }

  /** Interpolating a number writes a numeral that reads back as that number. */
  lemma NumberRenderRoundTrip(n: SafeInt)
    ensures var r := Render(Num(n));
      r != [] && (r[0] == '-' || IsDigit(r[0]))
      && (forall i :: 1 <= i < |r| ==> IsDigit(r[i]))
      && ParseInteger(r) == n
  {
    var r := Render(Num(n));
    if n < 0 {
      DecimalRoundTrip(-n);
      assert r[1..] == NatToDecimal(-n);
    } else {
      DecimalRoundTrip(n);
    }
  }
}
