/** The few JavaScript values and conversions the widget's logic depends on. */
module Js {

  datatype Option<+T> = None | Some(value: T)

  /** `Number.MAX_SAFE_INTEGER`, 2^53 - 1. */
  const MaxSafeInteger := 9007199254740991

  /** The integers a JavaScript number holds exactly; `String(n)` spells
      each of them in plain decimal. */
  type SafeInt = i: int | -MaxSafeInteger <= i <= MaxSafeInteger

  /** A property value as the widget reads it from a plain object:
      undefined, null, a boolean, a string or a safe integer. Objects,
      arrays and other numbers are not among them. */
  datatype Value = Undefined | Null | Bool(b: bool) | Str(s: string) | Int(i: SafeInt)

  /** JavaScript truthiness, as used by `x ? x : y` and `!x`: the falsy
      values are `undefined`, `null`, `false`, `''` and `0`. */
  predicate Truthy(v: Value): (t: bool)
    ensures !t <==> v in {Undefined, Null, Bool(false), Str(""), Int(0)}
  {
    match v
    case Undefined => false
    case Null => false
    case Bool(b) => b
    case Str(s) => s != ""
    case Int(i) => i != 0
  }

  predicate IsDigit(c: char) {
    '0' <= c <= '9'
  }

  predicate AllDigits(s: string) {
    forall k :: 0 <= k < |s| ==> IsDigit(s[k])
  }

  function DigitChar(d: nat): char
    requires d < 10
  {
    ('0' as int + d) as char
  }

  function DigitValue(c: char): nat
    requires IsDigit(c)
  {
    c as int - '0' as int
  }

  /** The decimal spelling of a natural number, most significant digit first. */
  function Decimal(n: nat): (s: string)
    ensures |s| >= 1 && AllDigits(s)
    ensures s[0] == '0' ==> n == 0
    decreases n
  {
    if n < 10 then [DigitChar(n)] else Decimal(n / 10) + [DigitChar(n % 10)]
  }

  /** Reads a string of decimal digits back as a number. */
  function ParseDecimal(s: string): nat
    requires AllDigits(s)
    decreases |s|
  {
    if s == [] then 0 else ParseDecimal(s[..|s| - 1]) * 10 + DigitValue(s[|s| - 1])
  }

  lemma {:induction false} DecimalRoundTrip(n: nat)
    ensures ParseDecimal(Decimal(n)) == n
    decreases n
  {
    var s := Decimal(n);
    if n < 10 {
      assert s[..|s| - 1] == [];
    } else {
      assert s[..|s| - 1] == Decimal(n / 10);
      DecimalRoundTrip(n / 10);
    }
  }

  /** String conversion, as in `'text' + v`. A string is itself; an
      integer is its decimal digits, with no leading zero unless it is 0,
      read back as its magnitude, after a `-` exactly when it is negative. */
  function ToText(v: Value): (r: string)
    ensures v.Str? ==> r == v.s
    ensures v.Int? ==> |r| >= 1 && (r[0] == '-' <==> v.i < 0)
    ensures v.Int? && v.i >= 0 ==> AllDigits(r) && ParseDecimal(r) == v.i
    ensures v.Int? && v.i < 0 ==> AllDigits(r[1..]) && ParseDecimal(r[1..]) == -v.i
    ensures v.Int? ==> var d := if v.i < 0 then r[1..] else r;
      |d| >= 1 && (d[0] == '0' ==> v.i == 0)
  {
    match v
    case Undefined => "undefined"
    case Null => "null"
    case Bool(b) => if b then "true" else "false"
    case Str(s) => s
    case Int(i) =>
      var n := if i < 0 then -i else i;
      DecimalRoundTrip(n);
      if i < 0 then
        var r := "-" + Decimal(n);
        assert r[1..] == Decimal(n);
        r
      else Decimal(n)
  }

  /** `a ? a : b`: the first value when it is truthy, the second otherwise. */
  function Or(a: Value, b: Value): (r: Value)
    ensures Truthy(a) ==> r == a
    ensures !Truthy(a) ==> r == b
  {
    if Truthy(a) then a else b
  }
}
