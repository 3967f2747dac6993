/**
 * The slice of JavaScript values the front end handles: JSON-like values
 * with integral numbers. Arrays, NaN, -0 and fractional numbers are not
 * modelled.
 */
module JsValues {
  datatype JsValue =
    | Undefined
    | Null
    | Bool(b: bool)
    | Num(n: int)
    | Str(s: string)
    | Obj(props: map<string, JsValue>)

  /** JavaScript truthiness: what `if (v)`, `!v` and `||` test. */
  predicate Truthy(v: JsValue) {
    match v
    case Undefined => false
    case Null => false
    case Bool(b) => b
    case Num(n) => n != 0
    case Str(s) => s != ""
    case Obj(_) => true
  }

  /** Property read `o[key]` on a plain object: a missing key reads as undefined. */
  function Get(o: map<string, JsValue>, key: string): JsValue {
    if key in o then o[key] else Undefined
  }

  /** `a || b`: `a` when it is truthy, else `b`. */
  function Or(a: JsValue, b: JsValue): JsValue {
    if Truthy(a) then a else b
  }

  function DigitChar(d: nat): (c: char)
    requires d < 10
    ensures '0' <= c <= '9' && c as int - '0' as int == d
  {
    ('0' as int + d) as char
  }

  /** Decimal digits of a natural number, most significant first, no leading zeros. */
  function DecimalDigits(n: nat): (r: string)
    ensures |r| >= 1
    ensures forall i :: 0 <= i < |r| ==> '0' <= r[i] <= '9'
    ensures n > 0 ==> r[0] != '0'
    decreases n
  {
    if n < 10 then [DigitChar(n)] else DecimalDigits(n / 10) + [DigitChar(n % 10)]
  }

  /** The number a string of decimal digits denotes, read most significant first. */
  function DigitsValue(s: string): nat
    decreases |s|
  {
    if s == [] then 0
    else
      var d := s[|s| - 1] as int - '0' as int;
      DigitsValue(s[..|s| - 1]) * 10 + (if 0 <= d then d else 0)
  }

  /** The digits denote the number they were written from. */
  lemma {:induction false} DecimalDigitsValue(n: nat)
    ensures DigitsValue(DecimalDigits(n)) == n
    decreases n
  {
    var r := DecimalDigits(n);
    if n < 10 {
      assert r[..0] == [];
    } else {
      DecimalDigitsValue(n / 10);
      assert r[..|r| - 1] == DecimalDigits(n / 10);
      assert r[|r| - 1] == DigitChar(n % 10);
    }
  }

  /** The number a decimal string denotes, with an optional leading minus sign. */
  function SignedValue(s: string): int {
    if |s| > 0 && s[0] == '-' then 0 - DigitsValue(s[1..]) as int else DigitsValue(s)
  }

  /** `String(v)` for the modelled values. */
  function ToJsString(v: JsValue): (r: string)
    ensures r == "" <==> v == Str("")
    ensures v.Num? ==> |r| >= 1 && forall i :: 0 <= i < |r| ==> r[i] == '-' || '0' <= r[i] <= '9'
    ensures v.Num? ==> (v.n < 0 <==> r[0] == '-') && '-' !in r[1..]
  {
    match v
    case Undefined => "undefined"
    case Null => "null"
    case Bool(b) => if b then "true" else "false"
    case Num(n) => if n < 0 then "-" + DecimalDigits(-n) else DecimalDigits(n)
    case Str(s) => s
    case Obj(_) => "[object Object]"
  }

  /** A number's `String()` form reads back to that number. */
  lemma NumberStringValue(n: int)
    ensures SignedValue(ToJsString(Num(n))) == n
  {
    if n < 0 {
      var r := ToJsString(Num(n));
      assert r[1..] == DecimalDigits(-n);
      DecimalDigitsValue(-n);
    } else {
      DecimalDigitsValue(n);
    }
  }
}
