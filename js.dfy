/**
 * JavaScript values as far as the pages look at them: truthiness, optional
 * property access, `x || 0`, and `Number(s)` on decimal literals.
 */
module Js {
  import Text
  import opened Wrappers

  /** A JavaScript number: `NaN` or a finite value. */
  datatype JsNumber = NaN | Num(value: real)

  /** A value produced by `JSON.parse`, or read from such a value. */
  datatype JsValue =
    | Undefined
    | Null
    | Bool(b: bool)
    | Number(n: JsNumber)
    | Str(s: string)
    | Arr(items: seq<JsValue>)
    | Obj(fields: map<string, JsValue>)

  /** JavaScript truthiness (`if (v)`). */
  predicate Truthy(v: JsValue)
  {
    match v
    case Undefined => false
    case Null => false
    case Bool(b) => b
    case Number(n) => n.Num? && n.value != 0.0
    case Str(s) => s != ""
    case Arr(_) => true
    case Obj(_) => true
  }

  /** `v?.name`: undefined on `null`/`undefined` and on any value without that own property. */
  function OptionalGet(v: JsValue, name: string): (r: JsValue)
    ensures !v.Obj? ==> r == Undefined
    ensures v.Obj? && name in v.fields ==> r == v.fields[name]
    ensures v.Obj? && name !in v.fields ==> r == Undefined
  {
    if v.Obj? && name in v.fields then v.fields[name] else Undefined
  }

  /** `n || 0` on a number: `NaN` and zero become zero. */
  function OrZero(n: JsNumber): (r: real)
    ensures n.Num? ==> r == n.value
    ensures n.NaN? ==> r == 0.0
  {
    if n.Num? then n.value else 0.0
  }

  predicate IsDigit(c: char)
  {
    '0' <= c <= '9'
  }

  predicate AllDigits(s: string)
  {
    forall i :: 0 <= i < |s| ==> IsDigit(s[i])
  }

  /** Value of a run of decimal digits, most significant first. */
  function DigitsValue(s: string): nat
    requires AllDigits(s)
    decreases |s|
  {
    if s == [] then 0 else DigitsValue(s[..|s| - 1]) * 10 + (s[|s| - 1] as int - '0' as int)
  }

  /** `10^n`. */
  function Pow10(n: nat): (p: nat)
    ensures p >= 1
  {
    if n == 0 then 1 else 10 * Pow10(n - 1)
  }

  /** The value of the digits after a decimal point: `0.f`. */
  function Fraction(f: string): real
    requires AllDigits(f)
  {
    DigitsValue(f) as real / Pow10(|f|) as real
  }

  /**
   * An unsigned decimal literal: digits, optionally a point and more digits,
   * with at least one digit on either side of the point (`5`, `5.`, `.5`,
   * `3.25`); anything else has no value here.
   */
  function UnsignedValue(t: string): Option<real>
  {
    var k := DigitRun(t);
    if k == |t| then (if k == 0 then None else Some(DigitsValue(t) as real))
    else if t[k] == '.' && AllDigits(t[k + 1..]) && (k > 0 || k + 1 < |t|) then
      Some(DigitsValue(t[..k]) as real + Fraction(t[k + 1..]))
    else None
  }

  /**
   * `Number(s)` for the inputs the pages produce: surrounding white space is
   * ignored, the empty string is zero, an optional sign followed by an
   * unsigned decimal literal is that value; anything else is `NaN` here.
   */
  function ToNumber(s: string): JsNumber
  {
    var t := Text.Trim(s);
    if t == [] then Num(0.0)
    else
      var signed := t[0] == '-' || t[0] == '+';
      match UnsignedValue(if signed then t[1..] else t)
      case None => NaN
      case Some(v) => if t[0] == '-' then Num(-v) else Num(v)
  }

  /** `Number("")` and `Number("  ")` are zero. */
  lemma BlankIsZero(s: string)
    requires Text.IsBlank(s)
    ensures ToNumber(s) == Num(0.0)
  {
    Text.TrimSpec(s);
  }

  /** Length of the run of decimal digits at the start of `s`. */
  function DigitRun(s: string): (n: nat)
    ensures n <= |s| && AllDigits(s[..n])
    ensures n < |s| ==> !IsDigit(s[n])
  {
    if s != [] && IsDigit(s[0]) then
      var m := DigitRun(s[1..]);
      assert s[..m + 1] == [s[0]] + s[1..][..m];
      m + 1
    else 0
  }

  /**
   * `parseInt(s, 10)`: leading white space is skipped, an optional sign is
   * read, then the longest run of decimal digits; with no digit it is `NaN`.
   */
  function ParseInt(s: string): JsNumber
  {
    var t := Text.TrimStart(s);
    var u := if t != [] && (t[0] == '-' || t[0] == '+') then t[1..] else t;
    var k := DigitRun(u);
    if k == 0 then NaN
    else if t[0] == '-' then Num(-(DigitsValue(u[..k]) as real))
    else Num(DigitsValue(u[..k]) as real)
  }

  /** A digit run followed by anything else parses as the digits alone. */
  lemma ParseIntDigitsThen(digits: string, rest: string)
    requires digits != [] && AllDigits(digits)
    requires rest == [] || !IsDigit(rest[0])
    ensures ParseInt(digits + rest) == Num(DigitsValue(digits) as real)
  {
    var s := digits + rest;
    DigitNotSpace(s[0]);
    assert Text.TrimStart(s) == s;
    DigitRunOf(digits, rest);
    assert s[..|digits|] == digits;
  }

  /** `parseInt(String(n), 10) === n` for a non-negative integer. */
  lemma ParseIntDecimal(n: nat)
    ensures ParseInt(Decimal(n)) == Num(n as real)
  {
    DecimalValue(n);
    ParseIntDigitsThen(Decimal(n), "");
    assert Decimal(n) + "" == Decimal(n);
  }

  lemma {:induction false} DigitRunOf(digits: string, rest: string)
    requires AllDigits(digits)
    requires rest == [] || !IsDigit(rest[0])
    ensures DigitRun(digits + rest) == |digits|
  {
    if digits != [] {
      assert (digits + rest)[1..] == digits[1..] + rest;
      DigitRunOf(digits[1..], rest);
    } else {
      assert digits + rest == rest;
    }
  }

  /** The decimal text of `n`, as `String(n)` writes it. */
  function Decimal(n: nat): (s: string)
    ensures s != [] && AllDigits(s)
  {
    if n < 10 then ["0123456789"[n]] else Decimal(n / 10) + ["0123456789"[n % 10]]
  }

  /** `Number(String(n)) === n`: reading back a written non-negative integer gives it back. */
  lemma {:induction false} DecimalRoundTrip(n: nat)
    ensures ToNumber(Decimal(n)) == Num(n as real)
  {
    var s := Decimal(n);
    DecimalValue(n);
    DigitNotSpace(s[0]);
    DigitNotSpace(s[|s| - 1]);
    Text.TrimUnchanged(s);
    DigitRunOf(s, "");
    assert s + "" == s;
  }

  lemma DigitNotSpace(c: char)
    requires IsDigit(c)
    ensures !Text.IsSpace(c)
  {
  }

  lemma {:induction false} DecimalValue(n: nat)
    ensures DigitsValue(Decimal(n)) == n
  {
    if n >= 10 {
      DecimalValue(n / 10);
      var s := Decimal(n);
      assert s[..|s| - 1] == Decimal(n / 10);
    }
  }

  /** An integer part, a point and a fraction read as their sum. */
  lemma UnsignedPoint(i: string, f: string)
    requires i != [] && AllDigits(i) && AllDigits(f)
    ensures UnsignedValue(i + "." + f) == Some(DigitsValue(i) as real + Fraction(f))
  {
    var t := i + ("." + f);
    assert t == i + "." + f;
    DigitRunOf(i, "." + f);
    var k := DigitRun(t);
    assert k == |i| < |t| && t[k] == '.';
    assert t[..k] == i;
    assert t[k + 1..] == f;
  }

  /** `Number("i.f")` is the integer part plus the fraction, e.g. `Number("3.5") === 3.5`. */
  lemma PointLiteral(i: string, f: string)
    requires i != [] && AllDigits(i) && AllDigits(f)
    ensures ToNumber(i + "." + f) == Num(DigitsValue(i) as real + Fraction(f))
  {
    var t := i + "." + f;
    assert t[0] == i[0];
    DigitNotSpace(t[0]);
    assert !Text.IsSpace(t[|t| - 1]) by {
      if f == [] { assert t[|t| - 1] == '.'; } else { assert t[|t| - 1] == f[|f| - 1]; DigitNotSpace(f[|f| - 1]); }
    }
    Text.TrimUnchanged(t);
    UnsignedPoint(i, f);
  }
}
