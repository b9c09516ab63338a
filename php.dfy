/**
 * The parts of PHP's value semantics the plugin relies on: `empty()` and
 * truthiness, `is_numeric`, `absint`, integer-to-string conversion, exact
 * rounding of amounts, and the string helpers `str_contains`,
 * `str_replace` (with an empty replacement), `ucfirst` and `mb_substr`.
 */
module Php {
  import opened Wrappers

  /** A value read from a PHP request array or WooCommerce item array. Floats
    * are represented by `Number` where the plugin computes with them. */
  datatype Value = Null | Bool(b: bool) | Int(i: int) | Str(s: string) | Array(size: nat)

  /** `empty($s)` on a string, and the falsiness of a string: only "" and "0". */
  predicate EmptyString(s: string)
  {
    s == "" || s == "0"
  }

  /** `empty($v)`: null, false, 0, "", "0" and the empty array. */
  predicate Empty(v: Value)
  {
    match v
    case Null => true
    case Bool(b) => !b
    case Int(i) => i == 0
    case Str(s) => EmptyString(s)
    case Array(n) => n == 0
  }

  // ---------------------------------------------------------------- numbers

  type Pos = x: int | x > 0 witness 1

  /** An exact rational num/den standing for a PHP int or float amount. */
  datatype Number = Ratio(num: int, den: Pos)

  function Whole(i: int): Number
  {
    Ratio(i, 1)
  }

  predicate IsPositive(x: Number)
  {
    x.num > 0
  }

  predicate IsZero(x: Number)
  {
    x.num == 0
  }

  function Sub(x: Number, y: Number): Number
  {
    Ratio(x.num * y.den - y.num * x.den, x.den * y.den)
  }

  function Add(x: Number, y: Number): Number
  {
    Ratio(x.num * y.den + y.num * x.den, x.den * y.den)
  }

  function MulInt(x: Number, k: int): Number
  {
    Ratio(x.num * k, x.den)
  }

  /** PHP's `/`: division by zero raises DivisionByZeroError (None). */
  function Div(x: Number, y: Number): (r: Option<Number>)
    ensures r.None? <==> IsZero(y)
  {
    if y.num == 0 then None
    else if y.num > 0 then Some(Ratio(x.num * y.den, x.den * y.num))
    else Some(Ratio(-(x.num * y.den), x.den * (-y.num)))
  }

  /** The quotient times the divisor is the dividend. */
  lemma DivExact(x: Number, y: Number)
    requires !IsZero(y)
    ensures var q := Div(x, y).value; q.num * x.den * y.num == x.num * y.den * q.den
  {
  }

  /** Floor division by a positive divisor brackets the dividend. */
  lemma DivBounds(a: int, b: Pos)
    ensures (a / b) * b <= a < (a / b) * b + b
  {
  }

  /** PHP's `round()`: to the nearest integer, halves away from zero. */
  function Round(x: Number): (r: int)
    ensures x.num >= 0 ==> r >= 0
  {
    if x.num >= 0 then RoundUp(x.num, x.den) else -(RoundUp(-x.num, x.den) as int)
  }

  function RoundUp(n: nat, d: Pos): nat
  {
    (2 * n + d) / (2 * d)
  }

  /** Rounding half up lands within half a unit of n/d. */
  lemma RoundUpBounds(n: nat, d: Pos)
    ensures var r := RoundUp(n, d); -(d as int) < 2 * (r * d - n) <= d
  {
    DivBounds(2 * n + d, 2 * d);
  }

  /** The rounded value is within half a unit of x. */
  lemma RoundBounds(x: Number)
    ensures var r := Round(x); -(x.den as int) <= 2 * (r * x.den - x.num) <= x.den
  {
    if x.num >= 0 {
      RoundUpBounds(x.num, x.den);
    } else {
      RoundUpBounds(-x.num, x.den);
    }
  }

  /** PHP's `ceil()`: the least integer not below x. */
  function Ceil(x: Number): int
  {
    -((-x.num) / x.den)
  }

  /** The ceiling is the least integer not below x. */
  lemma CeilBounds(x: Number)
    ensures var r := Ceil(x); x.num <= r * x.den < x.num + x.den
  {
    DivBounds(-x.num, x.den);
  }

  /** PHP's `(int)` cast of a float: toward zero. */
  function Truncate(x: Number): (r: int)
    ensures x.num >= 0 ==> 0 <= r
    ensures x.num < 0 ==> r <= 0
  {
    if x.num >= 0 then x.num / x.den else -((-x.num) / x.den)
  }

  /** Truncation moves toward zero by less than one unit. */
  lemma TruncateBounds(x: Number)
    ensures var r := Truncate(x);
            (x.num >= 0 ==> r * x.den <= x.num < r * x.den + x.den)
            && (x.num < 0 ==> x.num <= r * x.den < x.num + x.den)
  {
    if x.num >= 0 {
      DivBounds(x.num, x.den);
    } else {
      DivBounds(-x.num, x.den);
    }
  }

  // --------------------------------------------------------------- strings

  predicate IsDigit(c: char)
  {
    '0' <= c <= '9'
  }

  /** PHP's whitespace for numeric strings: space, \t, \n, \r, \v, \f. */
  predicate IsSpace(c: char)
  {
    c == ' ' || c == '\t' || c == '\n' || c == '\r' || c as int == 11 || c as int == 12
  }

  predicate AllDigits(s: string)
  {
    forall i :: 0 <= i < |s| ==> IsDigit(s[i])
  }

  function TrimLeft(s: string): (r: string)
    ensures |r| <= |s| && r == s[|s| - |r|..]
    ensures r == [] || !IsSpace(r[0])
  {
    if s != [] && IsSpace(s[0]) then
      var r := TrimLeft(s[1..]);
      assert s[1..][|s| - 1 - |r|..] == s[|s| - |r|..];
      r
    else s
  }

  function TrimRight(s: string): (r: string)
    ensures |r| <= |s| && r == s[..|r|]
    ensures r == [] || !IsSpace(r[|r| - 1])
  {
    if s != [] && IsSpace(s[|s| - 1]) then
      var r := TrimRight(s[..|s| - 1]);
      assert s[..|s| - 1][..|r|] == s[..|r|];
      r
    else s
  }

  /** The number of leading decimal digits of s. */
  function DigitPrefix(s: string): (k: nat)
    ensures k <= |s| && AllDigits(s[..k])
    ensures k < |s| ==> !IsDigit(s[k])
  {
    if s != [] && IsDigit(s[0]) then
      var k := 1 + DigitPrefix(s[1..]);
      assert s[..k] == [s[0]] + s[1..][..k - 1];
      k
    else 0
  }

  function DigitValue(c: char): nat
    requires IsDigit(c)
  {
    c as int - '0' as int
  }

  /** The value of a string of decimal digits. */
  function DigitsValue(s: string): nat
    requires AllDigits(s)
  {
    if s == [] then 0 else DigitsValue(s[..|s| - 1]) * 10 + DigitValue(s[|s| - 1])
  }

  function Pow10(n: nat): Pos
  {
    if n == 0 then 1 else 10 * Pow10(n - 1)
  }

  /** Splits off an optional leading sign. */
  function SplitSign(t: string): (bool, string)
  {
    if t != [] && (t[0] == '+' || t[0] == '-') then (t[0] == '-', t[1..]) else (false, t)
  }

  /**
   * The value of a PHP numeric string, or None when `is_numeric` rejects it:
   * optional surrounding whitespace, an optional sign, decimal digits with an
   * optional fractional part (at least one digit in all), and an optional
   * exponent `e`/`E` with an optional sign and at least one digit.
   */
  function ParseNumeric(s: string): Option<Number>
  {
    var (neg, body) := SplitSign(TrimRight(TrimLeft(s)));
    var k := DigitPrefix(body);
    var rest := body[k..];
    var hasPoint := rest != [] && rest[0] == '.';
    var afterPoint := if hasPoint then rest[1..] else rest;
    var f := if hasPoint then DigitPrefix(afterPoint) else 0;
    if k == 0 && f == 0 then None
    else
      var mantissa: int := DigitsValue(body[..k]) * Pow10(f) + DigitsValue(afterPoint[..f]);
      var exponent := ParseExponent(afterPoint[f..]);
      if exponent.None? then None
      else Some(Scale(if neg then -mantissa else mantissa, exponent.value - f))
  }

  /** The exponent after the mantissa: 0 when there is none, None when the
    * remaining text is not an exponent `e`/`E`, optional sign, digits. */
  function ParseExponent(tail: string): Option<int>
  {
    if tail == [] then Some(0)
    else if tail[0] == 'e' || tail[0] == 'E' then
      var (neg, digits) := SplitSign(tail[1..]);
      if digits != [] && DigitPrefix(digits) == |digits| then
        var e: int := DigitsValue(digits[..DigitPrefix(digits)]);
        Some(if neg then -e else e)
      else None
    else None
  }

  /** m times ten to the power e. */
  function Scale(m: int, e: int): Number
  {
    if e >= 0 then Ratio(m * Pow10(e), 1) else Ratio(m, Pow10(-e))
  }

  predicate IsNumericString(s: string)
  {
    ParseNumeric(s).Some?
  }

  /** A non-empty run of decimal digits is numeric. */
  lemma DigitsAreNumeric(s: string)
    requires s != [] && AllDigits(s)
    ensures IsNumericString(s)
  {
    DigitsUnsigned(s);
    assert DigitPrefix(s) == |s|;
    var empty: string := [];
    assert ParseExponent(empty) == Some(0);
  }

  lemma DigitsUnsigned(s: string)
    requires s != [] && AllDigits(s)
    ensures SplitSign(TrimRight(TrimLeft(s))) == (false, s)
  {
    assert TrimLeft(s) == s;
    assert TrimRight(s) == s;
  }

  /** A string without a single decimal digit is never numeric. */
  lemma NoDigitNotNumeric(s: string)
    requires forall i | 0 <= i < |s| :: !IsDigit(s[i])
    ensures !IsNumericString(s)
  {
    var t := TrimRight(TrimLeft(s));
    var (neg, body) := SplitSign(t);
    assert forall i | 0 <= i < |t| :: !IsDigit(t[i]) by {
      forall i | 0 <= i < |t| ensures !IsDigit(t[i]) {
        assert t[i] == TrimLeft(s)[i] == s[|s| - |TrimLeft(s)| + i];
      }
    }
    assert forall i | 0 <= i < |body| :: !IsDigit(body[i]) by {
      forall i | 0 <= i < |body| ensures !IsDigit(body[i]) {
        if t != [] && (t[0] == '+' || t[0] == '-') {
          assert body[i] == t[i + 1];
        }
      }
    }
    assert DigitPrefix(body) == 0;
    var rest := body[0..];
    if rest != [] && rest[0] == '.' {
      assert DigitPrefix(rest[1..]) == 0 by {
        if rest[1..] != [] {
          assert rest[1..][0] == body[1];
        }
      }
    }
  }

  /** `is_numeric($v)` for the values the plugin validates. */
  predicate IsNumeric(v: Value)
  {
    match v
    case Int(_) => true
    case Str(s) => IsNumericString(s)
    case _ => false
  }

  /** The number a numeric value stands for in arithmetic. */
  function NumberOf(v: Value): (r: Option<Number>)
    ensures r.Some? <==> IsNumeric(v)
  {
    match v
    case Int(i) => Some(Whole(i))
    case Str(s) => ParseNumeric(s)
    case _ => None
  }

  /** `(string) $v` for the scalar values items carry. */
  function ToString(v: Value): string
  {
    match v
    case Null => ""
    case Bool(b) => if b then "1" else ""
    case Int(i) => IntToString(i)
    case Str(s) => s
    case Array(_) => "Array"
  }

  /** PHP 8's loose `$s == $n` for a string and an int: a numeric string is
    * compared by value, any other string is unequal. */
  predicate NumericStringEquals(s: string, n: int)
  {
    var x := ParseNumeric(s);
    x.Some? && x.value.num == n * x.value.den
  }

  /** PHP 8's loose `$v == $n` for a value and an int. */
  predicate LooseEqualsInt(v: Value, n: int)
  {
    match v
    case Null => n == 0
    case Bool(b) => b == (n != 0)
    case Int(i) => i == n
    case Str(s) => NumericStringEquals(s, n)
    case Array(_) => false
  }

  /** The decimal digits of a natural number, as PHP prints an int. */
  function NatToString(n: nat): (r: string)
    ensures |r| > 0 && AllDigits(r)
    ensures DigitsValue(r) == n
    decreases n
  {
    if n < 10 then ["0123456789"[n]]
    else
      var prefix := NatToString(n / 10);
      var r := prefix + ["0123456789"[n % 10]];
      assert r[..|r| - 1] == prefix;
      r
  }

  /** An int as PHP prints it: a minus sign for negatives, then its digits. */
  function IntToString(n: int): (r: string)
    ensures |r| > 0
    ensures n >= 0 ==> r == NatToString(n)
    ensures n < 0 ==> r == "-" + NatToString(-n)
  {
    if n < 0 then "-" + NatToString(-n) else NatToString(n)
  }

  /** PHP_INT_MAX and PHP_INT_MIN of a 64-bit build. */
  const IntMax: int := 0x7FFF_FFFF_FFFF_FFFF
  const IntMin: int := -0x8000_0000_0000_0000

  /** DBL_MAX plus half a unit in the last place, 2^1024 - 2^970: a decimal
    * number at least this large reads as an infinite double. */
  const DoubleOverflow: int := 0xFFFFFFFFFFFFFC00000000000000000000000000000000000000000000000000000000000000000000000000000000000000000000000000000000000000000000000000000000000000000000000000000000000000000000000000000000000000000000000000000000000000000000000000000000000000000000000000

  /**
   * The numeric text at the start of s, as `(int)` reads it since PHP 7.1:
   * leading whitespace, an optional sign, digits with an optional fractional
   * part (at least one digit in all), and an exponent when `e`/`E` is
   * followed by an optional sign and at least one digit. None when no digit
   * starts the text.
   */
  function LeadingNumber(s: string): Option<Number>
  {
    var (neg, body) := SplitSign(TrimLeft(s));
    match IntegerPart(body, 0, false)
    case None => None
    case Some(x) => Some(if neg then Ratio(-x.num, x.den) else x)
  }

  /** Reads the digits before the point: m is their value so far, and seen
    * says whether there was one. */
  function IntegerPart(s: string, m: nat, seen: bool): Option<Number>
    decreases |s|
  {
    if s != [] && IsDigit(s[0]) then IntegerPart(s[1..], m * 10 + DigitValue(s[0]), true)
    else if s != [] && s[0] == '.' then FractionPart(s[1..], m, 0, seen)
    else if seen then Some(Scale(m, ExponentPart(s)))
    else None
  }

  /** Reads the digits after the point, f of them so far. */
  function FractionPart(s: string, m: nat, f: nat, seen: bool): Option<Number>
    decreases |s|
  {
    if s != [] && IsDigit(s[0]) then FractionPart(s[1..], m * 10 + DigitValue(s[0]), f + 1, true)
    else if seen then Some(Scale(m, ExponentPart(s) - f))
    else None
  }

  /** The exponent at the start of s: 0 unless `e`/`E` and an optional sign
    * are followed by digits. */
  function ExponentPart(s: string): int
  {
    if s != [] && (s[0] == 'e' || s[0] == 'E') then
      var (neg, digits) := SplitSign(s[1..]);
      var e: int := ExponentDigits(digits, 0);
      if neg then -e else e
    else 0
  }

  function ExponentDigits(s: string, e: nat): nat
    decreases |s|
  {
    if s != [] && IsDigit(s[0]) then ExponentDigits(s[1..], e * 10 + DigitValue(s[0])) else e
  }

  /** PHP's `(int)` of a double read from a string: 0 for an infinite
    * double, PHP_INT_MAX or PHP_INT_MIN beyond the int range, otherwise
    * truncated toward zero. */
  function CapToInt(x: Number): int
  {
    if DoubleOverflow * x.den <= x.num || DoubleOverflow * x.den <= -x.num then 0
    else if (IntMax + 1) * x.den <= x.num then IntMax
    else if x.num < IntMin * x.den then IntMin
    else Truncate(x)
  }

  /** `(int) $s` and `intval($s)` on a string. */
  function IntVal(s: string): int
  {
    match LeadingNumber(s)
    case None => 0
    case Some(x) => CapToInt(x)
  }

  /** WordPress `absint()`: the absolute value of `intval()`. */
  function AbsInt(s: string): nat
  {
    var i := IntVal(s);
    if i < 0 then -i else i
  }

  /** The cast stays within the int range. */
  lemma IntValInRange(s: string)
    ensures IntMin <= IntVal(s) <= IntMax
    ensures 0 <= AbsInt(s) <= IntMax + 1
  {
    match LeadingNumber(s)
    case None =>
    case Some(x) =>
      TruncateBounds(x);
  }

  lemma {:induction false} AllDigitsPrefix(s: string)
    requires AllDigits(s)
    ensures DigitPrefix(s) == |s|
    decreases |s|
  {
    if s != [] {
      AllDigitsPrefix(s[1..]);
    }
  }

  /** The value of a digit run, read from its first digit. */
  lemma {:induction false} DigitsValueCons(s: string)
    requires s != [] && AllDigits(s)
    ensures DigitsValue(s) == DigitValue(s[0]) * Pow10(|s| - 1) + DigitsValue(s[1..])
    decreases |s|
  {
    var last := DigitValue(s[|s| - 1]);
    if |s| == 1 {
      var empty: string := [];
      assert s[..0] == empty && s[1..] == empty;
    } else {
      var p := s[..|s| - 1];
      DigitsValueCons(p);
      assert p[0] == s[0];
      assert p[1..] == s[1..][..|s| - 2];
      assert s[1..][|s| - 2] == s[|s| - 1];
      var c := DigitValue(s[0]);
      var k := Pow10(|s| - 2);
      var rest := DigitsValue(p[1..]);
      assert DigitsValue(s) == DigitsValue(p) * 10 + last;
      assert DigitsValue(s[1..]) == rest * 10 + last;
      assert Pow10(|s| - 1) == 10 * k;
      PrependDigit(c, k, rest);
    }
  }

  lemma PrependDigit(c: int, k: int, rest: int)
    ensures (c * k + rest) * 10 == c * (10 * k) + rest * 10
  {
  }

  lemma ShiftDigit(m: int, c: int, k: int)
    ensures (m * 10 + c) * k == m * (10 * k) + c * k
  {
  }

  /** Reading a run of digits before the point adds them to the value. */
  lemma {:induction false} IntegerDigits(d: string, t: string, m: nat, seen: bool)
    requires AllDigits(d)
    requires t == [] || !IsDigit(t[0])
    ensures IntegerPart(d + t, m, seen) == IntegerPart(t, m * Pow10(|d|) + DigitsValue(d), seen || d != [])
    decreases |d|
  {
    if d == [] {
      assert d + t == t;
      assert m * Pow10(|d|) + DigitsValue(d) == m;
    } else {
      assert (d + t)[0] == d[0] && (d + t)[1..] == d[1..] + t;
      var c := DigitValue(d[0]);
      assert IntegerPart(d + t, m, seen) == IntegerPart(d[1..] + t, m * 10 + c, true);
      IntegerDigits(d[1..], t, m * 10 + c, true);
      DigitsValueCons(d);
      var k := Pow10(|d| - 1);
      assert Pow10(|d|) == 10 * k;
      ShiftDigit(m, c, k);
      assert (m * 10 + c) * k + DigitsValue(d[1..]) == m * Pow10(|d|) + DigitsValue(d);
    }
  }

  /** Reading a run of exponent digits adds them to the exponent. */
  lemma {:induction false} ExponentRun(d: string, e: nat)
    requires AllDigits(d)
    ensures ExponentDigits(d, e) == e * Pow10(|d|) + DigitsValue(d)
    decreases |d|
  {
    if d != [] {
      var c := DigitValue(d[0]);
      ExponentRun(d[1..], e * 10 + c);
      DigitsValueCons(d);
      var k := Pow10(|d| - 1);
      assert Pow10(|d|) == 10 * k;
      ShiftDigit(e, c, k);
    }
  }

  /** Digits followed by text that does not continue them read as the
    * digits scaled by whatever exponent the text starts with. */
  lemma LeadingDigitsThen(m: string, t: string)
    requires m != [] && AllDigits(m)
    requires t == [] || (!IsDigit(t[0]) && t[0] != '.')
    ensures LeadingNumber(m + t) == Some(Scale(DigitsValue(m), ExponentPart(t)))
  {
    var s := m + t;
    assert s[0] == m[0] && IsDigit(s[0]);
    assert !IsSpace(s[0]) && s[0] != '+' && s[0] != '-';
    assert TrimLeft(s) == s;
    assert SplitSign(s) == (false, s);
    IntegerDigits(m, t, 0, false);
    assert 0 * Pow10(|m|) + DigitsValue(m) == DigitsValue(m);
    assert IntegerPart(t, DigitsValue(m), true) == Some(Scale(DigitsValue(m), ExponentPart(t)));
    assert IntegerPart(s, 0, false) == Some(Scale(DigitsValue(m), ExponentPart(t)));
  }

  /** A run of decimal digits reads as the whole number it spells. */
  lemma LeadingNumberOfDigits(s: string)
    requires s != [] && AllDigits(s)
    ensures LeadingNumber(s) == Some(Ratio(DigitsValue(s), 1))
  {
    var empty: string := [];
    assert s + empty == s;
    LeadingDigitsThen(s, empty);
    assert Pow10(0) == 1;
  }

  /** Digits followed by text that cannot continue a number read as the
    * digits alone: "12abc" is 12. */
  lemma IntValStopsAtText(m: string, t: string)
    requires m != [] && AllDigits(m)
    requires t != [] && !IsDigit(t[0]) && t[0] !in ".eE"
    ensures IntVal(m + t) == CapToInt(Ratio(DigitsValue(m), 1))
  {
    LeadingDigitsThen(m, t);
    assert Pow10(0) == 1;
  }

  /** Exponent notation is applied: digits m, `e`, digits x read as
    * m times ten to the x, capped to the int range: "1e3" is 1000. */
  lemma IntValAppliesExponent(m: string, x: string)
    requires m != [] && AllDigits(m) && x != [] && AllDigits(x)
    ensures IntVal(m + "e" + x) == CapToInt(Ratio(DigitsValue(m) * Pow10(DigitsValue(x)), 1))
  {
    var t := "e" + x;
    assert m + "e" + x == m + t;
    LeadingDigitsThen(m, t);
    ExponentOfDigits(x);
  }

  /** An `e` followed by digits is the exponent those digits spell. */
  lemma ExponentOfDigits(x: string)
    requires x != [] && AllDigits(x)
    ensures ExponentPart("e" + x) == DigitsValue(x)
  {
    var t := "e" + x;
    assert t[1..] == x;
    assert x[0] != '+' && x[0] != '-' by {
      assert IsDigit(x[0]);
    }
    ExponentRun(x, 0);
  }

  /** A run of digits beyond PHP_INT_MAX reads as PHP_INT_MAX, short of
    * the double range. */
  lemma IntValCapsOverflow(m: string)
    requires m != [] && AllDigits(m)
    requires IntMax < DigitsValue(m) < DoubleOverflow
    ensures IntVal(m) == IntMax
  {
    LeadingNumberOfDigits(m);
  }

  /** An order id rendered as a decimal string and read back with `absint`
    * is the same id: the reference number round-trips through the browser. */
  lemma AbsIntOfNatToString(n: nat)
    requires n <= IntMax
    ensures IntVal(NatToString(n)) == n
    ensures AbsInt(NatToString(n)) == n
  {
    var s := NatToString(n);
    IntValOfDigits(s);
    CapToIntOfNat(n);
  }

  /** `absint("12abc")` reads the leading digits: 12. */
  lemma AbsIntReadsLeadingDigits()
    ensures AbsInt("12abc") == 12
  {
    assert "12abc" == "12" + "abc";
    IntValStopsAtText("12", "abc");
    assert DigitsValue("12") == 12 by {
      assert "12"[..1] == "1";
    }
    CapToIntOfNat(12);
  }

  /** `is_numeric("12abc")` is false: text follows the digits. */
  lemma TrailingTextNotNumeric()
    ensures !IsNumericString("12abc")
  {
    var s := "12abc";
    assert s[1..] == "2abc" && s[2..] == "abc";
    assert DigitPrefix(s[2..]) == 0;
    assert DigitPrefix(s) == 2;
    assert s[0] == '1' && s[|s| - 1] == 'c';
    assert !IsSpace(s[0]) && !IsSpace(s[|s| - 1]);
    assert TrimLeft(s) == s;
    assert TrimRight(s) == s;
    assert ParseExponent("abc").None?;
  }

  /** A run of digits reads as its decimal value, capped to the int range. */
  lemma IntValOfDigits(s: string)
    requires s != [] && AllDigits(s)
    ensures IntVal(s) == CapToInt(Ratio(DigitsValue(s), 1))
  {
    LeadingNumberOfDigits(s);
  }

  lemma CapToIntOfNat(n: nat)
    requires n <= IntMax
    ensures CapToInt(Ratio(n, 1)) == n
  {
    assert Truncate(Ratio(n, 1)) == n / 1 == n;
  }

  /** `str_contains($haystack, $needle)`. */
  predicate Contains(haystack: string, needle: string)
  {
    exists i :: 0 <= i <= |haystack| - |needle| && OccursAt(haystack, needle, i)
  }

  predicate OccursAt(haystack: string, needle: string, i: int)
  {
    0 <= i <= |haystack| - |needle| && haystack[i..i + |needle|] == needle
  }

  /** `str_replace($needle, '', $s)`: every occurrence, scanned left to right. */
  function RemoveAll(s: string, needle: string): (r: string)
    requires needle != []
    ensures |r| <= |s|
    decreases |s|
  {
    if |s| < |needle| then s
    else if s[..|needle|] == needle then RemoveAll(s[|needle|..], needle)
    else [s[0]] + RemoveAll(s[1..], needle)
  }

  /** A string with no occurrence of the needle is left as it is. */
  lemma {:induction false} RemoveAllAbsent(s: string, needle: string)
    requires needle != []
    requires !Contains(s, needle)
    ensures RemoveAll(s, needle) == s
    decreases |s|
  {
    if |s| >= |needle| {
      assert !OccursAt(s, needle, 0);
      assert s[..|needle|] != needle;
      assert !Contains(s[1..], needle) by {
        forall i | 0 <= i <= |s[1..]| - |needle|
          ensures !OccursAt(s[1..], needle, i)
        {
          assert s[1..][i..i + |needle|] == s[i + 1..i + 1 + |needle|];
          assert !OccursAt(s, needle, i + 1);
        }
      }
      RemoveAllAbsent(s[1..], needle);
    }
  }

  /** `ucfirst()`: the first character upper-cased (ASCII letters only). */
  function UcFirst(s: string): (r: string)
    ensures |r| == |s| && (|s| > 0 ==> r[1..] == s[1..])
    ensures |s| > 0 && 'a' <= s[0] <= 'z' ==> r[0] as int == s[0] as int - 32
    ensures |s| > 0 && !('a' <= s[0] <= 'z') ==> r == s
  {
    if |s| > 0 && 'a' <= s[0] <= 'z' then [(s[0] as int - 32) as char] + s[1..] else s
  }

  /** `mb_substr($s, 0, $n)`: the first n characters. */
  function Prefix(s: string, n: nat): (r: string)
    ensures |r| == if |s| < n then |s| else n
    ensures r == s[..|r|]
  {
    if |s| <= n then s else s[..n]
  }
}
