/**
 * The PHP values that reach the client through its `$data` arrays, and the
 * few PHP conversions and comparisons the client applies to them: `isset`,
 * truthiness, conversion to string, `strlen`, and the loose `==` and `>=`
 * operators (PHP 8 semantics).
 */
module Php {
  import opened Results

  /** A scalar held in a PHP array: null, an integer or a string. */
  datatype Value = Null | Int(i: int) | Str(s: string)

  /** An associative PHP array with string keys. */
  type Data = map<string, Value>

  /** `isset($data[$key])`: the key is present and its value is not null. */
  predicate IsSet(data: Data, key: string) {
    key in data && data[key] != Null
  }

  /** `$data[$key]`; a missing key reads as null. */
  function Get(data: Data, key: string): Value {
    if key in data then data[key] else Null
  }

  /** Truthiness of a scalar: null, 0, "" and "0" are false, everything else true. */
  predicate Truthy(v: Value) {
    match v
    case Null => false
    case Int(i) => i != 0
    case Str(s) => s != "" && s != "0"
  }

  /** `isset($data[$key]) && $data[$key]`: present, not null and truthy. */
  predicate Filled(data: Data, key: string) {
    IsSet(data, key) && Truthy(data[key])
  }

  // ---------------------------------------------------------------------
  // Decimal notation of integers

  predicate IsDigit(c: char) {
    '0' <= c <= '9'
  }

  predicate AllDigits(s: string) {
    forall i :: 0 <= i < |s| ==> IsDigit(s[i])
  }

  function DigitChar(d: nat): (c: char)
    requires d < 10
    ensures IsDigit(c) && c as int - '0' as int == d
  {
    ('0' as int + d) as char
  }

  /** The decimal digits of `n`, without leading zeros. */
  function NatToDecimal(n: nat): (s: string)
    ensures |s| >= 1 && AllDigits(s)
    ensures s[0] == '0' ==> n == 0
    decreases n
  {
    if n < 10 then [DigitChar(n)] else NatToDecimal(n / 10) + [DigitChar(n % 10)]
  }

  /** The number a run of decimal digits denotes (0 for the empty run). */
  function DigitsValue(s: string): nat
    requires AllDigits(s)
    decreases |s|
  {
    if s == [] then 0
    else 10 * DigitsValue(s[..|s| - 1]) + (s[|s| - 1] as int - '0' as int)
  }

  lemma {:induction false} NatToDecimalValue(n: nat)
    ensures DigitsValue(NatToDecimal(n)) == n
    decreases n
  {
    if n >= 10 {
      var s := NatToDecimal(n / 10);
      var t := s + [DigitChar(n % 10)];
      assert t[..|t| - 1] == s;
      NatToDecimalValue(n / 10);
    }
  }

  /** Conversion of an integer to string: an optional minus sign and its digits. */
  function IntToDecimal(i: int): string {
    if i < 0 then "-" + NatToDecimal(-i) else NatToDecimal(i)
  }

  /**
   * The value of an integer numeric string: an optional sign followed by one
   * or more decimal digits; anything else is not numeric.
   */
  function ParseInt(s: string): Option<int> {
    if |s| > 0 && (s[0] == '+' || s[0] == '-') then
      if |s| > 1 && AllDigits(s[1..]) then
        var magnitude: int := DigitsValue(s[1..]);
        Some(if s[0] == '-' then -magnitude else magnitude)
      else None
    else if |s| > 0 && AllDigits(s) then Some(DigitsValue(s))
    else None
  }

  /** Every integer's string form is numeric and denotes that integer again. */
  lemma ParseIntDecimal(i: int)
    ensures ParseInt(IntToDecimal(i)) == Some(i)
  {
    if i < 0 {
      var s := NatToDecimal(-i);
      var t := "-" + s;
      assert t[0] == '-' && t[1..] == s;
      NatToDecimalValue(-i);
      assert DigitsValue(t[1..]) == -i;
    } else {
      var s := NatToDecimal(i);
      assert IsDigit(s[0]);
      NatToDecimalValue(i);
    }
  }

  /** Conversion to string: null is "", an integer its decimal form. */
  function ToStr(v: Value): string {
    match v
    case Null => ""
    case Int(i) => IntToDecimal(i)
    case Str(s) => s
  }

  /** The integer a value denotes when it is an integer or an integer numeric string. */
  function Numeric(v: Value): Option<int> {
    match v
    case Null => None
    case Int(i) => Some(i)
    case Str(s) => ParseInt(s)
  }

  // ---------------------------------------------------------------------
  // strlen

  /** Number of bytes UTF-8 uses for one character. */
  function Utf8Width(c: char): nat {
    if c as int < 0x80 then 1
    else if c as int < 0x800 then 2
    else if c as int < 0x1_0000 then 3
    else 4
  }

  function Utf8Length(s: string): nat {
    if s == [] then 0 else Utf8Width(s[0]) + Utf8Length(s[1..])
  }

  /** A string takes at least one and at most four bytes per character. */
  lemma {:induction false} Utf8LengthBounds(s: string)
    ensures |s| <= Utf8Length(s) <= 4 * |s|
  {
    if s != [] {
      Utf8LengthBounds(s[1..]);
    }
  }

  /** `strlen($v)`: the number of bytes of the string form of `v`. */
  function StrLen(v: Value): nat {
    Utf8Length(ToStr(v))
  }

  // ---------------------------------------------------------------------
  // Loose comparison

  /** `$v == $n` for an integer `n`. */
  predicate LooseEqualsInt(v: Value, n: int) {
    match v
    case Null => n == 0  // null against an integer compares as booleans
    case Int(i) => i == n
    case Str(s) =>
      match ParseInt(s)
      case Some(m) => m == n
      case None => s == IntToDecimal(n)  // a non-numeric string compares with the integer's string form
  }

  /** Loose equality with an integer holds exactly for values that denote it numerically (null denoting 0). */
  lemma LooseEqualsIntMeaning(v: Value, n: int)
    ensures LooseEqualsInt(v, n) <==> Numeric(v) == Some(n) || (v == Null && n == 0)
  {
    ParseIntDecimal(n);
  }

  function IntCompare(x: int, y: int): int {
    if x < y then -1 else if x == y then 0 else 1
  }

  function BoolCompare(a: bool, b: bool): int {
    if a == b then 0 else if b then -1 else 1
  }

  /** Byte-wise comparison of two strings (code point order equals UTF-8 byte order). */
  function LexCompare(a: string, b: string): int {
    if a == [] && b == [] then 0
    else if a == [] then -1
    else if b == [] then 1
    else if a[0] < b[0] then -1
    else if a[0] > b[0] then 1
    else LexCompare(a[1..], b[1..])
  }

  /**
   * `$a <=> $b`: two numeric operands compare as integers, an integer against
   * a non-numeric string compares as strings, two strings compare as strings
   * unless both are numeric, null against a string is "" against it, and
   * null against an integer compares as booleans.
   */
  function Compare(a: Value, b: Value): int {
    match (a, b)
    case (Null, Null) => 0
    case (Null, Str(t)) => LexCompare("", t)
    case (Str(s), Null) => LexCompare(s, "")
    case (Null, Int(y)) => BoolCompare(false, y != 0)
    case (Int(x), Null) => BoolCompare(x != 0, false)
    case (Int(x), Int(y)) => IntCompare(x, y)
    case (Int(x), Str(t)) =>
      if ParseInt(t).Some? then IntCompare(x, ParseInt(t).value) else LexCompare(IntToDecimal(x), t)
    case (Str(s), Int(y)) =>
      if ParseInt(s).Some? then IntCompare(ParseInt(s).value, y) else LexCompare(s, IntToDecimal(y))
    case (Str(s), Str(t)) =>
      if ParseInt(s).Some? && ParseInt(t).Some? then IntCompare(ParseInt(s).value, ParseInt(t).value)
      else LexCompare(s, t)
  }

  lemma {:induction false} LexCompareReflexive(s: string)
    ensures LexCompare(s, s) == 0
  {
    if s != [] {
      LexCompareReflexive(s[1..]);
    }
  }

  /** Every value compares equal to itself, so `$v >= $v` always holds. */
  lemma CompareReflexive(v: Value)
    ensures Compare(v, v) == 0
  {
    if v.Str? {
      LexCompareReflexive(v.s);
    }
  }
}
