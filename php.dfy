/**
 * The PHP values the plugin's stored settings can hold, and the language
 * operations the plugin applies to them: empty(), intval() and the %d
 * conversion of sprintf().
 */
module Php {

  /**
   * A value as json_decode($text, true) produces it. JSON objects and lists
   * both become PHP arrays; array keys are modelled as strings.
   */
  datatype Value =
    | Null
    | Bool(b: bool)
    | Int(i: int)
    | Float(f: real)
    | Str(s: string)
    | Arr(entries: map<string, Value>)

  /** PHP's empty(): null, false, 0, 0.0, "", "0" and the empty array. */
  predicate IsEmpty(v: Value) {
    match v
    case Null => true
    case Bool(b) => !b
    case Int(i) => i == 0
    case Float(f) => f == 0.0
    case Str(s) => s == "" || s == "0"
    case Arr(m) => m == map[]
  }

  /** Conversion of a float to an integer: truncation toward zero. */
  function Truncate(f: real): (n: int)
    ensures 0.0 <= f ==> n as real <= f < n as real + 1.0
    ensures f < 0.0 ==> n as real - 1.0 < f <= n as real
  {
    if 0.0 <= f then f.Floor else -((-f).Floor)
  }

  predicate IsDigit(c: char) {
    '0' <= c <= '9'
  }

  predicate AllDigits(s: string) {
    forall i :: 0 <= i < |s| ==> IsDigit(s[i])
  }

  /** The characters PHP skips before a numeric string: space, \t, \n, \r, \v, \f. */
  predicate IsWhitespace(c: char) {
    c == ' ' || c == '\t' || c == '\n' || c == '\r' || c == '\U{B}' || c == '\U{C}'
  }

  /** The suffix of s that starts at its first non-whitespace character. */
  function SkipWhitespace(s: string): (t: string)
    ensures |t| <= |s| && t == s[|s| - |t|..]
    ensures forall i :: 0 <= i < |s| - |t| ==> IsWhitespace(s[i])
    ensures t == [] || !IsWhitespace(t[0])
  {
    if |s| > 0 && IsWhitespace(s[0]) then SkipWhitespace(s[1..]) else s
  }

  /** The longest prefix of s made of decimal digits. */
  function LeadingDigits(s: string): (d: string)
    ensures |d| <= |s| && d == s[..|d|]
    ensures AllDigits(d)
    ensures |d| == |s| || !IsDigit(s[|d|])
  {
    if |s| > 0 && IsDigit(s[0]) then [s[0]] + LeadingDigits(s[1..]) else []
  }

  function DigitOf(c: char): nat
    requires IsDigit(c)
  {
    c as int - '0' as int
  }

  function DigitChar(d: nat): (c: char)
    requires d < 10
    ensures IsDigit(c) && DigitOf(c) == d
  {
    ('0' as int + d) as char
  }

  /** The number a string of decimal digits denotes, read most significant digit first. */
  function DigitsValue(d: string): nat
    requires AllDigits(d)
  {
    if d == [] then 0 else 10 * DigitsValue(d[..|d| - 1]) + DigitOf(d[|d| - 1])
  }

  /**
   * The integer PHP 8 reads from a string with intval(): leading whitespace,
   * an optional sign, then the longest run of decimal digits; 0 when there
   * are none.
   */
  function LeadingInt(s: string): int {
    var t := SkipWhitespace(s);
    if |t| > 0 && (t[0] == '-' || t[0] == '+') then
      var n: int := DigitsValue(LeadingDigits(t[1..]));
      if t[0] == '-' then -n else n
    else
      DigitsValue(LeadingDigits(t))
  }

  /** PHP's intval() on a decoded value. */
  function IntVal(v: Value): int {
    match v
    case Null => 0
    case Bool(b) => if b then 1 else 0
    case Int(i) => i
    case Float(f) => Truncate(f)
    case Str(s) => LeadingInt(s)
    case Arr(m) => if m == map[] then 0 else 1
  }

  /** The decimal digits of n, without leading zeros. */
  function NatToString(n: nat): (s: string)
    ensures |s| >= 1 && AllDigits(s)
    ensures |s| > 1 ==> s[0] != '0'
    ensures n < 10 ==> |s| == 1
    ensures 10 <= n < 100 ==> |s| == 2
    ensures 100 <= n < 1000 ==> |s| == 3
  {
    if n < 10 then [DigitChar(n)] else NatToString(n / 10) + [DigitChar(n % 10)]
  }

  /** sprintf's %d conversion: a minus sign for negative numbers, then the digits. */
  function IntToString(n: int): string {
    if n < 0 then "-" + NatToString(-n) else NatToString(n)
  }

  lemma {:induction false} DigitsValueOfNatToString(n: nat)
    ensures DigitsValue(NatToString(n)) == n
  {
    if n >= 10 {
      var s := NatToString(n);
      assert s[..|s| - 1] == NatToString(n / 10);
      DigitsValueOfNatToString(n / 10);
    }
  }

  /** intval() reads back exactly the integer that %d wrote. */
  lemma IntValOfIntToString(n: int)
    ensures IntVal(Str(IntToString(n))) == n
  {
    var m: nat := if n < 0 then -n else n;
    var digits := NatToString(m);
    var s := IntToString(n);
    DigitsValueOfNatToString(m);
    assert LeadingDigits(digits) == digits;
    if n < 0 {
      assert s == "-" + digits && s[0] == '-' && !IsWhitespace(s[0]);
      assert SkipWhitespace(s) == s;
      assert s[1..] == digits;
    } else {
      assert s == digits && IsDigit(s[0]) && !IsWhitespace(s[0]);
      assert SkipWhitespace(s) == s;
    }
  }
}
