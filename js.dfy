/**
 * The JavaScript semantics the ledger code leans on: JSON request values and
 * their truthiness, strict equality, number arithmetic with NaN, `x || 0`,
 * `Number.prototype.toString` on the millisecond clock, `parseInt` on the
 * charge form's text, and `String.prototype.replace` with a string pattern.
 */
module Js {
  import opened Wrappers

  /** A JavaScript number. Infinities and the sign of zero are not modelled. */
  datatype Num = Finite(v: real) | NaN

  /** A field of a parsed JSON request body; `Undefined` is a field that is absent. */
  datatype Value =
    | Undefined
    | Null
    | Bool(b: bool)
    | Number(n: Num)
    | Str(s: string)
    | Obj(ref: nat)  // an object or an array, compared by reference

  /** `!v` holds: undefined, null, false, 0, NaN and the empty string. */
  predicate Falsy(v: Value) {
    match v
    case Undefined => true
    case Null => true
    case Bool(b) => !b
    case Number(n) => n == NaN || n == Finite(0.0)
    case Str(s) => s == ""
    case Obj(_) => false
  }

  /** `a === b`: NaN is unequal to everything, objects are equal only to themselves. */
  predicate StrictEquals(a: Value, b: Value) {
    match a
    case Number(NaN) => false
    case _ => a == b
  }

  /** `a + b` on numbers. */
  function Plus(a: Num, b: Num): Num {
    if a.Finite? && b.Finite? then Finite(a.v + b.v) else NaN
  }

  /** `a - b` on numbers. */
  function Minus(a: Num, b: Num): Num {
    if a.Finite? && b.Finite? then Finite(a.v - b.v) else NaN
  }

  /** `a < b` on numbers: false as soon as one side is NaN. */
  predicate Below(a: Num, b: Num) {
    a.Finite? && b.Finite? && a.v < b.v
  }

  /** `a <= b` on numbers: false as soon as one side is NaN. */
  predicate AtMost(a: Num, b: Num) {
    a.Finite? && b.Finite? && a.v <= b.v
  }

  /** The number a numeric document field takes part in arithmetic as: an absent field is `undefined`, which becomes NaN. */
  function FieldNumber(field: Option<Num>): Num {
    if field.Some? then field.value else NaN
  }

  /** `field || 0` on a numeric document field: absent, NaN and 0 all give 0. */
  function OrZero(field: Option<Num>): real {
    if field.Some? && field.value.Finite? then field.value.v else 0.0
  }

  // ---------------------------------------------------------------------
  // Decimal text of the clock value: `${Date.now()}`

  function DigitChar(d: nat): char
    requires d < 10
  {
    ('0' as int + d) as char
  }

  /** The decimal text of a non-negative integer, as a template literal writes it. */
  function NatToString(n: nat): (s: string)
    ensures |s| >= 1
    ensures forall i :: 0 <= i < |s| ==> '0' <= s[i] <= '9'
  {
    if n < 10 then [DigitChar(n)] else NatToString(n / 10) + [DigitChar(n % 10)]
  }

  lemma {:induction false} NatToStringInjective(m: nat, n: nat)
    requires NatToString(m) == NatToString(n)
    ensures m == n
  {
    if m >= 10 && n >= 10 {
      var sm, sn := NatToString(m / 10), NatToString(n / 10);
      assert NatToString(m) == sm + [DigitChar(m % 10)];
      assert NatToString(n) == sn + [DigitChar(n % 10)];
      assert |sm| == |sn|;
      assert sm == NatToString(m)[..|sm|] == NatToString(n)[..|sn|] == sn;
      assert DigitChar(m % 10) == NatToString(m)[|sm|] == NatToString(n)[|sn|] == DigitChar(n % 10);
      NatToStringInjective(m / 10, n / 10);
    }
  }

  // ---------------------------------------------------------------------
  // parseInt(text) with no radix argument (ECMAScript, section 19.2.5)

  /** JavaScript's white space and line terminators, which `parseInt` skips at the start. */
  predicate IsWhitespace(c: char) {
    || c == '\t' || c == '\n' || c == '\U{000B}' || c == '\U{000C}' || c == '\r' || c == ' '
    || c == '\U{00A0}' || c == '\U{1680}' || ('\U{2000}' <= c <= '\U{200A}')
    || c == '\U{2028}' || c == '\U{2029}' || c == '\U{202F}' || c == '\U{205F}'
    || c == '\U{3000}' || c == '\U{FEFF}'
  }

  function TrimStart(s: string): (t: string)
    ensures t == [] || !IsWhitespace(t[0])
    ensures |t| <= |s| && t == s[|s| - |t|..]
  {
    if s != [] && IsWhitespace(s[0]) then TrimStart(s[1..]) else s
  }

  function Radix(hex: bool): nat {
    if hex then 16 else 10
  }

  /** The value of one digit in radix 10 or 16, or None when the character is not such a digit. */
  function DigitValue(c: char, hex: bool): (d: Option<nat>)
    ensures d.Some? ==> d.value < Radix(hex)
  {
    if '0' <= c <= '9' then Some(c as int - '0' as int)
    else if hex && 'a' <= c <= 'f' then Some(c as int - 'a' as int + 10)
    else if hex && 'A' <= c <= 'F' then Some(c as int - 'A' as int + 10)
    else None
  }

  predicate AllDigits(s: string, hex: bool) {
    forall i :: 0 <= i < |s| ==> DigitValue(s[i], hex).Some?
  }

  /** The longest prefix of `s` made of digits. */
  function DigitPrefix(s: string, hex: bool): (d: string)
    ensures d <= s && AllDigits(d, hex)
    ensures |d| < |s| ==> DigitValue(s[|d|], hex).None?
  {
    if s != [] && DigitValue(s[0], hex).Some? then [s[0]] + DigitPrefix(s[1..], hex) else []
  }

  /** The value of a digit string, most significant digit first. */
  function DigitsValue(ds: string, hex: bool): nat
    requires AllDigits(ds, hex)
  {
    if ds == [] then 0
    else DigitsValue(ds[..|ds| - 1], hex) * Radix(hex) + DigitValue(ds[|ds| - 1], hex).value
  }

  /** The text after an optional leading sign. */
  function SignStripped(s: string): string {
    if s != [] && (s[0] == '-' || s[0] == '+') then s[1..] else s
  }

  /** The text starts with `0x` or `0X`. */
  predicate HexPrefix(u: string) {
    |u| >= 2 && u[0] == '0' && (u[1] == 'x' || u[1] == 'X')
  }

  /**
   * `parseInt(text)`: skip leading white space, take an optional sign, read a
   * hexadecimal number after `0x`/`0X` and a decimal one otherwise, and stop at
   * the first character that is not a digit; NaN when no digit was read.
   */
  function ParseInt(text: string): (r: Num)
    ensures r.Finite? ==> r.v.Floor as real == r.v
  {
    var s := TrimStart(text);
    var unsigned := SignStripped(s);
    var hex := HexPrefix(unsigned);
    var digits := DigitPrefix(if hex then unsigned[2..] else unsigned, hex);
    if digits == [] then NaN
    else
      var m: int := DigitsValue(digits, hex);
      var k: int := if s != [] && s[0] == '-' then -m else m;
      Finite(k as real)
  }

  lemma {:induction false} DigitPrefixOfDigits(s: string, hex: bool)
    requires AllDigits(s, hex)
    ensures DigitPrefix(s, hex) == s
  {
    if s != [] {
      DigitPrefixOfDigits(s[1..], hex);
    }
  }

  lemma {:induction false} DigitsValueOfNatToString(n: nat)
    ensures AllDigits(NatToString(n), false)
    ensures DigitsValue(NatToString(n), false) == n
  {
    var s := NatToString(n);
    if n >= 10 {
      DigitsValueOfNatToString(n / 10);
      assert s[..|s| - 1] == NatToString(n / 10);
      assert s[|s| - 1] == DigitChar(n % 10);
    }
  }

  /** `parseInt` of a non-empty string of decimal digits is the value of those digits. */
  lemma ParseIntOfDecimal(s: string)
    requires s != [] && AllDigits(s, false)
    ensures ParseInt(s) == Finite(DigitsValue(s, false) as real)
  {
    assert DigitValue(s[0], false).Some?;
    assert TrimStart(s) == s;
    assert SignStripped(s) == s;
    assert !HexPrefix(s) by {
      if |s| >= 2 {
        assert DigitValue(s[1], false).Some?;
      }
    }
    DigitPrefixOfDigits(s, false);
  }

  /** Reading back the decimal text of a non-negative integer gives that integer. */
  lemma ParseIntOfNatToString(n: nat)
    ensures ParseInt(NatToString(n)) == Finite(n as real)
  {
    DigitsValueOfNatToString(n);
    ParseIntOfDecimal(NatToString(n));
  }

  // ---------------------------------------------------------------------
  // text.replace(pattern, replacement) with a string pattern

  /** Replaces the first occurrence of `pattern` in `s`, if there is one. */
  function ReplaceFirst(s: string, pattern: string, replacement: string): string
    decreases |s|
  {
    if |s| < |pattern| then s
    else if s[..|pattern|] == pattern then replacement + s[|pattern|..]
    else [s[0]] + ReplaceFirst(s[1..], pattern, replacement)
  }
}
