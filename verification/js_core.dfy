/**
 * Helpers shared by the whole model: the Option wrapper, the few
 * JavaScript number and string operations the application relies on
 * (Math.ceil, the truncating `%`, 32-bit truncation, `padStart`, the `\s`
 * and `\w` regex classes, ASCII case mapping) and plain JS objects whose
 * values are strings.
 */
module JsCore {

  datatype Option<+T> = None | Some(value: T)

  // ---------------------------------------------------------------------
  // Numbers

  /** Math.ceil on a real. */
  function Ceil(x: real): (r: int)
    ensures r as real - 1.0 < x <= r as real
  {
    -((-x).Floor)
  }

  function Min(a: real, b: real): (r: real)
    ensures r <= a && r <= b && (r == a || r == b)
  {
    if a <= b then a else b
  }

  function Max(a: real, b: real): (r: real)
    ensures r >= a && r >= b && (r == a || r == b)
  {
    if a >= b then a else b
  }

  /** JavaScript `a % b` on integers: the result takes the sign of the dividend. */
  function JsRem(a: int, b: int): (r: int)
    requires b > 0
    ensures a >= 0 ==> 0 <= r < b
    ensures a < 0 ==> -b < r <= 0
    ensures exists q :: a - r == q * b
  {
    if a >= 0 then
      assert a - a % b == (a / b) * b;
      a % b
    else
      assert a + (-a) % b == -((-a) / b) * b;
      -((-a) % b)
  }

  const TwoTo32: int := 0x1_0000_0000
  const TwoTo31: int := 0x8000_0000

  /** ToInt32 on an integral Number: wrap into the signed 32-bit range. */
  function ToInt32(x: int): (r: int)
    ensures -TwoTo31 <= r < TwoTo31
    ensures (x - r) % TwoTo32 == 0
  {
    var m := x % TwoTo32;
    if m >= TwoTo31 then m - TwoTo32 else m
  }

  // ---------------------------------------------------------------------
  // Decimal text

  predicate IsDigit(c: char) { '0' <= c <= '9' }

  function Digit(n: int): (c: char)
    requires 0 <= n < 10
    ensures IsDigit(c) && DigitValue(c) == n
  {
    ('0' as int + n) as char
  }

  function DigitValue(c: char): int
    requires IsDigit(c)
  {
    c as int - '0' as int
  }

  /** String(n) for a non-negative integer. */
  function NatToString(n: nat): (s: string)
    ensures |s| >= 1 && forall i :: 0 <= i < |s| ==> IsDigit(s[i])
    ensures n < 10 <==> |s| == 1
  {
    if n < 10 then [Digit(n)] else NatToString(n / 10) + [Digit(n % 10)]
  }

  /** String(n) for any integer. */
  function IntToString(n: int): string
  {
    if n < 0 then "-" + NatToString(-n) else NatToString(n)
  }

  /** s.padStart(width, fill) for a one-character fill. */
  function PadStart(s: string, width: nat, fill: char): (r: string)
    ensures |r| == if |s| >= width then |s| else width
    ensures r[|r| - |s|..] == s
  {
    if |s| >= width then s else seq(width - |s|, _ => fill) + s
  }

  /** String(n).padStart(2, "0"). */
  function Pad2(n: nat): string
  {
    PadStart(NatToString(n), 2, '0')
  }

  /** Between 1 and 99, Pad2 is two digits, tens first; so it is injective there. */
  lemma Pad2Digits(n: nat)
    requires n < 100
    ensures Pad2(n) == [Digit(n / 10), Digit(n % 10)]
  {
    if n >= 10 {
      assert NatToString(n / 10) == [Digit(n / 10)];
    }
  }

  lemma Pad2Injective(a: nat, b: nat)
    requires a < 100 && b < 100 && a != b
    ensures Pad2(a) != Pad2(b)
  {
    Pad2Digits(a);
    Pad2Digits(b);
    assert DigitValue(Pad2(a)[0]) * 10 + DigitValue(Pad2(a)[1]) == a;
    assert DigitValue(Pad2(b)[0]) * 10 + DigitValue(Pad2(b)[1]) == b;
  }

  predicate AllDigits(s: string)
  {
    forall i :: 0 <= i < |s| ==> IsDigit(s[i])
  }

  /** The number a run of decimal digits denotes. */
  function DigitsValue(s: string): (n: nat)
    requires AllDigits(s)
    ensures |s| == 0 ==> n == 0
  {
    if |s| == 0 then 0 else DigitsValue(s[..|s| - 1]) * 10 + DigitValue(s[|s| - 1])
  }

  /** Reading back the decimal text of a number gives the number. */
  lemma {:induction false} DigitsValueOfNatToString(n: nat)
    ensures AllDigits(NatToString(n)) && DigitsValue(NatToString(n)) == n
  {
    var s := NatToString(n);
    if n >= 10 {
      DigitsValueOfNatToString(n / 10);
      assert s[..|s| - 1] == NatToString(n / 10);
    }
  }

  function Pow10(n: nat): (p: nat)
    ensures p >= 1
  {
    if n == 0 then 1 else 10 * Pow10(n - 1)
  }

  /** The length of the longest prefix of `s` made of decimal digits. */
  function LeadingDigits(s: string): (n: nat)
    ensures n <= |s| && AllDigits(s[..n])
    ensures n < |s| ==> !IsDigit(s[n])
  {
    if |s| == 0 || !IsDigit(s[0]) then 0
    else
      var m := LeadingDigits(s[1..]);
      assert s[..1 + m] == [s[0]] + s[1..][..m];
      1 + m
  }

  /** The length of the longest prefix of `s` made of `\s` characters. */
  function LeadingSpaces(s: string): (n: nat)
    ensures n <= |s| && forall i :: 0 <= i < n ==> IsSpace(s[i])
    ensures n < |s| ==> !IsSpace(s[n])
  {
    if |s| == 0 || !IsSpace(s[0]) then 0 else 1 + LeadingSpaces(s[1..])
  }

  /** A quotient of a non-negative by a positive real is non-negative. */
  lemma QuotientNonNegative(a: real, b: real)
    requires a >= 0.0 && b > 0.0
    ensures a / b >= 0.0
  {
    assert (a / b) * b == a;
  }

  /** `intPart.fracPart` as an exact decimal. */
  function DecimalValue(intPart: string, fracPart: string): (v: real)
    requires AllDigits(intPart) && AllDigits(fracPart)
    ensures v >= 0.0
  {
    QuotientNonNegative(DigitsValue(fracPart) as real, Pow10(|fracPart|) as real);
    DigitsValue(intPart) as real + DigitsValue(fracPart) as real / Pow10(|fracPart|) as real
  }

  /** An optional sign at the head of `t`: whether it is a minus, and where the digits start. */
  function SignLength(t: string): (n: nat)
    ensures n <= 1 && n <= |t|
  {
    if |t| > 0 && (t[0] == '-' || t[0] == '+') then 1 else 0
  }

  /**
   * The exponent suffix `e[+-]digits` at the head of `t`, if there is one,
   * as a signed power of ten.
   */
  function ExponentPart(t: string): (r: Option<int>)
  {
    if |t| >= 2 && (t[0] == 'e' || t[0] == 'E') then
      var u := t[1..];
      var k := SignLength(u);
      var a := LeadingDigits(u[k..]);
      if a == 0 then None
      else
        var e: int := DigitsValue(u[k..][..a]);
        Some(if k == 1 && u[0] == '-' then -e else e)
    else None
  }

  /**
   * The global parseFloat on finite decimal text: leading `\s` is skipped,
   * then the longest prefix of the form `[+-]digits[.digits][e[+-]digits]`
   * is read; None stands for NaN (no digit before the exponent).
   */
  function ParseFloat(s: string): (r: Option<real>)
  {
    var t := s[LeadingSpaces(s)..];
    var k := SignLength(t);
    var u := t[k..];
    var a := LeadingDigits(u);
    var frac := if a < |u| && u[a] == '.' then u[a + 1..][..LeadingDigits(u[a + 1..])] else "";
    if a == 0 && |frac| == 0 then None
    else
      var rest := u[a + (if a < |u| && u[a] == '.' then 1 + |frac| else 0)..];
      var m := DecimalValue(u[..a], frac);
      var scaled := match ExponentPart(rest)
        case None => m
        case Some(e) => if e >= 0 then m * Pow10(e) as real else m / Pow10(-e) as real;
      Some(if k == 1 && t[0] == '-' then -scaled else scaled)
  }

  /**
   * The global parseInt with radix 10: leading `\s` skipped, an optional
   * sign, then the longest run of digits; None stands for NaN.
   */
  function ParseInt(s: string): (r: Option<int>)
  {
    var t := s[LeadingSpaces(s)..];
    var k := SignLength(t);
    var a := LeadingDigits(t[k..]);
    if a == 0 then None
    else
      var v: int := DigitsValue(t[k..][..a]);
      Some(if k == 1 && t[0] == '-' then -v else v)
  }

  /** parseFloat of a non-empty run of digits is the number they denote. */
  lemma ParseFloatOfDigits(s: string)
    requires |s| >= 1 && AllDigits(s)
    ensures ParseFloat(s) == Some(DigitsValue(s) as real)
  {
    assert LeadingSpaces(s) == 0 && s[0..] == s;
    assert SignLength(s) == 0;
    AllDigitsLeading(s);
    assert s[..|s|] == s;
    assert s[|s|..] == "";
    assert ExponentPart("") == None;
    assert DigitsValue("") == 0 && Pow10(0) == 1;
    assert DecimalValue(s, "") == DigitsValue(s) as real + 0.0 / 1.0;
  }

  /** parseFloat reads back the decimal text of a whole number. */
  lemma ParseFloatOfNatToString(n: nat)
    ensures ParseFloat(NatToString(n)) == Some(n as real)
  {
    DigitsValueOfNatToString(n);
    ParseFloatOfDigits(NatToString(n));
  }

  /** parseInt of a non-empty run of digits is the number they denote. */
  lemma ParseIntOfDigits(d: string)
    requires |d| >= 1 && AllDigits(d)
    ensures ParseInt(d) == Some(DigitsValue(d) as int)
  {
    assert LeadingSpaces(d) == 0 && d[0..] == d;
    assert SignLength(d) == 0 && d[0..] == d;
    AllDigitsLeading(d);
    assert d[..|d|] == d;
  }

  /** parseInt of a minus sign and a non-empty run of digits is the negated number. */
  lemma ParseIntOfNegatedDigits(d: string)
    requires |d| >= 1 && AllDigits(d)
    ensures ParseInt("-" + d) == Some(-(DigitsValue(d) as int))
  {
    var s := "-" + d;
    assert !IsSpace(s[0]);
    var t := s[LeadingSpaces(s)..];
    assert t == s;
    assert SignLength(t) == 1 && t[0] == '-';
    assert t[1..] == d;
    AllDigitsLeading(d);
    assert d[..|d|] == d;
  }

  /** parseInt reads back the decimal text of any integer. */
  lemma ParseIntOfIntToString(n: int)
    ensures ParseInt(IntToString(n)) == Some(n)
  {
    var m: nat := if n < 0 then -n else n;
    DigitsValueOfNatToString(m);
    if n < 0 {
      ParseIntOfNegatedDigits(NatToString(m));
    } else {
      ParseIntOfDigits(NatToString(m));
    }
  }

  lemma AllDigitsLeading(s: string)
    requires AllDigits(s)
    ensures LeadingDigits(s) == |s|
  {
    if |s| > 0 {
      AllDigitsLeading(s[1..]);
    }
  }

  // ---------------------------------------------------------------------
  // Characters

  /** The `\s` class of JavaScript regular expressions (WhiteSpace and LineTerminator). */
  predicate IsSpace(c: char)
  {
    c == '\t' || c == '\n' || c == '\U{B}' || c == '\U{C}' || c == '\r' || c == ' '
    || c == '\U{A0}' || c == '\U{1680}' || ('\U{2000}' <= c <= '\U{200A}')
    || c == '\U{2028}' || c == '\U{2029}' || c == '\U{202F}' || c == '\U{205F}'
    || c == '\U{3000}' || c == '\U{FEFF}'
  }

  predicate IsAsciiLower(c: char) { 'a' <= c <= 'z' }

  predicate IsAsciiUpper(c: char) { 'A' <= c <= 'Z' }

  /** The `\w` class of JavaScript regular expressions without the `u` flag. */
  predicate IsWordChar(c: char)
  {
    IsAsciiLower(c) || IsAsciiUpper(c) || IsDigit(c) || c == '_'
  }

  function LowerChar(c: char): (r: char)
    ensures !IsAsciiUpper(r)
    ensures IsSpace(r) <==> IsSpace(c)
  {
    if IsAsciiUpper(c) then (c as int + 32) as char else c
  }

  function UpperChar(c: char): (r: char)
    ensures !IsAsciiLower(r)
  {
    if IsAsciiLower(c) then (c as int - 32) as char else c
  }

  /** String.prototype.toLowerCase, on the ASCII letters. */
  function ToLower(s: string): (r: string)
    ensures |r| == |s|
    ensures forall i :: 0 <= i < |r| ==> r[i] == LowerChar(s[i])
  {
    seq(|s|, i requires 0 <= i < |s| => LowerChar(s[i]))
  }

  /** String.prototype.toUpperCase, on the ASCII letters. */
  function ToUpper(s: string): (r: string)
    ensures |r| == |s|
    ensures forall i :: 0 <= i < |r| ==> r[i] == UpperChar(s[i])
  {
    seq(|s|, i requires 0 <= i < |s| => UpperChar(s[i]))
  }

  // ---------------------------------------------------------------------
  // Substrings

  predicate StartsWith(s: string, prefix: string)
  {
    |prefix| <= |s| && s[..|prefix|] == prefix
  }

  predicate EndsWith(s: string, suffix: string)
  {
    |suffix| <= |s| && s[|s| - |suffix|..] == suffix
  }

  predicate OccursAt(s: string, pat: string, i: nat)
  {
    i + |pat| <= |s| && s[i..i + |pat|] == pat
  }

  /** String.prototype.includes. */
  predicate Contains(s: string, pat: string)
  {
    exists i: nat | i <= |s| :: OccursAt(s, pat, i)
  }

  /** The first index where `pat` occurs in `s` at or after `from`, if any. */
  function IndexOfFrom(s: string, pat: string, from: nat): (r: Option<nat>)
    decreases |s| - from
    ensures r.Some? ==> from <= r.value && OccursAt(s, pat, r.value)
    ensures r.Some? ==> forall j: nat :: from <= j < r.value ==> !OccursAt(s, pat, j)
    ensures r.None? ==> forall j: nat :: from <= j ==> !OccursAt(s, pat, j)
  {
    if from + |pat| > |s| then None
    else if s[from..from + |pat|] == pat then Some(from)
    else IndexOfFrom(s, pat, from + 1)
  }

  /** s.replace(pat, rep) with a string pattern: only the first occurrence is replaced. */
  function ReplaceFirst(s: string, pat: string, rep: string): string
  {
    match IndexOfFrom(s, pat, 0)
    case None => s
    case Some(i) => s[..i] + rep + s[i + |pat|..]
  }

  lemma ReplaceFirstSpec(s: string, pat: string, rep: string)
    ensures !Contains(s, pat) ==> ReplaceFirst(s, pat, rep) == s
    ensures Contains(s, pat) ==> exists i: nat ::
      OccursAt(s, pat, i) && (forall j: nat :: j < i ==> !OccursAt(s, pat, j))
      && ReplaceFirst(s, pat, rep) == s[..i] + rep + s[i + |pat|..]
  {
    var r := IndexOfFrom(s, pat, 0);
    if r.Some? {
      assert Contains(s, pat);
    }
  }

  // ---------------------------------------------------------------------
  // Plain JS objects with string values

  type Fields = map<string, string>

  /** The value of a key, read as the text a template would print; absent keys read as "". */
  function Text(f: Fields, key: string): string
  {
    if key in f then f[key] else ""
  }
}
