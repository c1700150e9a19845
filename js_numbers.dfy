/**
 * The JavaScript number conversions the dashboard relies on: decimal
 * rendering of integers (template literals, `String(n)`), `parseInt` with no
 * radix argument, and the "is not NaN" test on `Number(value)`.
 */
module JsNumbers {
  import opened Wrappers
  import opened TextUtil

  function DigitChar(d: nat): (c: char)
    requires d < 10
    ensures IsDigit(c)
  {
    ('0' as int + d) as char
  }

  /** The value of one digit in the given radix (10 or 16), or -1. */
  function DigitValue(c: char, radix: nat): (v: int)
    ensures -1 <= v < radix || v == -1
  {
    var d := if '0' <= c <= '9' then c as int - '0' as int
             else if 'a' <= c <= 'f' then c as int - 'a' as int + 10
             else if 'A' <= c <= 'F' then c as int - 'A' as int + 10
             else -1;
    if d < radix then d else -1
  }

  /** The value of a string of digits in the given radix, most significant first. */
  function DigitsValue(s: string, radix: nat): nat
  {
    if |s| == 0 then 0
    else
      var d := DigitValue(s[|s| - 1], radix);
      DigitsValue(s[..|s| - 1], radix) * radix + (if d < 0 then 0 else d)
  }

  /** The length of the longest prefix of `s` made of digits of `radix`. */
  function DigitPrefixLength(s: string, radix: nat): (n: nat)
    ensures n <= |s|
    ensures forall i :: 0 <= i < n ==> DigitValue(s[i], radix) >= 0
    ensures n < |s| ==> DigitValue(s[n], radix) < 0
  {
    if |s| == 0 || DigitValue(s[0], radix) < 0 then 0
    else 1 + DigitPrefixLength(s[1..], radix)
  }

  /** `String(n)` for a natural number. */
  function NatToString(n: nat): (s: string)
    ensures |s| >= 1 && AllDigits(s)
    decreases n
  {
    if n < 10 then [DigitChar(n)] else NatToString(n / 10) + [DigitChar(n % 10)]
  }

  /** `String(n)` for an integer. */
  function IntToString(n: int): string
  {
    if n < 0 then "-" + NatToString(-n) else NatToString(n)
  }

  /** `parseInt(s)` with no radix: skip leading white space, take one optional
      sign, then read an unsigned integer; no digit at all gives `NaN`, here
      `None`.  (`-0` is represented as `0`.) */
  function ParseInt(s: string): Option<int>
  {
    ParseSigned(TrimStart(s))
  }

  /** `parseInt` after the leading white space: one optional sign, then an
      unsigned integer. */
  function ParseSigned(t: string): Option<int>
  {
    if |t| > 0 && t[0] == '-' then
      match ParseUnsigned(t[1..])
      case Some(v) => Some(-(v as int))
      case None => None
    else if |t| > 0 && t[0] == '+' then
      match ParseUnsigned(t[1..])
      case Some(v) => Some(v as int)
      case None => None
    else
      match ParseUnsigned(t)
      case Some(v) => Some(v as int)
      case None => None
  }

  /** The unsigned part of `parseInt`: radix 16 after a `0x`/`0X` prefix,
      radix 10 otherwise, then the longest run of digits of that radix. */
  function ParseUnsigned(u: string): Option<nat>
  {
    var hex := |u| >= 2 && u[0] == '0' && (u[1] == 'x' || u[1] == 'X');
    var body := if hex then u[2..] else u;
    var radix := if hex then 16 else 10;
    var n := DigitPrefixLength(body, radix);
    if n == 0 then None else Some(DigitsValue(body[..n], radix))
  }

  lemma {:induction false} NatToStringValue(n: nat)
    ensures DigitsValue(NatToString(n), 10) == n
    decreases n
  {
    var s := NatToString(n);
    if n >= 10 {
      NatToStringValue(n / 10);
      assert s[..|s| - 1] == NatToString(n / 10);
    }
  }

  lemma {:induction false} AllDecimalDigitsPrefix(s: string)
    requires AllDigits(s)
    ensures DigitPrefixLength(s, 10) == |s|
  {
    if |s| > 0 {
      assert IsDigit(s[0]);
      AllDecimalDigitsPrefix(s[1..]);
    }
  }

  /** A non-empty run of decimal digits, with or without a leading minus sign,
      parses as its value. */
  lemma {:induction false} ParseDigits(d: string)
    requires |d| >= 1 && AllDigits(d)
    ensures ParseUnsigned(d) == Some(DigitsValue(d, 10))
  {
    AllDecimalDigitsPrefix(d);
    assert |d| >= 2 ==> IsDigit(d[1]);
    assert d[..|d|] == d;
  }

  lemma {:induction false} ParseNonNegative(d: string)
    requires |d| >= 1 && AllDigits(d)
    ensures ParseInt(d) == Some(DigitsValue(d, 10) as int)
  {
    ParseDigits(d);
    assert IsDigit(d[0]);
    TrimStartUnchanged(d);
  }

  lemma {:induction false} ParseNegative(d: string)
    requires |d| >= 1 && AllDigits(d)
    ensures ParseInt("-" + d) == Some(-(DigitsValue(d, 10) as int))
  {
    ParseDigits(d);
    var s := "-" + d;
    TrimStartUnchanged(s);
    assert s[0] == '-';
    assert s[1..] == d;
  }

  /** `parseInt` reads back exactly what `String` wrote. */
  lemma {:induction false} ParseIntRoundTrip(n: int)
    ensures ParseInt(IntToString(n)) == Some(n)
  {
    var m: nat := if n < 0 then -n else n;
    NatToStringValue(m);
    if n < 0 {
      ParseNegative(NatToString(m));
    } else {
      ParseNonNegative(NatToString(m));
    }
  }

  /** An empty cell defaulted to `'0'` parses as zero. */
  lemma ParseIntZeroDefault()
    ensures ParseInt("0") == Some(0)
  {
    ParseIntRoundTrip(0);
  }

  lemma ParseIntWithoutDigits()
    ensures ParseInt("") == None
    ensures ParseInt("abc") == None
  {
    TrimStartUnchanged("abc");
  }

  /** Only the leading run of digits is read: `parseInt("12abc")` is 12. */
  lemma ParseIntReadsPrefix()
    ensures ParseInt("12abc") == Some(12)
  {
    var s := "12abc";
    TrimStartUnchanged(s);
    assert DigitPrefixLength(s, 10) == 2 by {
      assert s[1..] == "2abc";
      assert s[1..][1..] == "abc";
    }
    assert s[..2] == "12";
    assert DigitsValue("12", 10) == 12 by { assert "12"[..1] == "1"; assert "1"[..0] == ""; }
  }

  lemma ParseIntHexPrefix()
    ensures ParseInt("0x1A") == Some(26)
  {
    var s := "0x1A";
    TrimStartUnchanged(s);
    var b := s[2..];
    assert b == "1A";
    assert DigitPrefixLength(b, 16) == 2 by {
      assert b[1..] == "A";
      assert b[1..][1..] == "";
    }
    assert b[..2] == b;
    assert DigitsValue(b, 16) == 26 by { assert b[..1] == "1"; assert "1"[..0] == ""; }
  }

  /** Leading white space is skipped: it never changes what `parseInt` reads. */
  lemma {:induction false} ParseIntAfterSpaces(spaces: string, s: string)
    requires forall i :: 0 <= i < |spaces| ==> IsSpace(spaces[i])
    ensures ParseInt(spaces + s) == ParseInt(s)
  {
    TrimStartAfterSpaces(spaces, s);
  }

  lemma {:induction false} TrimStartAfterSpaces(spaces: string, s: string)
    requires forall i :: 0 <= i < |spaces| ==> IsSpace(spaces[i])
    ensures TrimStart(spaces + s) == TrimStart(s)
    decreases |spaces|
  {
    if |spaces| > 0 {
      assert (spaces + s)[0] == spaces[0] && IsSpace(spaces[0]);
      assert (spaces + s)[1..] == spaces[1..] + s;
      assert forall i :: 0 <= i < |spaces[1..]| ==> IsSpace(spaces[1..][i]) by {
        forall i | 0 <= i < |spaces[1..]| ensures IsSpace(spaces[1..][i]) {
          assert spaces[1..][i] == spaces[i + 1];
        }
      }
      TrimStartAfterSpaces(spaces[1..], s);
    } else {
      assert spaces + s == s;
    }
  }

  /** White space, a minus sign and digits: `parseInt("  -7")` is -7. */
  lemma {:induction false} ParseIntSkipsSpaceAndSign(spaces: string, d: string)
    requires forall i :: 0 <= i < |spaces| ==> IsSpace(spaces[i])
    requires |d| >= 1 && AllDigits(d)
    ensures ParseInt(spaces + "-" + d) == Some(-(DigitsValue(d, 10) as int))
  {
    assert spaces + "-" + d == spaces + ("-" + d);
    ParseIntAfterSpaces(spaces, "-" + d);
    ParseNegative(d);
  }

  // ---- Number(value) is not NaN ------------------------------------------------

  predicate AllDigitsIn(s: string, radix: nat)
  {
    forall i :: 0 <= i < |s| ==> DigitValue(s[i], radix) >= 0
  }

  /** DecimalDigits . DecimalDigits? | . DecimalDigits | DecimalDigits */
  predicate IsMantissa(m: string)
  {
    var k := IndexOf(m, '.');
    if k < |m| then
      AllDigits(m[..k]) && AllDigits(m[k + 1..]) && (k > 0 || k + 1 < |m|)
    else
      |m| > 0 && AllDigits(m)
  }

  /** An optional sign followed by at least one decimal digit. */
  predicate IsSignedInteger(x: string)
  {
    var y := if |x| > 0 && (x[0] == '+' || x[0] == '-') then x[1..] else x;
    |y| > 0 && AllDigits(y)
  }

  /** StrUnsignedDecimalLiteral of ECMA-262: `Infinity`, or a mantissa with an
      optional exponent part. */
  predicate IsUnsignedDecimal(u: string)
  {
    u == "Infinity" ||
    (var e := IndexOfExponent(u);
     if e < |u| then IsMantissa(u[..e]) && IsSignedInteger(u[e + 1..])
     else IsMantissa(u))
  }

  function IndexOfExponent(u: string): (k: nat)
    ensures k <= |u|
  {
    var a := IndexOf(u, 'e');
    var b := IndexOf(u, 'E');
    if a < b then a else b
  }

  /** StrNumericLiteral of ECMA-262: a signed decimal literal, or an unsigned
      binary, octal or hexadecimal integer literal. */
  predicate IsNumericLiteral(t: string)
  {
    if |t| > 2 && t[0] == '0' && (t[1] == 'x' || t[1] == 'X') then AllDigitsIn(t[2..], 16)
    else if |t| > 2 && t[0] == '0' && (t[1] == 'o' || t[1] == 'O') then AllDigitsIn(t[2..], 8)
    else if |t| > 2 && t[0] == '0' && (t[1] == 'b' || t[1] == 'B') then AllDigitsIn(t[2..], 2)
    else
      var u := if |t| > 0 && (t[0] == '+' || t[0] == '-') then t[1..] else t;
      IsUnsignedDecimal(u)
  }

  /** `!isNaN(Number(value))` for a string: after trimming, either nothing is
      left (which converts to 0) or a numeric literal. */
  predicate IsNumeric(v: string)
  {
    var t := Trim(v);
    t == "" || IsNumericLiteral(t)
  }

  lemma {:induction false} MantissaNeedsDigitOrPoint(m: string)
    requires |m| == 0 || (!IsDigit(m[0]) && m[0] != '.')
    ensures !IsMantissa(m)
  {
    var k := IndexOf(m, '.');
    if k < |m| {
      assert m[..k][0] == m[0];
    }
  }

  /** Text that starts with anything but a digit, a sign, a point or the `I`
      of `Infinity` does not convert to a number. */
  lemma {:induction false} NotNumericStart(t: string)
    requires |t| > 0 && !IsSpace(t[0]) && !IsSpace(t[|t| - 1])
    requires !IsDigit(t[0]) && t[0] !in "+-.I"
    ensures !IsNumeric(t)
  {
    TrimUnchanged(t);
    var e := IndexOfExponent(t);
    if e < |t| {
      MantissaNeedsDigitOrPoint(t[..e]);
    } else {
      MantissaNeedsDigitOrPoint(t);
    }
  }

  /** Text with no white space at either end converts exactly when it is a
      numeric literal. */
  lemma {:induction false} NumericWhenTrimmed(t: string)
    requires |t| > 0 && !IsSpace(t[0]) && !IsSpace(t[|t| - 1])
    ensures IsNumeric(t) == IsNumericLiteral(t)
  {
    TrimUnchanged(t);
  }

  lemma DecimalLiterals()
    ensures IsNumericLiteral("42") && IsNumericLiteral("1e5") && IsNumericLiteral("3.5")
  {
    DigitLedLiteral("42");
    ExponentLiteral();
    PointLiteral();
  }

  lemma ExponentLiteral()
    ensures IsNumericLiteral("1e5")
  {
    var x := "1e5";
    assert IndexOfExponent(x) == 1;
    assert IsMantissa(x[..1]) && IsSignedInteger(x[2..]);
  }

  lemma PointLiteral()
    ensures IsNumericLiteral("3.5")
  {
    var y := "3.5";
    assert IndexOfExponent(y) == 3;
    assert IndexOf(y, '.') == 1;
  }

  /** Text led by a digit, with no point, no exponent mark and no radix
      prefix, is a numeric literal only when it is all digits. */
  lemma {:induction false} DigitLedLiteral(t: string)
    requires |t| > 1 && IsDigit(t[0]) && IsDigit(t[1])
    requires forall i :: 0 <= i < |t| ==> t[i] != 'e' && t[i] != 'E' && t[i] != '.'
    ensures IsNumericLiteral(t) <==> AllDigits(t)
  {
    assert IndexOf(t, 'e') == |t| && IndexOf(t, 'E') == |t|;
    assert IndexOf(t, '.') == |t|;
    assert t != "Infinity" by { assert t[0] != "Infinity"[0]; }
  }

  /** An ISO-shaped date such as `9999-99-99` is not a numeric literal. */
  lemma DateLiteral()
    ensures !IsNumericLiteral("9999-99-99")
  {
    var t := "9999-99-99";
    DigitLedLiteral(t);
    assert !IsDigit(t[4]);
  }

  /** A date does not convert to a number, even though it starts with digits;
      an integer does. */
  lemma DateIsNotNumeric()
    ensures !IsNumeric("9999-99-99")
  {
    NumericWhenTrimmed("9999-99-99");
    DateLiteral();
  }

  lemma IntegerIsNumeric()
    ensures IsNumeric("42")
  {
    NumericWhenTrimmed("42");
    DecimalLiterals();
  }
}
