/**
 * Integer text conversions of JavaScript: `Number.prototype.toString(radix)`
 * on a non-negative integer, and the global `parseInt(string)` without a
 * radix argument.
 */
module JsNumber {
  import opened Wrappers
  import JsText

  type Radix = r: nat | 2 <= r <= 36 witness 10

  /** The value of a digit character in radices up to 36, either letter case. */
  function DigitValue(c: char): (v: Option<nat>)
    ensures v.Some? ==> v.value < 36
  {
    if '0' <= c <= '9' then Some(c as nat - '0' as nat)
    else if 'a' <= c <= 'z' then Some(c as nat - 'a' as nat + 10)
    else if 'A' <= c <= 'Z' then Some(c as nat - 'A' as nat + 10)
    else None
  }

  predicate IsDigit(c: char, radix: Radix) {
    DigitValue(c).Some? && DigitValue(c).value < radix
  }

  /** The lower-case digit character `toString` writes for a digit value. */
  function DigitChar(d: nat): (c: char)
    requires d < 36
    ensures DigitValue(c) == Some(d)
    ensures '0' <= c <= '9' || 'a' <= c <= 'z'
  {
    if d < 10 then ('0' as nat + d) as char else ('a' as nat + d - 10) as char
  }

  /** `n.toString(radix)` for a non-negative integer: most significant digit first, no leading zero. */
  function ToRadix(n: nat, radix: Radix): (s: string)
    ensures |s| >= 1
    ensures forall i :: 0 <= i < |s| ==> IsDigit(s[i], radix)
    ensures forall i :: 0 <= i < |s| ==> '0' <= s[i] <= '9' || 'a' <= s[i] <= 'z'
  {
    if n < radix then [DigitChar(n)]
    else
      DivisionShrinks(n, radix);
      ToRadix(n / radix, radix) + [DigitChar(n % radix)]
  }

  /** `n.toString()`: decimal digits. */
  function Decimal(n: nat): string {
    ToRadix(n, 10)
  }

  /** The value of a string of digits, read most significant first. */
  function DigitsValue(s: string, radix: Radix): nat
    requires forall i :: 0 <= i < |s| ==> IsDigit(s[i], radix)
  {
    if s == [] then 0
    else
      var last := s[|s| - 1];
      assert IsDigit(last, radix);
      var init := s[..|s| - 1];
      assert forall i :: 0 <= i < |init| ==> init[i] == s[i];
      var high := DigitsValue(init, radix);
      NonNegativeProduct(high, radix);
      high * radix + DigitValue(last).value
  }

  lemma NonNegativeProduct(a: nat, b: nat)
    ensures a * b >= 0
  {
  }

  /** Reading back what `toString(radix)` wrote gives the number. */
  lemma {:induction false} ToRadixRoundTrip(n: nat, radix: Radix)
    ensures DigitsValue(ToRadix(n, radix), radix) == n
  {
    var s := ToRadix(n, radix);
    if n < radix {
      assert s[..0] == [];
      assert DigitsValue(s, radix) == DigitValue(s[0]).value;
    } else {
      var q, d := n / radix, n % radix;
      DivisionShrinks(n, radix);
      assert s[..|s| - 1] == ToRadix(q, radix);
      assert DigitValue(s[|s| - 1]).value == d;
      ToRadixRoundTrip(q, radix);
      assert DigitsValue(s, radix) == q * radix + d;
      assert q * radix + d == n;
    }
  }

  lemma DivisionShrinks(n: nat, radix: Radix)
    requires n >= radix
    ensures 1 <= n / radix < n
    ensures n / radix * radix + n % radix == n
  {
    var q, d := n / radix, n % radix;
    assert n == q * radix + d && d < radix;
    assert q * radix > 0;
    MultiplyAtLeastDouble(q, radix);
  }

  lemma MultiplyAtLeastDouble(q: nat, radix: Radix)
    ensures q * radix >= q * 2
  {
  }

  /** A number's text has no superfluous leading zero. */
  lemma {:induction false} ToRadixLeadingDigit(n: nat, radix: Radix)
    ensures ToRadix(n, radix)[0] == '0' <==> n == 0
  {
    if n >= radix {
      DivisionShrinks(n, radix);
      ToRadixLeadingDigit(n / radix, radix);
    }
  }

  /** The number of leading characters of `s` that are digits in `radix`. */
  function DigitPrefixLength(s: string, radix: Radix): (k: nat)
    ensures k <= |s|
    ensures forall i :: 0 <= i < k ==> IsDigit(s[i], radix)
    ensures k < |s| ==> !IsDigit(s[k], radix)
  {
    if s == [] || !IsDigit(s[0], radix) then 0
    else 1 + DigitPrefixLength(s[1..], radix)
  }

  /** The magnitude part of parseInt: the longest digit prefix, NaN (None) when it is empty. */
  function ParseDigits(s: string, radix: Radix): (r: Option<nat>)
    ensures r.Some? <==> s != [] && IsDigit(s[0], radix)
  {
    var k := DigitPrefixLength(s, radix);
    if k == 0 then None else Some(DigitsValue(s[..k], radix))
  }

  /** True when the text starts with the hexadecimal prefix `0x` or `0X`. */
  predicate HasHexPrefix(u: string) {
    |u| >= 2 && u[0] == '0' && (u[1] == 'x' || u[1] == 'X')
  }

  /** The unsigned part of parseInt: hexadecimal after `0x`, decimal otherwise. */
  function Magnitude(u: string): Option<nat> {
    if HasHexPrefix(u) then ParseDigits(u[2..], 16) else ParseDigits(u, 10)
  }

  /**
   * The global `parseInt(s)` with no radix: leading white space skipped, an
   * optional sign, `0x`/`0X` switches to hexadecimal, then the longest prefix
   * of digits; `None` stands for NaN.  `-0` is represented as 0.
   */
  function ParseInt(s: string): Option<int> {
    var t := JsText.TrimStart(s);
    var signed := t != [] && (t[0] == '-' || t[0] == '+');
    var negative := t != [] && t[0] == '-';
    match Magnitude(if signed then t[1..] else t)
    case None => None
    case Some(m) =>
      var v: int := if negative then -(m as int) else m;
      Some(v)
  }

  /** The decimal text of a number parses back to that number. */
  lemma DecimalParses(n: nat)
    ensures ParseInt(Decimal(n)) == Some(n)
  {
    ParseIntOfDecimalDigits(Decimal(n));
    ToRadixRoundTrip(n, 10);
  }

  /** A template literal `${n}` of an integer: decimal digits, with `-` when negative. */
  function IntText(n: int): string {
    if n < 0 then "-" + Decimal(-n) else Decimal(n)
  }

  /** An integer's text parses back to it, whatever its sign. */
  lemma {:induction false} IntTextParses(n: int)
    ensures ParseInt(IntText(n)) == Some(n)
  {
    if n >= 0 {
      DecimalParses(n);
    } else {
      var m: nat := -n;
      var d := Decimal(m);
      assert Magnitude(d) == Some(m) by {
        DecimalParses(m);
        MagnitudeOfDigitText(d);
      }
      NegatedParses(d, m);
    }
  }

  /** Digit text that parseInt reads as `Some(v)` is read through `Magnitude`. */
  lemma MagnitudeOfDigitText(d: string)
    requires d != [] && '0' <= d[0] <= '9'
    ensures ParseInt(d) == Magnitude(d)
  {
    assert JsText.TrimStart(d) == d by {
      assert !JsText.IsSpace(d[0]);
    }
  }

  /** A minus sign in front of a magnitude negates it. */
  lemma NegatedParses(d: string, m: nat)
    requires Magnitude(d) == Some(m)
    ensures ParseInt("-" + d) == Some(-(m as int))
  {
    var s := "-" + d;
    assert JsText.TrimStart(s) == s by {
      assert !JsText.IsSpace(s[0]);
    }
    assert s[1..] == d;
  }

  /** An integer's text is never empty and holds no underscore. */
  lemma IntTextShape(n: int)
    ensures IntText(n) != [] && '_' !in IntText(n)
  {
    var d := Decimal(if n < 0 then -n else n);
    assert forall i :: 0 <= i < |d| ==> IsDigit(d[i], 10);
    assert '_' !in d;
  }

  /** Text that starts with neither white space, a sign nor a decimal digit is NaN. */
  lemma ParseIntRefuses(s: string)
    requires s != [] && !JsText.IsSpace(s[0])
    requires s[0] != '+' && s[0] != '-' && !('0' <= s[0] <= '9')
    ensures ParseInt(s).None?
  {
    JsText.TrimStartOfNonSpace(s);
    assert !HasHexPrefix(s);
    assert !IsDigit(s[0], 10);
  }

  /** An integer's text has no white space at either end. */
  lemma {:induction false} IntTextTrimmed(n: int)
    ensures JsText.Trim(IntText(n)) == IntText(n)
  {
    var t := IntText(n);
    var d := Decimal(if n < 0 then -n else n);
    assert IsDigit(d[0], 10) && IsDigit(d[|d| - 1], 10);
    DecimalDigitIsNumeral(d[|d| - 1]);
    assert t[|t| - 1] == d[|d| - 1];
    JsText.TrimOfTrimmed(t);
  }

  /** A plain run of decimal digits parses to its decimal value, leading zeros included (no octal). */
  lemma {:induction false} ParseIntOfDecimalDigits(s: string)
    requires s != [] && forall i :: 0 <= i < |s| ==> IsDigit(s[i], 10)
    ensures ParseInt(s) == Some(DigitsValue(s, 10))
  {
    DecimalDigitIsNumeral(s[0]);
    JsText.TrimStartOfNonSpace(s);
    MagnitudeOfDecimalDigits(s);
  }

  /** A decimal digit is one of '0' to '9'. */
  lemma DecimalDigitIsNumeral(c: char)
    requires IsDigit(c, 10)
    ensures '0' <= c <= '9'
  {
  }

  /** Decimal digits, which never start `0x`, are read whole, in decimal. */
  lemma MagnitudeOfDecimalDigits(s: string)
    requires s != [] && forall i :: 0 <= i < |s| ==> IsDigit(s[i], 10)
    ensures Magnitude(s) == Some(DigitsValue(s, 10))
  {
    assert !HasHexPrefix(s);
    AllDigitsPrefix(s, 10);
    assert s[..|s|] == s;
  }

  lemma {:induction false} AllDigitsPrefix(s: string, radix: Radix)
    requires forall i :: 0 <= i < |s| ==> IsDigit(s[i], radix)
    ensures DigitPrefixLength(s, radix) == |s|
  {
    if s != [] {
      AllDigitsPrefix(s[1..], radix);
    }
  }
}
