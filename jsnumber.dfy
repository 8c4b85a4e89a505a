/**
 * ECMAScript's global `parseInt(string)` with no radix argument: skip leading white space, take an
 * optional sign, read hexadecimal after a "0x" or "0X" prefix and decimal otherwise, and stop at the
 * first character that is not a digit.  `None` stands for `NaN`, which `parseInt` returns when no
 * digit follows.  JavaScript's `-0` is the integer 0 here.
 */
module JsNumber {
  import opened Common
  import Strings

  /** ECMAScript's WhiteSpace and LineTerminator code points (the Zs category written out). */
  predicate IsStrWhiteSpace(c: char)
  {
    || c == '\t' || c == '\U{000B}' || c == '\U{000C}' || c == ' ' || c == '\U{00A0}' || c == '\U{FEFF}'
    || c == '\n' || c == '\r' || c == '\U{2028}' || c == '\U{2029}'
    || c == '\U{1680}' || ('\U{2000}' <= c <= '\U{200A}') || c == '\U{202F}' || c == '\U{205F}'
    || c == '\U{3000}'
  }

  /** Drops leading white space. */
  function TrimStart(s: string): (r: string)
    ensures |r| <= |s| && r == s[|s| - |r|..]
    ensures r == [] || !IsStrWhiteSpace(r[0])
    ensures forall i :: 0 <= i < |s| - |r| ==> IsStrWhiteSpace(s[i])
  {
    if s != [] && IsStrWhiteSpace(s[0]) then TrimStart(s[1..]) else s
  }

  /** The value of `c` as a digit of base 16 or less; 99 for a character that is no such digit. */
  function DigitValue(c: char): nat
  {
    if '0' <= c <= '9' then c as int - '0' as int
    else if 'a' <= c <= 'f' then c as int - 'a' as int + 10
    else if 'A' <= c <= 'F' then c as int - 'A' as int + 10
    else 99
  }

  predicate IsDigitIn(c: char, radix: nat)
  {
    DigitValue(c) < radix
  }

  /** The longest prefix of `s` made of digits of the radix. */
  function DigitPrefix(s: string, radix: nat): (r: string)
    ensures r <= s
    ensures forall i :: 0 <= i < |r| ==> IsDigitIn(r[i], radix)
    ensures r == s || !IsDigitIn(s[|r|], radix)
  {
    if s == [] || !IsDigitIn(s[0], radix) then [] else [s[0]] + DigitPrefix(s[1..], radix)
  }

  /** The number that a digit string denotes, most significant digit first. */
  function DigitsValue(ds: string, radix: nat): nat
  {
    if ds == [] then 0 else DigitsValue(ds[..|ds| - 1], radix) * radix + DigitValue(ds[|ds| - 1])
  }

  predicate IsHexPrefixed(u: string)
  {
    |u| >= 2 && u[0] == '0' && (u[1] == 'x' || u[1] == 'X')
  }

  /** `parseInt(s)`; `None` is `NaN`. */
  function ParseInt(s: string): Option<int>
  {
    var t := TrimStart(s);
    var negative := t != [] && t[0] == '-';
    var u := if t != [] && (t[0] == '-' || t[0] == '+') then t[1..] else t;
    var radix := if IsHexPrefixed(u) then 16 else 10;
    var body := if IsHexPrefixed(u) then u[2..] else u;
    var ds := DigitPrefix(body, radix);
    var magnitude: int := DigitsValue(ds, radix);
    if ds == [] then None
    else if negative then Some(-magnitude)
    else Some(magnitude)
  }

  predicate IsDecimalDigit(c: char)
  {
    '0' <= c <= '9'
  }

  /** A string that starts with a decimal digit and is not hex-prefixed parses as its decimal digit prefix. */
  lemma {:induction false} ParseDecimalPrefix(s: string)
    requires s != [] && IsDecimalDigit(s[0]) && !IsHexPrefixed(s)
    ensures ParseInt(s) == Some(DigitsValue(DigitPrefix(s, 10), 10))
  {
    assert !IsStrWhiteSpace(s[0]);
    assert TrimStart(s) == s;
  }

  /** An all-digit string is its own digit prefix. */
  lemma {:induction false} AllDigitsPrefix(s: string)
    requires forall i :: 0 <= i < |s| ==> IsDecimalDigit(s[i])
    ensures DigitPrefix(s, 10) == s
  {
  }

  /** The value of a four-digit decimal string, digit by digit. */
  lemma ValueOfFourDigits(s: string)
    requires |s| == 4
    ensures DigitsValue(s, 10) == 1000 * DigitValue(s[0]) + 100 * DigitValue(s[1]) + 10 * DigitValue(s[2]) + DigitValue(s[3])
  {
    assert s[..1][..0] == [];
    assert DigitsValue(s[..1], 10) == DigitValue(s[0]);
    assert s[..2][..1] == s[..1];
    assert DigitsValue(s[..2], 10) == 10 * DigitValue(s[0]) + DigitValue(s[1]);
    assert s[..3][..2] == s[..2];
    assert DigitsValue(s[..3], 10) == 100 * DigitValue(s[0]) + 10 * DigitValue(s[1]) + DigitValue(s[2]);
    assert s[..3] == s[..|s| - 1];
  }

  /** A non-empty all-digit string parses as its decimal value. */
  lemma ParseAllDigits(s: string)
    requires s != [] && forall i :: 0 <= i < |s| ==> IsDecimalDigit(s[i])
    ensures ParseInt(s) == Some(DigitsValue(s, 10))
  {
    assert !IsHexPrefixed(s) by {
      if |s| >= 2 { assert IsDecimalDigit(s[1]); }
    }
    ParseDecimalPrefix(s);
    AllDigitsPrefix(s);
  }

  /** Four decimal digits parse as the year they spell. */
  lemma FourDigits(s: string)
    requires |s| == 4 && forall i :: 0 <= i < 4 ==> IsDecimalDigit(s[i])
    ensures ParseInt(s) == Some(1000 * DigitValue(s[0]) + 100 * DigitValue(s[1]) + 10 * DigitValue(s[2]) + DigitValue(s[3]))
  {
    ParseAllDigits(s);
    ValueOfFourDigits(s);
  }

  /** The digits of a decimal rendering spell its number back. */
  lemma {:induction false} DigitsOfNatToString(n: nat)
    ensures DigitsValue(Strings.NatToString(n), 10) == n
    decreases n
  {
    var r := Strings.NatToString(n);
    if n < 10 {
      assert r[..0] == [];
    } else {
      DigitsOfNatToString(n / 10);
      assert r[..|r| - 1] == Strings.NatToString(n / 10);
    }
  }

  /** Round trip: `parseInt` reads back the decimal rendering of every non-negative integer (below 10^21 in JavaScript). */
  lemma ParseNatToString(n: nat)
    ensures ParseInt(Strings.NatToString(n)) == Some(n)
  {
    ParseAllDigits(Strings.NatToString(n));
    DigitsOfNatToString(n);
  }

  /** Distinct numbers have distinct decimal renderings. */
  lemma NatToStringInjective(a: nat, b: nat)
    requires Strings.NatToString(a) == Strings.NatToString(b)
    ensures a == b
  {
    DigitsOfNatToString(a);
    DigitsOfNatToString(b);
  }
}
