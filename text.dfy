// Character and string operations the services rely on: ASCII case
// folding (`toUpperCase`, `equalsIgnoreCase`) and decimal rendering of
// numbers (`%d`, the zero-padded fields of `yyyyMMdd`).
module Text {

  predicate IsAsciiLower(c: char) { 'a' <= c <= 'z' }

  predicate IsAsciiUpper(c: char) { 'A' <= c <= 'Z' }

  predicate IsDigit(c: char) { '0' <= c <= '9' }

  function ToUpperChar(c: char): char
  {
    if IsAsciiLower(c) then (c as int - 32) as char else c
  }

  /** `String.toUpperCase()` restricted to ASCII letters. */
  function ToUpper(s: string): (r: string)
    ensures |r| == |s|
    ensures forall i :: 0 <= i < |s| ==> r[i] == ToUpperChar(s[i])
  {
    if |s| == 0 then [] else [ToUpperChar(s[0])] + ToUpper(s[1..])
  }

  /** No lower-case ASCII letter is left after upper-casing, and upper-casing twice changes nothing. */
  lemma ToUpperNormalises(s: string)
    ensures forall i :: 0 <= i < |s| ==> !IsAsciiLower(ToUpper(s)[i])
    ensures ToUpper(ToUpper(s)) == ToUpper(s)
  {
  }

  /** `String.equalsIgnoreCase`, for ASCII text. */
  predicate EqualsIgnoreCase(a: string, b: string)
  {
    ToUpper(a) == ToUpper(b)
  }

  /** Case-insensitive equality is an equivalence that only folds letters. */
  lemma {:induction false} EqualsIgnoreCaseFacts(a: string, b: string)
    ensures EqualsIgnoreCase(a, a)
    ensures EqualsIgnoreCase(a, b) == EqualsIgnoreCase(b, a)
    ensures EqualsIgnoreCase(a, b) ==> |a| == |b|
    ensures EqualsIgnoreCase(a, b) ==>
      forall i :: 0 <= i < |a| && !IsAsciiLower(a[i]) && !IsAsciiUpper(a[i]) ==> a[i] == b[i]
  {
    if EqualsIgnoreCase(a, b) {
      forall i | 0 <= i < |a| && !IsAsciiLower(a[i]) && !IsAsciiUpper(a[i])
        ensures a[i] == b[i]
      {
        assert ToUpper(a)[i] == ToUpper(b)[i];
      }
    }
  }

  function DigitChar(d: nat): (c: char)
    requires d < 10
    ensures IsDigit(c)
  {
    ('0' as int + d) as char
  }

  function DigitValue(c: char): nat
    requires IsDigit(c)
  {
    c as int - '0' as int
  }

  predicate AllDigits(s: string) { forall i :: 0 <= i < |s| ==> IsDigit(s[i]) }

  /** The number a string of decimal digits denotes. */
  function ParseDecimal(s: string): nat
    requires AllDigits(s)
  {
    if |s| == 0 then 0 else ParseDecimal(s[..|s| - 1]) * 10 + DigitValue(s[|s| - 1])
  }

  function Pow10(w: nat): nat { if w == 0 then 1 else 10 * Pow10(w - 1) }

  /** `n` in exactly `width` decimal digits, zero-padded on the left (the `yyyy`, `MM`, `dd` fields). */
  function ZeroPad(n: nat, width: nat): (r: string)
    ensures |r| == width && AllDigits(r)
  {
    if width == 0 then "" else ZeroPad(n / 10, width - 1) + [DigitChar(n % 10)]
  }

  /** A padded field reads back as the number it renders, when the number fits. */
  lemma {:induction false} ZeroPadRoundTrip(n: nat, width: nat)
    requires n < Pow10(width)
    ensures ParseDecimal(ZeroPad(n, width)) == n
  {
    if width > 0 {
      var r := ZeroPad(n, width);
      assert r[..|r| - 1] == ZeroPad(n / 10, width - 1);
      ZeroPadRoundTrip(n / 10, width - 1);
    }
  }

  /** `Integer.toString` of a non-negative number: its digits, no leading zeros. */
  function NatToDecimal(n: nat): (r: string)
    ensures |r| >= 1 && AllDigits(r)
  {
    if n < 10 then [DigitChar(n)] else NatToDecimal(n / 10) + [DigitChar(n % 10)]
  }

  /** `String.format("%d", n)`: a minus sign for negative numbers. */
  function IntToDecimal(n: int): string
  {
    if n < 0 then "-" + NatToDecimal(-n) else NatToDecimal(n)
  }

  /** Decimal rendering reads back as the number, and has no leading zero. */
  lemma {:induction false} NatToDecimalRoundTrip(n: nat)
    ensures ParseDecimal(NatToDecimal(n)) == n
    ensures |NatToDecimal(n)| > 1 ==> NatToDecimal(n)[0] != '0'
  {
    if n >= 10 {
      var r := NatToDecimal(n);
      assert r[..|r| - 1] == NatToDecimal(n / 10);
      NatToDecimalRoundTrip(n / 10);
    }
  }
}
