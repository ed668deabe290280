/**
 * Decimal digits and strings as Python produces and compares them:
 * `str(n)`, zero-padded fields of `strftime`, and the code-point
 * lexicographic order of `str` comparisons.
 */
module Text {

  predicate IsDigit(c: char) {
    '0' <= c <= '9'
  }

  predicate AllDigits(s: string) {
    forall i :: 0 <= i < |s| ==> IsDigit(s[i])
  }

  function DigitChar(d: nat): (c: char)
    requires d < 10
    ensures IsDigit(c) && DigitValue(c) == d
  {
    ('0' as int + d) as char
  }

  /** The value of a digit character. */
  function DigitValue(c: char): int {
    c as int - '0' as int
  }

  /** `str(n)` for a non-negative integer: no sign, no leading zero. */
  function NatToString(n: nat): (s: string)
    ensures |s| >= 1 && AllDigits(s)
    ensures (s[0] == '0') == (n == 0)
    ensures n < 10 <==> |s| == 1
  {
    if n < 10 then [DigitChar(n)] else NatToString(n / 10) + [DigitChar(n % 10)]
  }

  lemma {:induction false} AllDigitsPrefix(s: string, k: nat)
    requires AllDigits(s) && k <= |s|
    ensures AllDigits(s[..k])
  {
    assert forall i :: 0 <= i < k ==> s[..k][i] == s[i];
  }

  /** The value of a string of decimal digits, leading zeros allowed (it is
      meant for strings with `AllDigits`). */
  function ParseDecimal(s: string): int {
    if s == [] then 0 else ParseDecimal(s[..|s| - 1]) * 10 + DigitValue(s[|s| - 1])
  }

  /** Reading back the decimal representation returns the number. */
  lemma {:induction false} ParseNatToString(n: nat)
    ensures ParseDecimal(NatToString(n)) == n
  {
    var s := NatToString(n);
    if n >= 10 {
      assert s[..|s| - 1] == NatToString(n / 10);
      ParseNatToString(n / 10);
    }
  }

  /** Distinct numbers have distinct decimal representations. */
  lemma {:induction false} NatToStringInjective(a: nat, b: nat)
    ensures NatToString(a) == NatToString(b) ==> a == b
  {
    ParseNatToString(a);
    ParseNatToString(b);
  }

  function Zeros(k: nat): (z: string)
    ensures |z| == k && AllDigits(z)
  {
    seq(k, _ => '0')
  }

  /** The number of '0's that pad `n` to `width` digits. */
  function PadCount(n: nat, width: nat): nat {
    if |NatToString(n)| < width then width - |NatToString(n)| else 0
  }

  /** `n` written with at least `width` digits, padded on the left with '0'
      (the `%02d`-style fields of `strftime`). */
  function Pad(n: nat, width: nat): (r: string)
    ensures |r| == PadCount(n, width) + |NatToString(n)|
  {
    Zeros(PadCount(n, width)) + NatToString(n)
  }

  lemma {:induction false} ParseZeros(k: nat)
    ensures ParseDecimal(Zeros(k)) == 0
  {
    if k > 0 {
      assert Zeros(k)[..k - 1] == Zeros(k - 1);
      ParseZeros(k - 1);
    }
  }

  lemma {:induction false} ParseLeadingZeros(k: nat, s: string)
    requires AllDigits(s)
    ensures AllDigits(Zeros(k) + s) && ParseDecimal(Zeros(k) + s) == ParseDecimal(s)
  {
    var t := Zeros(k) + s;
    assert AllDigits(t) by {
      forall i | 0 <= i < |t| ensures IsDigit(t[i]) {
        if i < k { assert t[i] == Zeros(k)[i]; } else { assert t[i] == s[i - k]; }
      }
    }
    if s == [] {
      assert t == Zeros(k);
      ParseZeros(k);
    } else {
      assert t[..|t| - 1] == Zeros(k) + s[..|s| - 1];
      AllDigitsPrefix(s, |s| - 1);
      ParseLeadingZeros(k, s[..|s| - 1]);
    }
  }

  /** A zero-padded field consists of digits and reads back as the number
      it pads. */
  lemma {:induction false} PadRoundTrip(n: nat, width: nat)
    ensures AllDigits(Pad(n, width)) && ParseDecimal(Pad(n, width)) == n
  {
    ParseNatToString(n);
    ParseLeadingZeros(PadCount(n, width), NatToString(n));
  }

  /** A field padded to `width` has exactly `width` characters when the
      number fits in `width` digits. */
  lemma {:induction false} PadFits(n: nat, width: nat)
    requires width >= 1
    requires n < Pow10(width)
    ensures |Pad(n, width)| == width
  {
    NatToStringLength(n, width);
  }

  function Pow10(k: nat): (p: nat)
    ensures p >= 1
  {
    if k == 0 then 1 else 10 * Pow10(k - 1)
  }

  lemma {:induction false} NatToStringLength(n: nat, width: nat)
    requires width >= 1 && n < Pow10(width)
    ensures |NatToString(n)| <= width
  {
    if n >= 10 {
      if width == 1 { assert false; }
      NatToStringLength(n / 10, width - 1);
    }
  }

  /** A string of k digits reads as a number below 10^k. */
  lemma {:induction false} ParseDecimalBound(s: string)
    requires AllDigits(s)
    ensures 0 <= ParseDecimal(s) < Pow10(|s|)
  {
    if s != [] {
      AllDigitsPrefix(s, |s| - 1);
      ParseDecimalBound(s[..|s| - 1]);
    }
  }

  lemma {:induction false} LastDigitStep(x: int, d: int, y: int, e: int)
    requires 0 <= d < 10 && 0 <= e < 10
    requires x * 10 + d == y * 10 + e
    ensures d == e && x == y
  {
    assert 10 * (x - y) == e - d;
  }

  /** Digit strings of the same length that read as the same number are the
      same string. */
  lemma {:induction false} ParseDecimalInjective(a: string, b: string)
    requires |a| == |b| && AllDigits(a) && AllDigits(b)
    requires ParseDecimal(a) == ParseDecimal(b)
    ensures a == b
  {
    if a != [] {
      var n := |a|;
      var pa, pb := a[..n - 1], b[..n - 1];
      AllDigitsPrefix(a, n - 1);
      AllDigitsPrefix(b, n - 1);
      assert IsDigit(a[n - 1]) && IsDigit(b[n - 1]);
      LastDigitStep(ParseDecimal(pa), DigitValue(a[n - 1]), ParseDecimal(pb), DigitValue(b[n - 1]));
      ParseDecimalInjective(pa, pb);
      assert a == pa + [a[n - 1]] && b == pb + [b[n - 1]];
    }
  }

  /** Python's `a <= b` on strings: lexicographic by code point, a proper
      prefix sorting first. */
  predicate StrLe(a: string, b: string) {
    if a == [] then true
    else if b == [] then false
    else if a[0] != b[0] then a[0] < b[0]
    else StrLe(a[1..], b[1..])
  }

  lemma {:induction false} StrLeTotal(a: string, b: string)
    ensures StrLe(a, b) || StrLe(b, a)
  {
    if a != [] && b != [] && a[0] == b[0] {
      StrLeTotal(a[1..], b[1..]);
    }
  }

  lemma {:induction false} StrLeTransitive(a: string, b: string, c: string)
    requires StrLe(a, b) && StrLe(b, c)
    ensures StrLe(a, c)
  {
    if a != [] && b != [] && c != [] && a[0] == b[0] && b[0] == c[0] {
      StrLeTransitive(a[1..], b[1..], c[1..]);
    }
  }
}
