/**
 Decimal numerals: Python's `str(k)` for an integer, `str.zfill(width)` and
 the value a string of digits denotes (what `int(...)` reads back).
 */
module Numerals {
  import opened Text

  function Pow10(e: nat): (r: nat)
    ensures r >= 1
  {
    if e == 0 then 1 else 10 * Pow10(e - 1)
  }

  lemma {:induction false} Pow10Monotone(a: nat, b: nat)
    ensures a <= b ==> Pow10(a) <= Pow10(b)
  {
    if a < b {
      Pow10Monotone(a, b - 1);
    }
  }

  function DigitValue(c: char): (d: nat)
    requires IsDigit(c)
    ensures d < 10
  {
    (c as int) - ('0' as int)
  }

  function DigitChar(d: nat): (c: char)
    requires d < 10
    ensures IsDigit(c) && DigitValue(c) == d
  {
    (('0' as int) + d) as char
  }

  /** The number the first `n` characters of a digit string denote, most significant digit first. */
  function PrefixValue(s: string, n: nat): (v: nat)
    requires AllDigits(s) && n <= |s|
    ensures v < Pow10(n)
  {
    if n == 0 then 0 else PrefixValue(s, n - 1) * 10 + DigitValue(s[n - 1])
  }

  /** The number a string of digits denotes. */
  function DigitsValue(s: string): nat
    requires AllDigits(s)
  {
    PrefixValue(s, |s|)
  }

  /** `a` and `b` are digit strings and `a` denotes the smaller number. */
  predicate DigitsLess(a: string, b: string) {
    AllDigits(a) && AllDigits(b) && DigitsValue(a) < DigitsValue(b)
  }

  /** A string of digits followed by a string of digits is a string of digits. */
  lemma AllDigitsAppend(a: string, b: string)
    requires AllDigits(a) && AllDigits(b)
    ensures AllDigits(a + b)
  {
    forall k | 0 <= k < |a + b| ensures IsDigit((a + b)[k]) {
      if k < |a| {
        assert (a + b)[k] == a[k];
      } else {
        assert (a + b)[k] == b[k - |a|];
      }
    }
  }

  /** Two digit strings that agree on their first `n` characters give those characters the same value. */
  lemma {:induction false} PrefixValueAgree(s: string, t: string, n: nat)
    requires AllDigits(s) && AllDigits(t) && n <= |s| && n <= |t|
    requires forall k :: 0 <= k < n ==> s[k] == t[k]
    ensures PrefixValue(s, n) == PrefixValue(t, n)
  {
    if n > 0 {
      PrefixValueAgree(s, t, n - 1);
    }
  }

  /** Appending one digit multiplies by ten and adds it. */
  lemma DigitsValueSnoc(s: string, c: char)
    requires AllDigits(s) && IsDigit(c)
    ensures AllDigits(s + [c])
    ensures DigitsValue(s + [c]) == DigitsValue(s) * 10 + DigitValue(c)
  {
    var t := s + [c];
    AllDigitsAppend(s, [c]);
    assert t[|s|] == c;
    PrefixValueAgree(t, s, |s|);
  }

  /** The first `|a| + m` characters of `a + b` denote `a` shifted left by `m` digits, plus the first `m` of `b`. */
  lemma {:induction false} PrefixValueAppend(a: string, b: string, m: nat)
    requires AllDigits(a) && AllDigits(b) && AllDigits(a + b) && m <= |b|
    ensures PrefixValue(a + b, |a| + m) == DigitsValue(a) * Pow10(m) + PrefixValue(b, m)
  {
    var ab := a + b;
    if m == 0 {
      PrefixValueAgree(ab, a, |a|);
    } else {
      PrefixValueAppend(a, b, m - 1);
      assert ab[|a| + m - 1] == b[m - 1];
      var va, vb, p, q, d := DigitsValue(a), PrefixValue(b, m - 1), Pow10(m - 1), Pow10(m), DigitValue(b[m - 1]);
      ShiftDistributes(va, vb, p, q, d);
    }
  }

  /** Reading a concatenation: the digits of `a` are shifted left by the length of `b`. */
  lemma DigitsValueAppend(a: string, b: string)
    requires AllDigits(a) && AllDigits(b)
    ensures AllDigits(a + b)
    ensures DigitsValue(a + b) == DigitsValue(a) * Pow10(|b|) + DigitsValue(b)
  {
    AllDigitsAppend(a, b);
    PrefixValueAppend(a, b, |b|);
  }

  lemma ShiftDistributes(va: int, vb: int, p: int, q: int, d: int)
    requires q == p * 10
    ensures (va * p + vb) * 10 + d == va * q + (vb * 10 + d)
  {
  }

  /** `k` zero characters. */
  function Zeros(k: nat): (z: string)
    ensures |z| == k && AllDigits(z)
  {
    if k == 0 then [] else Zeros(k - 1) + ['0']
  }

  lemma {:induction false} ZerosValue(k: nat)
    ensures DigitsValue(Zeros(k)) == 0
  {
    if k > 0 {
      ZerosValue(k - 1);
      DigitsValueSnoc(Zeros(k - 1), '0');
    }
  }

  /** Leading zeros do not change the number a digit string denotes. */
  lemma LeadingZerosValue(k: nat, s: string)
    requires AllDigits(s)
    ensures AllDigits(Zeros(k) + s) && DigitsValue(Zeros(k) + s) == DigitsValue(s)
  {
    DigitsValueAppend(Zeros(k), s);
    ZerosValue(k);
  }

  /** Python's `str(n)` for a non-negative integer, most significant digit first. */
  function DecimalString(n: nat): (r: string)
    ensures |r| >= 1
  {
    if n < 10 then [DigitChar(n)] else DecimalString(n / 10) + [DigitChar(n % 10)]
  }

  /**
   `int(str(n)) == n`: `str(n)` is a digit string that denotes `n`, it has no
   leading zero unless `n` is zero, and its length is the number of decimal
   digits of `n`.
   */
  lemma {:induction false} DecimalStringDigits(n: nat)
    ensures var r := DecimalString(n);
      && AllDigits(r) && DigitsValue(r) == n
      && (|r| == 1 || r[0] != '0')
      && n < Pow10(|r|) && (|r| > 1 ==> Pow10(|r| - 1) <= n)
  {
    var r := DecimalString(n);
    if n >= 10 {
      var p := DecimalString(n / 10);
      DecimalStringDigits(n / 10);
      assert r == p + [DigitChar(n % 10)];
      DigitsValueSnoc(p, DigitChar(n % 10));
      assert r[0] == p[0];
    }
  }

  /** A longer numeral never denotes a smaller number. */
  lemma DecimalStringLengthMonotone(m: nat, n: nat)
    requires m <= n
    ensures |DecimalString(m)| <= |DecimalString(n)|
  {
    var a, b := DecimalString(m), DecimalString(n);
    DecimalStringDigits(m);
    DecimalStringDigits(n);
    Pow10Monotone(|b|, |a| - 1);
  }

  /** Python's `str(k)` for any integer: a minus sign, then the digits of `-k`, when `k` is negative. */
  function IntString(k: int): (r: string)
    ensures r != []
  {
    if k < 0 then "-" + DecimalString(-k) else DecimalString(k)
  }

  /**
   Python's `s.zfill(width)`: pad on the left with zeros up to `width`,
   keeping a leading sign in front; a string already that long is returned as it is.
   */
  function ZFill(s: string, width: nat): (r: string)
    ensures |r| == if |s| >= width then |s| else width
  {
    if |s| >= width then s
    else if s != [] && (s[0] == '+' || s[0] == '-') then [s[0]] + Zeros(width - |s|) + s[1..]
    else Zeros(width - |s|) + s
  }

  /** The strings Python's `int(...)` reads back here: digits, optionally after a minus sign. */
  predicate IsIntLiteral(t: string) {
    (t != [] && AllDigits(t)) || (|t| >= 2 && t[0] == '-' && AllDigits(t[1..]))
  }

  function IntValue(t: string): (v: int)
    requires IsIntLiteral(t)
  {
    if t[0] == '-' then 0 - DigitsValue(t[1..]) else DigitsValue(t)
  }

  /**
   `str(k).zfill(3)` for a non-negative `k`: at least three characters, all
   digits, denoting `k`; zeros are added only when `k < 100`, and the numeral
   of `k` is always kept whole at its end.
   */
  lemma ZFill3Natural(k: nat)
    ensures var r := ZFill(IntString(k), 3);
      && |r| >= 3 && AllDigits(r) && DigitsValue(r) == k
      && (k < 100 ==> |r| == 3)
      && (k >= 100 ==> r == IntString(k))
      && r[|r| - |IntString(k)|..] == IntString(k)
  {
    var s := DecimalString(k);
    DecimalStringDigits(k);
    if |s| < 3 {
      LeadingZerosValue(3 - |s|, s);
      assert ZFill(s, 3) == Zeros(3 - |s|) + s;
    }
    Pow10Monotone(2, |s| - 1);
    Pow10Monotone(|s|, 2);
  }

  /** `int(str(k).zfill(3)) == k` for every integer, negative ones included. */
  lemma ZFill3RoundTrip(k: int)
    ensures IsIntLiteral(ZFill(IntString(k), 3))
    ensures IntValue(ZFill(IntString(k), 3)) == k
  {
    if k >= 0 {
      ZFill3Natural(k);
      var r := ZFill(IntString(k), 3);
      assert IsDigit(r[0]);
    } else {
      var d := DecimalString(-k);
      DecimalStringDigits(-k);
      var s := "-" + d;
      assert s[0] == '-' && s[1..] == d;
      var r := ZFill(s, 3);
      var digits := if |s| < 3 then Zeros(3 - |s|) + d else d;
      if |s| < 3 {
        LeadingZerosValue(3 - |s|, d);
        assert r == "-" + digits;
      } else {
        assert r == "-" + digits;
      }
      assert r[0] == '-' && r[1..] == digits;
      assert AllDigits(digits) && DigitsValue(digits) == -k;
    }
  }
}
