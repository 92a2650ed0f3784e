/**
 * JavaScript's `Number.prototype.toString()` on integers, and `String.prototype.slice(-k)`,
 * together with the digit arithmetic needed to say what a receipt number's digits are.
 */
module Decimal {

  function Pow10(k: nat): (p: nat)
    ensures p >= 1
  {
    if k == 0 then 1 else 10 * Pow10(k - 1)
  }

  predicate IsDigit(c: char) {
    '0' <= c <= '9'
  }

  predicate AllDigits(s: string) {
    forall i :: 0 <= i < |s| ==> IsDigit(s[i])
  }

  function DigitChar(d: nat): (c: char)
    requires d < 10
    ensures IsDigit(c) && (c as int) - ('0' as int) == d
  {
    (('0' as int) + d) as char
  }

  /** The decimal numeral of a non-negative integer: no sign, no leading zero. */
  function DecimalString(n: nat): (s: string)
    ensures |s| >= 1 && AllDigits(s)
    ensures s[0] == '0' ==> n == 0
    decreases n
  {
    if n < 10 then [DigitChar(n)] else DecimalString(n / 10) + [DigitChar(n % 10)]
  }

  /** The number a string of digits denotes (the inverse of DecimalString). */
  function DigitsValue(s: string): nat
    requires AllDigits(s)
    decreases |s|
  {
    if s == [] then 0
    else DigitsValue(s[..|s| - 1]) * 10 + ((s[|s| - 1] as int) - ('0' as int))
  }

  /** The numeral of an integer, with a leading `-` when it is negative. */
  function IntToString(n: int): (s: string)
    ensures |s| >= 1
    ensures n < 0 <==> s[0] == '-'
  {
    if n < 0 then "-" + DecimalString(-n) else DecimalString(n)
  }

  /** The last k characters of `s`, or all of it when it is shorter, as a negative `slice` keeps them. */
  function LastChars(k: nat, s: string): (r: string)
    ensures |r| == if |s| <= k then |s| else k
    ensures r == s[|s| - |r|..]
  {
    if |s| <= k then s else s[|s| - k..]
  }

  lemma {:induction false} DecimalRoundTrip(n: nat)
    ensures DigitsValue(DecimalString(n)) == n
    decreases n
  {
    var s := DecimalString(n);
    if n >= 10 {
      DecimalRoundTrip(n / 10);
      assert s[..|s| - 1] == DecimalString(n / 10);
    }
  }

  lemma {:induction false} DigitsValueBound(s: string)
    requires AllDigits(s)
    ensures DigitsValue(s) < Pow10(|s|)
    decreases |s|
  {
    if s != [] {
      DigitsValueBound(s[..|s| - 1]);
    }
  }

  lemma {:induction false} DigitsValueConcat(a: string, b: string)
    requires AllDigits(a) && AllDigits(b)
    ensures AllDigits(a + b)
    ensures DigitsValue(a + b) == DigitsValue(a) * Pow10(|b|) + DigitsValue(b)
    decreases |b|
  {
    var ab := a + b;
    if b == [] {
      assert ab == a;
    } else {
      var b' := b[..|b| - 1];
      assert ab[..|ab| - 1] == a + b';
      assert ab[|ab| - 1] == b[|b| - 1];
      DigitsValueConcat(a, b');
      var d := (b[|b| - 1] as int) - ('0' as int);
      assert DigitsValue(ab) == DigitsValue(a + b') * 10 + d;
      assert DigitsValue(b) == DigitsValue(b') * 10 + d;
      assert Pow10(|b|) == 10 * Pow10(|b'|);
      Distribute(DigitsValue(a), Pow10(|b'|), DigitsValue(b'), d);
    }
  }

  lemma Distribute(x: int, p: int, y: int, d: int)
    ensures (x * p + y) * 10 + d == x * (10 * p) + (y * 10 + d)
  {
  }

  /** Two digit strings of one length denoting the same number are the same string. */
  lemma {:induction false} DigitsValueInjective(a: string, b: string)
    requires AllDigits(a) && AllDigits(b) && |a| == |b|
    requires DigitsValue(a) == DigitsValue(b)
    ensures a == b
    decreases |a|
  {
    if a != [] {
      var da := (a[|a| - 1] as int) - ('0' as int);
      var db := (b[|b| - 1] as int) - ('0' as int);
      var qa := DigitsValue(a[..|a| - 1]);
      var qb := DigitsValue(b[..|b| - 1]);
      assert qa * 10 + da == qb * 10 + db;
      LastDigitSplit(qa, da);
      LastDigitSplit(qb, db);
      DigitsValueInjective(a[..|a| - 1], b[..|b| - 1]);
      assert a == a[..|a| - 1] + [a[|a| - 1]];
      assert b == b[..|b| - 1] + [b[|b| - 1]];
    }
  }

  /** A digit appended to q is recovered by `% 10`, and q by `/ 10`. */
  lemma LastDigitSplit(q: nat, d: nat)
    requires d < 10
    ensures (q * 10 + d) % 10 == d && (q * 10 + d) / 10 == q
  {
    ModOfMultiplePlus(q, 10, d);
  }

  lemma Pow10Monotone(j: nat, k: nat)
    requires j <= k
    ensures Pow10(j) <= Pow10(k)
    decreases k
  {
    if j < k {
      Pow10Monotone(j, k - 1);
    }
  }

  /** Euclidean division by m of q * m + r, for a remainder r already below m. */
  lemma ModOfMultiplePlus(q: nat, m: nat, r: nat)
    requires 0 <= r < m
    ensures (q * m + r) % m == r
  {
    var x := q * m + r;
    var d, e := x / m, x % m;
    assert x == m * d + e;
    if d > q {
      assert m * d >= m * (q + 1) by { MulMonotone(m, q + 1, d); }
    } else if d < q {
      assert m * (d + 1) <= m * q by { MulMonotone(m, d + 1, q); }
    }
  }

  lemma MulMonotone(m: nat, a: nat, b: nat)
    requires a <= b
    ensures m * a <= m * b
  {
  }

  /** The last k characters of n's numeral spell n modulo 10^k. */
  lemma LastDigitsValue(k: nat, n: nat)
    ensures AllDigits(LastChars(k, DecimalString(n)))
    ensures DigitsValue(LastChars(k, DecimalString(n))) == n % Pow10(k)
  {
    var s := DecimalString(n);
    DecimalRoundTrip(n);
    if |s| <= k {
      DigitsValueBound(s);
      Pow10Monotone(|s|, k);
      ModOfMultiplePlus(0, Pow10(k), n);
    } else {
      var pre, suf := s[..|s| - k], s[|s| - k..];
      assert s == pre + suf;
      DigitsValueConcat(pre, suf);
      DigitsValueBound(suf);
      ModOfMultiplePlus(DigitsValue(pre), Pow10(k), DigitsValue(suf));
    }
  }

  /** A numeral has more than k digits exactly when the number reaches 10^k. */
  lemma DecimalLength(k: nat, n: nat)
    requires k > 0
    ensures |DecimalString(n)| > k <==> n >= Pow10(k)
  {
    var s := DecimalString(n);
    DecimalRoundTrip(n);
    DigitsValueBound(s);
    if |s| > k {
      Pow10Monotone(k, |s| - 1);
      assert n > 0;
      LeadingDigitBound(n);
    } else {
      Pow10Monotone(|s|, k);
    }
  }

  lemma {:induction false} LeadingDigitBound(n: nat)
    requires n > 0
    ensures n >= Pow10(|DecimalString(n)| - 1)
    decreases n
  {
    if n >= 10 {
      LeadingDigitBound(n / 10);
      var len := |DecimalString(n / 10)|;
      assert |DecimalString(n)| == len + 1;
      assert Pow10(len) == 10 * Pow10(len - 1);
      assert n >= 10 * (n / 10);
    }
  }
}
