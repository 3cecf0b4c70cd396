/**
  Integer arithmetic the lambdas rely on: JavaScript's `Math.round` of a
  quotient, the ceiling quotient that counts write calls, and the decimal
  text of an integer (`Number.prototype.toString`) with its parser.
 */
module Numbers {
  import opened Common

  /** `Math.round(x / d)` for an integer `x` and an even divisor `d`: the
      nearest integer to x/d, a tie (x/d = k + 1/2) rounding up to k + 1. */
  function RoundDiv(x: int, d: nat): (r: int)
    requires d > 0 && d % 2 == 0
    ensures r * d - d / 2 <= x < r * d + d / 2
  {
    (x + d / 2) / d
  }

  /** The nearest-integer characterisation above determines the result. */
  lemma RoundDivUnique(x: int, d: nat, k: int)
    requires d > 0 && d % 2 == 0
    requires k * d - d / 2 <= x < k * d + d / 2
    ensures k == RoundDiv(x, d)
  {
    var r := RoundDiv(x, d);
    assert (k - r) * d == k * d - r * d;
    assert (r - k) * d == r * d - k * d;
    BelowOneMultiple(k - r, d);
    BelowOneMultiple(r - k, d);
  }

  /** A multiple m * d smaller than d itself has m < 1. */
  lemma BelowOneMultiple(m: int, d: nat)
    requires d > 0 && m * d < d
    ensures m < 1
  {
    MulMonotone(1, m, d);
  }

  lemma MulMonotone(a: int, b: int, d: nat)
    ensures a <= b ==> a * d <= b * d
  {
    if a <= b {
      assert b * d - a * d == (b - a) * d;
    }
  }

  /** Adding a whole number of divisors shifts the rounded quotient by that number. */
  lemma {:induction false} RoundDivShift(x: int, d: nat, k: int)
    requires d > 0 && d % 2 == 0
    ensures RoundDiv(x + k * d, d) == RoundDiv(x, d) + k
  {
    var r := RoundDiv(x, d);
    assert (r + k) * d == r * d + k * d;
    RoundDivUnique(x + k * d, d, r + k);
  }

  /** ⌈a / n⌉: the least r with a <= r * n. */
  function CeilDiv(a: nat, n: nat): (r: nat)
    requires n > 0
    ensures a <= r * n < a + n
  {
    (a + n - 1) / n
  }

  /** The ceiling quotient of a + n is one more than that of a. */
  lemma CeilDivStep(a: nat, n: nat)
    requires n > 0
    ensures CeilDiv(a + n, n) == CeilDiv(a, n) + 1
  {
    var r := CeilDiv(a, n);
    var q := CeilDiv(a + n, n);
    assert (q - r - 1) * n == q * n - r * n - n;
    assert (r + 1 - q) * n == r * n + n - q * n;
    BelowOneMultiple(q - r - 1, n);
    BelowOneMultiple(r + 1 - q, n);
  }

  /** Euclidean quotient and remainder are the only such decomposition. */
  lemma DivModUnique(x: int, n: nat, t: int, m: int)
    requires n > 0 && x == t * n + m && 0 <= m < n
    ensures x / n == t && x % n == m
  {
    var q := x / n;
    assert (t - q) * n == x % n - m;
    assert (q - t) * n == m - x % n;
    BelowOneMultiple(t - q, n);
    BelowOneMultiple(q - t, n);
  }

  /** Taking one divisor away leaves the remainder as it is. */
  lemma ModSub(a: int, n: nat)
    requires n > 0
    ensures (a - n) % n == a % n
  {
    var q := a / n;
    assert a - n == (q - 1) * n + a % n;
    DivModUnique(a - n, n, q - 1, a % n);
  }

  predicate IsDigit(c: char) {
    '0' <= c <= '9'
  }

  predicate AllDigits(s: string) {
    forall i :: 0 <= i < |s| ==> IsDigit(s[i])
  }

  function DigitChar(d: nat): (c: char)
    requires d < 10
    ensures IsDigit(c) && c as int - '0' as int == d
  {
    ('0' as int + d) as char
  }

  /** Decimal text of a natural number, most significant digit first, with no
      leading zero (what `toString` prints for a non-negative integer). */
  function NatToString(n: nat): (s: string)
    ensures |s| > 0 && AllDigits(s)
    ensures s[0] == '0' ==> n == 0
    decreases n
  {
    if n < 10 then [DigitChar(n)] else NatToString(n / 10) + [DigitChar(n % 10)]
  }

  /** Value of a string of decimal digits, read left to right. */
  function DigitsValue(s: string): nat
    requires AllDigits(s)
  {
    if |s| == 0 then 0
    else DigitsValue(s[..|s| - 1]) * 10 + (s[|s| - 1] as int - '0' as int)
  }

  /** Decimal text of an integer: a leading '-' for a negative one. */
  function IntToString(i: int): (s: string)
    ensures |s| > 0
  {
    if i < 0 then "-" + NatToString(-i) else NatToString(i)
  }

  /** Reads what `IntToString` writes: an optional '-' and at least one digit. */
  function ParseInt(s: string): Option<int>
  {
    if |s| > 0 && s[0] == '-' then
      if |s| > 1 && AllDigits(s[1..]) then Some(0 - DigitsValue(s[1..]) as int) else None
    else if |s| > 0 && AllDigits(s) then Some(DigitsValue(s))
    else None
  }

  lemma {:induction false} NatToStringValue(n: nat)
    ensures DigitsValue(NatToString(n)) == n
    decreases n
  {
    if n >= 10 {
      var s := NatToString(n);
      assert s[..|s| - 1] == NatToString(n / 10);
      NatToStringValue(n / 10);
    }
  }

  /** The decimal text denotes exactly the integer it was made from. */
  lemma IntToStringRoundTrip(i: int)
    ensures ParseInt(IntToString(i)) == Some(i)
  {
    var s := IntToString(i);
    if i < 0 {
      assert s[1..] == NatToString(-i);
      NatToStringValue(-i);
    } else {
      NatToStringValue(i);
    }
  }

  /** Distinct integers have distinct decimal texts. */
  lemma IntToStringInjective(a: int, b: int)
    requires IntToString(a) == IntToString(b)
    ensures a == b
  {
    IntToStringRoundTrip(a);
    IntToStringRoundTrip(b);
  }

  lemma NatToStringInjective(a: nat, b: nat)
    requires NatToString(a) == NatToString(b)
    ensures a == b
  {
    NatToStringValue(a);
    NatToStringValue(b);
  }
}
