/** Option, the optional value the model uses where the Kotlin code has a nullable one. */
module Wrappers {
  datatype Option<T> = None | Some(value: T)
}

/**
 * The few Kotlin/JVM primitives the compass code leans on, stated over exact
 * reals and unbounded integers: `Float.toInt()`, `%` on `Float`,
 * `String.format(Locale.US, "%.2f", x).toFloat()` and `Int.toString()`.
 */
module KotlinRuntime {

  function Abs(x: real): (r: real)
    ensures r >= 0.0 && (r == x || r == -x)
  {
    if x < 0.0 then -x else x
  }

  /** `Float.toInt()`: the fractional part is dropped, rounding toward zero. */
  function Trunc(x: real): (r: int)
    ensures x >= 0.0 ==> 0 <= r && r as real <= x < r as real + 1.0
    ensures x < 0.0 ==> r <= 0 && r as real - 1.0 < x <= r as real
  {
    if x >= 0.0 then x.Floor else -((-x).Floor)
  }

  lemma TruncOfIntegral(n: int)
    ensures Trunc(n as real) == n
  {
  }

  lemma ScaleMonotone(a: real, b: real, m: real)
    requires a <= b && m > 0.0
    ensures a * m <= b * m
  {
  }

  lemma ScaleStrict(a: real, b: real, m: real)
    requires a < b && m > 0.0
    ensures a * m < b * m
  {
  }

  lemma QuotientSign(x: real, m: real)
    requires m > 0.0
    ensures x >= 0.0 ==> x / m >= 0.0
    ensures x < 0.0 ==> x / m < 0.0
  {
    var q := x / m;
    assert x == q * m;
    if x >= 0.0 && q < 0.0 { ScaleStrict(q, 0.0, m); }
    if x < 0.0 && q >= 0.0 { ScaleMonotone(0.0, q, m); }
  }

  /** The remainder left by a quotient `t` just below the exact quotient `q`. */
  lemma RemainderBelow(x: real, m: real, q: real, t: real)
    requires m > 0.0 && x == q * m
    requires t <= q < t + 1.0
    ensures 0.0 <= x - t * m < m
  {
    var d := q - t;
    var dm := d * m;
    assert 0.0 <= dm < m by { assert 0.0 * m <= d * m; assert d * m < 1.0 * m; }
    assert dm == q * m - t * m;
  }

  /** The remainder left by a quotient `t` just above the exact quotient `q`. */
  lemma RemainderAbove(x: real, m: real, q: real, t: real)
    requires m > 0.0 && x == q * m
    requires t - 1.0 < q <= t
    ensures -m < x - t * m <= 0.0
  {
    var d := t - q;
    var dm := d * m;
    assert 0.0 <= dm < m by { assert 0.0 * m <= d * m; assert d * m < 1.0 * m; }
    assert dm == t * m - q * m;
  }

  /** `x % m` on `Float`: the remainder of the truncating division, so it takes the sign of `x`. */
  function FloatRem(x: real, m: real): (r: real)
    requires m > 0.0
    ensures x >= 0.0 ==> 0.0 <= r < m
    ensures x < 0.0 ==> -m < r <= 0.0
  {
    var q := x / m;
    var t := Trunc(q) as real;
    QuotientSign(x, m);
    if x >= 0.0 then
      RemainderBelow(x, m, q, t);
      x - t * m
    else
      RemainderAbove(x, m, q, t);
      x - t * m
  }

  /** What `FloatRem` removes from `x` is a whole number of `m`s. */
  lemma FloatRemCongruent(x: real, m: real)
    requires m > 0.0
    ensures ((x - FloatRem(x, m)) / m).Floor as real == (x - FloatRem(x, m)) / m
  {
    var t := Trunc(x / m);
    assert x - FloatRem(x, m) == t as real * m;
    assert (t as real * m) / m == t as real;
  }

  /** Half-up rounding of a non-negative value to a whole number of hundredths. */
  function RoundUpHundredths(x: real): (r: real)
    requires x >= 0.0
    ensures x - 0.005 < r <= x + 0.005
    ensures (r * 100.0).Floor as real == r * 100.0
  {
    var f := (x * 100.0 + 0.5).Floor;
    assert (f as real / 100.0) * 100.0 == f as real;
    f as real / 100.0
  }

  lemma NegatedHundredths(u: real)
    requires (u * 100.0).Floor as real == u * 100.0
    ensures ((-u) * 100.0).Floor as real == (-u) * 100.0
  {
    var k := (u * 100.0).Floor;
    assert (-u) * 100.0 == (-k) as real;
  }

  /**
   * `String.format(Locale.US, "%.2f", x).toFloat()`: the formatter rounds half
   * away from zero to two decimals, and the parse reads that decimal back.
   */
  function RoundHundredths(x: real): (r: real)
    ensures -0.005 <= r - x <= 0.005
    ensures (r * 100.0).Floor as real == r * 100.0
  {
    if x >= 0.0 then RoundUpHundredths(x)
    else
      var u := RoundUpHundredths(-x);
      NegatedHundredths(u);
      -u
  }

  /** A value rounds to zero exactly when it lies strictly within half a hundredth of zero. */
  lemma RoundHundredthsZero(x: real)
    ensures RoundHundredths(x) == 0.0 <==> -0.005 < x < 0.005
  {
    if x >= 0.0 {
      var f := (x * 100.0 + 0.5).Floor;
      assert RoundHundredths(x) == RoundUpHundredths(x) == f as real / 100.0;
      if x < 0.005 { assert 0.0 <= x * 100.0 + 0.5 < 1.0; assert f == 0; }
      else { assert x * 100.0 + 0.5 >= 1.0; assert f >= 1; }
    } else {
      var f := ((-x) * 100.0 + 0.5).Floor;
      assert RoundHundredths(x) == -RoundUpHundredths(-x);
      assert RoundUpHundredths(-x) == f as real / 100.0;
      if -0.005 < x { assert 0.0 <= (-x) * 100.0 + 0.5 < 1.0; assert f == 0; }
      else { assert (-x) * 100.0 + 0.5 >= 1.0; assert f >= 1; }
    }
  }

  /** Whole degrees survive the two-decimal round trip unchanged. */
  lemma RoundHundredthsIntegral(n: int)
    ensures RoundHundredths(n as real) == n as real
  {
    var x := n as real;
    if n >= 0 {
      assert (x * 100.0 + 0.5).Floor == n * 100;
    } else {
      assert ((-x) * 100.0 + 0.5).Floor == -n * 100;
    }
  }

  function DigitChar(d: int): (c: char)
    requires 0 <= d <= 9
    ensures '0' <= c <= '9' && c as int - '0' as int == d
  {
    "0123456789"[d]
  }

  /** Decimal digits of `n`, most significant first, without leading zeros. */
  function NatToString(n: nat): (s: string)
    ensures |s| >= 1
    ensures forall i :: 0 <= i < |s| ==> '0' <= s[i] <= '9'
    ensures s[0] == '0' ==> n == 0
    decreases n
  {
    if n < 10 then [DigitChar(n)] else NatToString(n / 10) + [DigitChar(n % 10)]
  }

  /** `Int.toString()`: a minus sign for negative values, then the decimal digits. */
  function IntToString(n: int): (s: string)
    ensures |s| >= 1
    ensures s[0] == '-' <==> n < 0
  {
    if n < 0 then "-" + NatToString(-n) else NatToString(n)
  }

  /** Reads decimal digits back (the inverse of `NatToString`). */
  function ParseNat(s: string): nat
  {
    if s == [] then 0
    else
      var d := s[|s| - 1] as int - '0' as int;
      ParseNat(s[..|s| - 1]) * 10 + (if 0 <= d <= 9 then d else 0)
  }

  function ParseInt(s: string): int
  {
    if |s| > 0 && s[0] == '-' then -(ParseNat(s[1..]) as int) else ParseNat(s)
  }

  lemma {:induction false} ParseNatToString(n: nat)
    ensures ParseNat(NatToString(n)) == n
    decreases n
  {
    var s := NatToString(n);
    if n >= 10 {
      ParseNatToString(n / 10);
      assert s[..|s| - 1] == NatToString(n / 10);
    }
  }

  /** Printing an integer and reading it back gives the integer: the text identifies the number. */
  lemma IntToStringRoundTrip(n: int)
    ensures ParseInt(IntToString(n)) == n
  {
    if n < 0 {
      ParseNatToString(-n);
      assert IntToString(n)[1..] == NatToString(-n);
    } else {
      ParseNatToString(n);
    }
  }

  lemma IntToStringInjective(a: int, b: int)
    ensures IntToString(a) == IntToString(b) ==> a == b
  {
    IntToStringRoundTrip(a);
    IntToStringRoundTrip(b);
  }
}
