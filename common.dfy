/**
 * Small value-level helpers shared by every module: an Option type,
 * sums and extrema over sequences, and the few pieces of Python numeric
 * and sequence semantics the harness relies on (truncating int(),
 * prefix slicing with a possibly negative bound, substring search).
 */
module Common {

  datatype Option<T> = None | Some(value: T)

  /** Sum of a sequence of naturals (Python's sum over an int list). */
  function SumNat(s: seq<nat>): nat
  {
    if s == [] then 0 else s[0] + SumNat(s[1..])
  }

  /** Sum of a sequence of reals (Python's sum over a float list). */
  function SumReal(s: seq<real>): real
  {
    if s == [] then 0.0 else s[0] + SumReal(s[1..])
  }

  lemma {:induction false} SumNatAppend(a: seq<nat>, b: seq<nat>)
    ensures SumNat(a + b) == SumNat(a) + SumNat(b)
  {
    if a == [] {
      assert a + b == b;
    } else {
      assert (a + b)[1..] == a[1..] + b;
      SumNatAppend(a[1..], b);
    }
  }

  lemma {:induction false} SumRealAppend(a: seq<real>, b: seq<real>)
    ensures SumReal(a + b) == SumReal(a) + SumReal(b)
  {
    if a == [] {
      assert a + b == b;
    } else {
      assert (a + b)[1..] == a[1..] + b;
      SumRealAppend(a[1..], b);
    }
  }

  /** Replacing one element changes the sum by the difference. */
  lemma {:induction false} SumNatUpdate(s: seq<nat>, i: nat, v: nat)
    requires i < |s|
    ensures SumNat(s[i := v]) + s[i] == SumNat(s) + v
  {
    if i > 0 {
      assert s[i := v][1..] == s[1..][i - 1 := v];
      SumNatUpdate(s[1..], i - 1, v);
    }
  }

  /** Python max over a non-empty list of reals. */
  function MaxReal(s: seq<real>): (m: real)
    requires |s| > 0
    ensures forall k :: 0 <= k < |s| ==> s[k] <= m
    ensures exists k :: 0 <= k < |s| && s[k] == m
  {
    if |s| == 1 then s[0]
    else
      var t := MaxReal(s[1..]);
      assert forall k :: 1 <= k < |s| ==> s[k] == s[1..][k - 1];
      if s[0] >= t then s[0] else t
  }

  /** Python min over a non-empty list of reals. */
  function MinReal(s: seq<real>): (m: real)
    requires |s| > 0
    ensures forall k :: 0 <= k < |s| ==> m <= s[k]
    ensures exists k :: 0 <= k < |s| && s[k] == m
  {
    if |s| == 1 then s[0]
    else
      var t := MinReal(s[1..]);
      assert forall k :: 1 <= k < |s| ==> s[k] == s[1..][k - 1];
      if s[0] <= t then s[0] else t
  }

  /** A quotient of reals is bounded by the bound its numerator has per unit of denominator. */
  lemma QuotientAtMost(x: real, n: real, c: real)
    requires n > 0.0 && x <= c * n
    ensures x / n <= c
  {
    var q := x / n;
    assert q * n == x;
    if q > c {
      assert (q - c) * n > 0.0;
    }
  }

  lemma QuotientAtLeast(x: real, n: real, c: real)
    requires n > 0.0 && c * n <= x
    ensures c <= x / n
  {
    var q := x / n;
    assert q * n == x;
    if q < c {
      assert (c - q) * n > 0.0;
    }
  }

  lemma QuotientExact(x: real, n: real, c: real)
    requires n > 0.0 && x == c * n
    ensures x / n == c
  {
    QuotientAtMost(x, n, c);
    QuotientAtLeast(x, n, c);
  }

  /** Python's int() on a float: truncation toward zero. */
  function Trunc(x: real): (r: int)
    ensures x >= 0.0 ==> r as real <= x < r as real + 1.0
    ensures x < 0.0 ==> r as real - 1.0 < x <= r as real
  {
    if x >= 0.0 then x.Floor else -((-x).Floor)
  }

  /** int() is monotone on non-negative values. */
  lemma TruncMonotone(x: real, y: real)
    requires 0.0 <= x <= y
    ensures Trunc(x) <= Trunc(y)
  {
    var a, b := Trunc(x), Trunc(y);
    assert a as real <= x <= y < b as real + 1.0;
  }

  /**
   * Python's round(x, n) counts units of 1/scale, scale = 10 ** n: the
   * nearest unit, and at an exact half the even one.  It is taken on the
   * exact value; Python rounds the nearest binary float, which can fall on
   * either side of an exact half.
   */
  function RoundUnits(x: real, scale: nat): (n: int)
    requires scale > 0
    ensures (n - 1) as real + 0.5 <= x * scale as real <= n as real + 0.5
  {
    var y := x * scale as real;
    var f := y.Floor;
    var d := y - f as real;
    if d < 0.5 then f else if d > 0.5 then f + 1 else if f % 2 == 0 then f else f + 1
  }

  /** round(x, n) with scale = 10 ** n: within half a unit of x. */
  function RoundTo(x: real, scale: nat): (r: real)
    requires scale > 0
    ensures r * scale as real == RoundUnits(x, scale) as real
    ensures -0.5 <= r * scale as real - x * scale as real <= 0.5
    ensures x >= 0.0 ==> r >= 0.0
  {
    var n := RoundUnits(x, scale);
    assert x >= 0.0 ==> x * scale as real >= 0.0 && n >= 0;
    n as real / scale as real
  }

  /**
   * The rounded value reaches k units exactly when x is past k - 1/2 units,
   * or exactly at it with k even (the half goes to the even unit).
   */
  lemma {:induction false} RoundUnitsAtLeast(x: real, scale: nat, k: int)
    requires scale > 0
    ensures RoundUnits(x, scale) >= k
        <==> x * scale as real > k as real - 0.5 || (x * scale as real == k as real - 0.5 && k % 2 == 0)
  {
    var y := x * scale as real;
    var f := y.Floor;
    if y == k as real - 0.5 {
      assert f == k - 1;
    }
  }

  /** Compared with a multiple of the unit, the rounded value is compared in units. */
  lemma RoundToCompare(x: real, scale: nat, k: int)
    requires scale > 0
    ensures RoundTo(x, scale) >= k as real / scale as real <==> RoundUnits(x, scale) >= k
    ensures RoundTo(x, scale) > k as real / scale as real <==> RoundUnits(x, scale) >= k + 1
  {
    var s := scale as real;
    var n := RoundUnits(x, scale);
    QuotientOrder(n as real, k as real, s);
    QuotientOrder(n as real, (k + 1) as real, s);
    assert (k + 1) as real / s == k as real / s + 1.0 / s;
  }

  lemma QuotientOrder(a: real, b: real, s: real)
    requires s > 0.0
    ensures a / s >= b / s <==> a >= b
  {
    assert a / s - b / s == (a - b) / s;
    if a >= b {
      assert (a - b) / s * s == a - b;
    } else {
      assert (a - b) / s * s == a - b;
    }
  }

  /**
   * Compared with an even number k of units, round(x) >= k holds from
   * k - 1/2 units on (the half rounds up to k) and round(x) <= k up to
   * k + 1/2 units (the half rounds down to k).
   */
  lemma RoundedAtLeast(x: real, scale: nat, k: int)
    requires scale > 0 && k % 2 == 0
    ensures RoundTo(x, scale) >= k as real / scale as real <==> x * scale as real >= k as real - 0.5
  {
    RoundToCompare(x, scale, k);
    RoundUnitsAtLeast(x, scale, k);
  }

  lemma RoundedAtMost(x: real, scale: nat, k: int)
    requires scale > 0 && k % 2 == 0
    ensures RoundTo(x, scale) <= k as real / scale as real <==> x * scale as real <= k as real + 0.5
  {
    RoundToCompare(x, scale, k);
    RoundUnitsAtLeast(x, scale, k + 1);
  }

  /**
   * round(part / whole * 100, 1) >= k / 10 for an even k, in integers:
   * 2000 * part >= (2k - 1) * whole.
   */
  lemma {:induction false} RoundedPercentAtLeast(part: nat, whole: int, k: int)
    requires whole > 0 && k % 2 == 0
    ensures RoundTo(part as real / whole as real * 100.0, 10) >= k as real / 10.0
        <==> 2000 * part >= (2 * k - 1) * whole
  {
    var x := part as real / whole as real * 100.0;
    RoundedAtLeast(x, 10, k);
    assert x * 10 as real == part as real / whole as real * 1000 as real;
    RatioTimesAtLeast(part, whole, 1000, 2 * k - 1);
  }

  /** A share rounded as a percentage stays between 0 and 100. */
  lemma RoundedPercentBounds(part: nat, whole: nat)
    requires 0 < whole && part <= whole
    ensures 0.0 <= RoundTo(part as real / whole as real * 100.0, 10) <= 100.0
  {
    var share := part as real / whole as real;
    QuotientAtMost(part as real, whole as real, 1.0);
    RoundedAtMost(share * 100.0, 10, 1000);
  }

  /**
   * round(r / s, 3) <= k / 1000 for an even k, in integers:
   * 2000 * r <= (2k + 1) * s.
   */
  lemma {:induction false} RoundedRatioAtMost(r: nat, s: int, k: int)
    requires s > 0 && k % 2 == 0
    ensures RoundTo(r as real / s as real, 1000) <= k as real / 1000.0
        <==> 2000 * r <= (2 * k + 1) * s
  {
    RoundedAtMost(r as real / s as real, 1000, k);
    RatioTimesAtMost(r, s, 1000, 2 * k + 1);
  }

  /** p / q * m against n / 2, cross-multiplied. */
  lemma RatioTimesAtLeast(p: int, q: int, m: int, n: int)
    requires q > 0
    ensures p as real / q as real * m as real >= n as real / 2.0 <==> 2 * (m * p) >= n * q
  {
    var w := q as real;
    var x := p as real / w;
    assert x * w == p as real;
    var y := x * m as real;
    assert y * w == (m * p) as real;
    MulCompare(y, n as real / 2.0, w);
    assert (n as real / 2.0) * w == (n * q) as real / 2.0;
  }

  lemma RatioTimesAtMost(p: int, q: int, m: int, n: int)
    requires q > 0
    ensures p as real / q as real * m as real <= n as real / 2.0 <==> 2 * (m * p) <= n * q
  {
    var w := q as real;
    var x := p as real / w;
    assert x * w == p as real;
    var y := x * m as real;
    assert y * w == (m * p) as real;
    MulCompare(n as real / 2.0, y, w);
    assert (n as real / 2.0) * w == (n * q) as real / 2.0;
  }

  /** Multiplying by a positive factor keeps an order. */
  lemma MulCompare(a: real, b: real, w: real)
    requires w > 0.0
    ensures a >= b <==> a * w >= b * w
  {
    if a >= b {
      assert (a - b) * w >= 0.0;
    } else {
      assert (b - a) * w > 0.0;
    }
  }

  /** A value already on the unit grid is kept. */
  lemma RoundExact(x: real, scale: nat, k: int)
    requires scale > 0 && x * scale as real == k as real
    ensures RoundUnits(x, scale) == k
  {
  }

  /** Python's slice s[:n], where a negative n counts from the end. */
  function Prefix<T>(s: seq<T>, n: int): (r: seq<T>)
    ensures |r| <= |s| && r == s[..|r|]
    ensures 0 <= n ==> |r| == if n <= |s| then n else |s|
    ensures n < 0 ==> |r| == if -n <= |s| then |s| + n else 0
  {
    if n >= 0 then (if n <= |s| then s[..n] else s)
    else if -n <= |s| then s[..|s| + n] else []
  }

  /** `sub` occurs in `s` starting at index i. */
  predicate OccursAt(s: string, sub: string, i: int)
  {
    0 <= i <= |s| - |sub| && s[i..i + |sub|] == sub
  }

  /** Python's `sub in s` on strings. */
  predicate Contains(s: string, sub: string)
  {
    exists i :: 0 <= i <= |s| - |sub| && OccursAt(s, sub, i)
  }

  /** str.lower() on one character: ASCII capitals become small letters. */
  function LowerChar(c: char): char
  {
    if 'A' <= c <= 'Z' then (c as int + 32) as char else c
  }

  /** str.lower() restricted to ASCII: only A to Z are folded, other letters are kept. */
  function Lower(s: string): (r: string)
    ensures |r| == |s|
    ensures forall k :: 0 <= k < |s| ==> r[k] == LowerChar(s[k])
  {
    if s == [] then [] else [LowerChar(s[0])] + Lower(s[1..])
  }

  /** Decimal digits of a natural number, as str() prints it. */
  function NatToString(n: nat): (r: string)
    ensures |r| >= 1
    ensures forall k :: 0 <= k < |r| ==> '0' <= r[k] <= '9'
    decreases n
  {
    var d := [(n % 10) as char + '0' as char] ;
    if n < 10 then d else NatToString(n / 10) + d
  }

  /** str() of an int. */
  function IntToString(n: int): (r: string)
    ensures |r| >= 1
  {
    if n < 0 then "-" + NatToString(-n) else NatToString(n)
  }
}
