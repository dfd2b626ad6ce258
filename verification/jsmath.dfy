/**
 * The small part of JavaScript's `Math` and number semantics that the game
 * relies on, stated over exact reals.
 *
 * `sin`, `cos` and `PI` are not computable here; they are carried as a `Trig`
 * record supplied by the caller, about which nothing is known except that
 * `PI` is positive and `sin`/`cos` stay within [-1, 1].
 */
module JsMath {

  /** `Math.abs` */
  function Abs(x: real): (r: real)
    ensures 0.0 <= r
    ensures r == x || r == -x
  {
    if x < 0.0 then -x else x
  }

  /** `Math.min` of two numbers */
  function Min(x: real, y: real): (r: real)
    ensures r <= x && r <= y
    ensures r == x || r == y
  {
    if x <= y then x else y
  }

  /** `a` lies on the closed segment between `u` and `v`, whichever is larger */
  predicate Between(a: real, u: real, v: real) {
    (u <= a <= v) || (v <= a <= u)
  }

  /** Truncation toward zero, as JavaScript's `%` uses for its quotient */
  function Trunc(q: real): (n: int)
    ensures 0.0 <= q ==> 0.0 <= n as real <= q < n as real + 1.0
    ensures q <= 0.0 ==> n as real - 1.0 < q <= n as real <= 0.0
  {
    if 0.0 <= q then q.Floor else -((-q).Floor)
  }

  /**
   * JavaScript's remainder `x % m` for a positive modulus: the result has the
   * sign of the dividend (unlike Dafny's Euclidean `%`), lies strictly between
   * -m and m, and leaves a dividend already in that range alone.
   */
  function JsRem(x: real, m: real): (r: real)
    requires 0.0 < m
    ensures -m < r < m
    ensures 0.0 <= x ==> 0.0 <= r
    ensures x <= 0.0 ==> r <= 0.0
    ensures -m < x < m ==> r == x
    ensures ((x - r) / m).Floor as real == (x - r) / m
  {
    var q := x / m;
    var n := Trunc(q);
    var k := n as real;
    RemainderBounds(x, m, q, k);
    SmallDividend(x, m, q, k);
    var r := x - m * k;
    RemainderLeavesWholeQuotient(x, m, r, n);
    r
  }

  /** What is left after taking `k` whole moduli off `x` differs from `x` by a whole multiple of `m` */
  lemma RemainderLeavesWholeQuotient(x: real, m: real, r: real, k: int)
    requires 0.0 < m && r == x - m * k as real
    ensures ((x - r) / m).Floor as real == (x - r) / m
  {
    assert x - r == m * k as real;
    assert (x - r) / m == k as real;
    assert (k as real).Floor == k;
  }

  /** The remainder bounds, for a quotient `q` truncated to the whole number `k` */
  lemma RemainderBounds(x: real, m: real, q: real, k: real)
    requires 0.0 < m && q == x / m
    requires 0.0 <= q ==> 0.0 <= k <= q < k + 1.0
    requires q <= 0.0 ==> k - 1.0 < q <= k <= 0.0
    ensures -m < x - m * k < m
    ensures 0.0 <= x ==> 0.0 <= x - m * k
    ensures x <= 0.0 ==> x - m * k <= 0.0
  {
    if 0.0 <= q {
      RemainderOfNonNegative(x, m, q, k);
    } else {
      RemainderOfNonNegative(-x, m, -q, -k);
      assert x - m * k == -(-x - m * -k);
    }
  }

  lemma RemainderOfNonNegative(x: real, m: real, q: real, k: real)
    requires 0.0 < m && q == x / m
    requires 0.0 <= k <= q < k + 1.0
    ensures 0.0 <= x - m * k < m
  {
    var d := q - k;
    assert x - m * k == m * d by {
      assert x == m * q;
    }
    FractionOfModulus(m, d);
  }

  /** A dividend already strictly inside (-m, m) has a quotient that truncates to zero */
  lemma SmallDividend(x: real, m: real, q: real, k: real)
    requires 0.0 < m && q == x / m
    requires 0.0 <= q ==> 0.0 <= k <= q < k + 1.0
    requires q <= 0.0 ==> k - 1.0 < q <= k <= 0.0
    requires k == k.Floor as real
    ensures -m < x < m ==> k == 0.0
  {
    if -m < x < m {
      QuotientBelow(x, m, q);
      QuotientAbove(x, m, q);
    }
  }

  lemma QuotientBelow(x: real, m: real, q: real)
    requires 0.0 < m && q == x / m && x < m
    ensures q < 1.0
  {
    assert x == m * q;
    if 1.0 <= q {
      ScaleWeak(m, 1.0, q);
    }
  }

  lemma QuotientAbove(x: real, m: real, q: real)
    requires 0.0 < m && q == x / m && -m < x
    ensures -1.0 < q
  {
    assert x == m * q;
    if q <= -1.0 {
      ScaleWeak(m, q, -1.0);
    }
  }

  /** A fraction in [0, 1) of a positive modulus stays in [0, m) */
  lemma FractionOfModulus(m: real, d: real)
    requires 0.0 < m && 0.0 <= d < 1.0
    ensures 0.0 <= m * d < m
  {
    assert m - m * d == m * (1.0 - d);
  }

  lemma ScaleWeak(m: real, a: real, b: real)
    requires 0.0 < m && a <= b
    ensures m * a <= m * b
  {
    assert m * b - m * a == m * (b - a);
  }

  /**
   * The trigonometry the game calls through `Math`: `cos`, `sin` and `PI`.
   * Nothing is known of these beyond what `Valid` states.
   */
  datatype Trig = Trig(cos: real -> real, sin: real -> real, pi: real)
  {
    ghost predicate Valid() {
      0.0 < pi &&
      (forall x: real :: -1.0 <= Cos(x) <= 1.0) &&
      (forall x: real :: -1.0 <= Sin(x) <= 1.0)
    }

    /** `Math.cos(x)` */
    function Cos(x: real): real { cos(x) }

    /** `Math.sin(x)` */
    function Sin(x: real): real { sin(x) }

    /** `HALF_PI = PI / 2` */
    function HalfPi(): real { pi / 2.0 }

    /** `TWO_PI = PI * 2` */
    function TwoPi(): real { pi * 2.0 }
  }
}
