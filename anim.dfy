/**
 * Numeric helpers shared by the animation components: linear interpolation,
 * min/max, the frame-delta computation of the requestAnimationFrame loops,
 * and the two Math functions the components call, which are kept abstract.
 */
module Anim {

  datatype Option<T> = None | Some(value: T)

  /** Math.sin, known only to stay within [-1, 1]. */
  type Sine = f: real -> real | forall x :: -1.0 <= f(x) <= 1.0 witness (x: real) => 0.0

  /** Math.sqrt, known only to return a non-negative value on non-negative input. */
  type SquareRoot = f: real -> real | forall x :: 0.0 <= x ==> 0.0 <= f(x) witness (x: real) => 0.0

  function Min(a: real, b: real): real { if a <= b then a else b }
  function Max(a: real, b: real): real { if a >= b then a else b }

  /** v lies on the closed segment between a and b (in either order). */
  predicate Between(v: real, a: real, b: real) {
    Min(a, b) <= v <= Max(a, b)
  }

  /** A point between two points of a segment lies on that segment. */
  lemma BetweenConvex(v: real, a: real, b: real, lo: real, hi: real)
    requires Between(v, a, b) && Between(a, lo, hi) && Between(b, lo, hi)
    ensures Between(v, lo, hi)
  {
  }

  /** `a + (b - a) * t`, the lerp of DataSweep, InteractiveGrid and NodeGraph. */
  function Lerp(a: real, b: real, t: real): (r: real)
    ensures t == 0.0 ==> r == a
    ensures t == 1.0 ==> r == b
    ensures 0.0 <= t <= 1.0 ==> Between(r, a, b)
  {
    if 0.0 <= t <= 1.0 then
      LerpBetween(a, b, t);
      a + (b - a) * t
    else
      a + (b - a) * t
  }

  lemma LerpBetween(a: real, b: real, t: real)
    requires 0.0 <= t <= 1.0
    ensures Between(a + (b - a) * t, a, b)
  {
    var p := (b - a) * t;
    if a <= b {
      ScaleBound(b - a, t, p);
    } else {
      ScaleBound(a - b, t, -p);
    }
  }

  /** A length d scaled by a fraction t stays within [0, d]; p names the product. */
  lemma ScaleBound(d: real, t: real, p: real)
    requires 0.0 <= d && 0.0 <= t <= 1.0
    requires p == d * t
    ensures 0.0 <= p <= d
  {
    assert d - p == d * (1.0 - t);
  }

  /**
   * The frame clock of the DataSweep and NodeGraph loops: on the first frame
   * (last < 0) the previous timestamp is taken to be ts itself; the elapsed
   * milliseconds are turned into seconds and capped at 0.05.
   */
  function FrameDelta(last: real, ts: real): (delta: real)
    ensures delta <= 0.05
    ensures last < 0.0 ==> delta == 0.0
    ensures (last < 0.0 || last <= ts) ==> 0.0 <= delta
    ensures 0.0 <= last <= ts && ts - last <= 50.0 ==> delta * 1000.0 == ts - last
  {
    var prev := if last < 0.0 then ts else last;
    Min((ts - prev) / 1000.0, 0.05)
  }

  lemma NonNegProduct(a: real, b: real, p: real)
    requires 0.0 <= a && 0.0 <= b && p == a * b
    ensures 0.0 <= p
  {
  }

  lemma PosProduct(a: real, b: real, p: real)
    requires 0.0 < a && 0.0 < b && p == a * b
    ensures 0.0 < p
  {
  }

  /**
   * JavaScript's `x % m` on numbers for a positive modulus: the remainder of
   * the quotient truncated towards zero, which takes the sign of x.
   */
  function JsRem(x: real, m: real): (r: real)
    requires 0.0 < m
    ensures 0.0 <= x ==> 0.0 <= r < m
    ensures x < 0.0 ==> -m < r <= 0.0
    ensures 0.0 <= x < m ==> r == x
    ensures m <= x < 2.0 * m ==> r == x - m
  {
    if x >= 0.0 then
      var k := (x / m).Floor as real;
      FloorRem(x, m, k);
      x - m * k
    else
      var k := (-x / m).Floor as real;
      FloorRem(-x, m, k);
      -(-x - m * k)
  }

  /** Taking away m times the floor of x / m leaves a value in [0, m). */
  lemma FloorRem(x: real, m: real, k: real)
    requires 0.0 <= x && 0.0 < m && k == (x / m).Floor as real
    ensures 0.0 <= x - m * k < m
    ensures x < m ==> k == 0.0
    ensures m <= x < 2.0 * m ==> k == 1.0
  {
    var q := x / m;
    assert x == m * q;
    assert x - m * k == m * (q - k);
    NonNegProduct(m, q - k, m * (q - k));
    assert m - (x - m * k) == m * (1.0 - (q - k));
    PosProduct(m, 1.0 - (q - k), m * (1.0 - (q - k)));
    if x < m {
      FactorSign(m, 1.0 - q, m - x);
    }
    if m <= x < 2.0 * m {
      FactorSign(m, q - 1.0, x - m);
      FactorSign(m, 2.0 - q, 2.0 * m - x);
    }
  }

  /** A product with a positive factor has the sign of the other factor. */
  lemma FactorSign(m: real, d: real, p: real)
    requires 0.0 < m && p == m * d
    ensures 0.0 <= p ==> 0.0 <= d
    ensures 0.0 < p ==> 0.0 < d
  {
    if d < 0.0 {
      PosProduct(m, -d, -p);
    } else if d == 0.0 {
      assert p == 0.0;
    }
  }

  /** The remainder of a non-negative value repeats with period m. */
  lemma {:induction false} JsRemPeriodic(x: real, m: real)
    requires 0.0 <= x && 0.0 < m
    ensures JsRem(x + m, m) == JsRem(x, m)
  {
    var q := x / m;
    var q1 := (x + m) / m;
    assert q1 * m == x + m && q * m == x;
    FactorSign(m, q1 - q - 1.0, m * (q1 - q - 1.0));
    FactorSign(m, q + 1.0 - q1, m * (q + 1.0 - q1));
    assert q1.Floor == q.Floor + 1;
  }
}
