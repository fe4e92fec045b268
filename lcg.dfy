/**
 * The seeded generator of DataSweep: a 32-bit linear congruential generator
 * whose state is a JavaScript number kept in signed 32-bit form by `& 0xffffffff`
 * and read out unsigned by `>>> 0`.
 */
module Lcg {

  const MULTIPLIER: int := 1664525
  const INCREMENT: int := 1013904223
  const MODULUS: int := 0x1_0000_0000
  /** The divisor 0xffffffff that maps the unsigned state to [0, 1]. */
  const MAX_OUT: int := 0xffff_ffff

  predicate IsInt32(x: int) {
    -0x8000_0000 <= x < 0x8000_0000
  }

  /** ECMAScript ToInt32 of an integral value, which is what `x & 0xffffffff` yields. */
  function ToInt32(x: int): (r: int)
    ensures IsInt32(r)
    ensures r % MODULUS == x % MODULUS
  {
    var m := x % MODULUS;
    if m >= 0x8000_0000 then m - MODULUS else m
  }

  /** One update `s * 1664525 + 1013904223` followed by `& 0xffffffff`. */
  function JsStep(s: int): int {
    ToInt32(s * MULTIPLIER + INCREMENT)
  }

  /** For a signed 32-bit state the product and sum stay below 2^53, so the double arithmetic is exact. */
  lemma JsStepExact(s: int)
    requires IsInt32(s)
    ensures -0x20_0000_0000_0000 < s * MULTIPLIER + INCREMENT < 0x20_0000_0000_0000
  {
  }

  /** The unsigned state after n updates: s <- (1664525 * s + 1013904223) mod 2^32. */
  function State(seed: int, n: nat): (u: nat)
    ensures u < MODULUS
  {
    if n == 0 then seed % MODULUS else (MULTIPLIER * State(seed, n - 1) + INCREMENT) % MODULUS
  }

  /** The n-th output (counting from 0): the unsigned state after n + 1 updates, divided by 0xffffffff. */
  function Draw(seed: int, n: nat): (r: real)
    ensures 0.0 <= r <= 1.0
  {
    State(seed, n + 1) as real / MAX_OUT as real
  }

  lemma ModShift(a: int, k: int)
    ensures (a + k * MODULUS) % MODULUS == a % MODULUS
  {
    var q := a / MODULUS;
    assert a == q * MODULUS + a % MODULUS;
    assert a + k * MODULUS == (q + k) * MODULUS + a % MODULUS;
  }

  /** The signed update, read unsigned, is the unsigned LCG step. */
  lemma JsStepAgrees(s: int)
    ensures JsStep(s) % MODULUS == (MULTIPLIER * (s % MODULUS) + INCREMENT) % MODULUS
  {
    var q := s / MODULUS;
    var u := s % MODULUS;
    assert s == q * MODULUS + u;
    assert s * MULTIPLIER + INCREMENT == (MULTIPLIER * u + INCREMENT) + (MULTIPLIER * q) * MODULUS;
    ModShift(MULTIPLIER * u + INCREMENT, MULTIPLIER * q);
  }

  /**
   * The closure returned by seededRand(seed): `s` is the captured variable.
   * The ghost fields record the seed and how many values have been drawn.
   */
  class SeededRand {
    var s: int
    ghost const origin: int
    ghost var count: nat

    ghost predicate Valid()
      reads this
    {
      IsInt32(s) && s % MODULUS == State(origin, count)
    }

    constructor (seed: int)
      requires IsInt32(seed)
      ensures Valid() && origin == seed && count == 0
    {
      s := seed;
      origin := seed;
      count := 0;
    }

    /** One call of the returned closure: the value depends only on the seed and the number of earlier calls. */
    method Next() returns (r: real)
      requires Valid()
      modifies this
      ensures Valid() && count == old(count) + 1
      ensures r == Draw(origin, old(count))
    {
      JsStepAgrees(s);
      s := JsStep(s);
      count := count + 1;
      r := (s % MODULUS) as real / MAX_OUT as real;
    }
  }
}
