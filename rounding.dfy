/**
 * Rounding to two decimal places, `roundAfterPoint(x, 2)` of the shared
 * utilities. It is defined the way `Math.round(x * 100) / 100` behaves on
 * exact reals (halves round up); the rest of the model uses only the lemmas
 * of this module, not the definition.
 */
module Rounding {

  /** `x` is a whole number of hundredths. */
  predicate IsCents(x: real) {
    (x * 100.0).Floor as real == x * 100.0
  }

  function Round2(x: real): real {
    (x * 100.0 + 0.5).Floor as real / 100.0
  }

  lemma Round2IsCents(x: real)
    ensures IsCents(Round2(x))
  {
    var k := (x * 100.0 + 0.5).Floor;
    assert Round2(x) * 100.0 == k as real;
  }

  /** Rounding leaves a whole number of hundredths alone. */
  lemma Round2OfCents(x: real)
    requires IsCents(x)
    ensures Round2(x) == x
  {
    var k := (x * 100.0).Floor;
    assert x * 100.0 + 0.5 == k as real + 0.5;
    assert (x * 100.0 + 0.5).Floor == k;
  }

  lemma IntegerIsCents(n: int)
    ensures IsCents(n as real)
  {
    assert (n as real) * 100.0 == (n * 100) as real;
  }

  lemma Round2OfInteger(n: int)
    ensures Round2(n as real) == n as real
  {
    IntegerIsCents(n);
    Round2OfCents(n as real);
  }

  lemma Round2Monotone(x: real, y: real)
    requires x <= y
    ensures Round2(x) <= Round2(y)
  {
    assert (x * 100.0 + 0.5).Floor <= (y * 100.0 + 0.5).Floor;
  }

  /** Rounding moves a value by at most half a hundredth. */
  lemma Round2Close(x: real)
    ensures x - 0.005 < Round2(x) <= x + 0.005
  {
    var k := (x * 100.0 + 0.5).Floor;
    assert k as real <= x * 100.0 + 0.5 < k as real + 1.0;
  }

  /** Rounding maps `[0, c]` into `[0, c]` for a whole number `c`. */
  lemma Round2Within(x: real, c: int)
    requires 0.0 <= x <= c as real
    ensures 0.0 <= Round2(x) <= c as real
  {
    Round2Monotone(0.0, x);
    Round2Monotone(x, c as real);
    Round2OfInteger(0);
    Round2OfInteger(c);
  }

  lemma CentsOf(x: real, k: int)
    requires x * 100.0 == k as real
    ensures IsCents(x)
  {
    assert (x * 100.0).Floor == k;
  }

  lemma CentsSum(x: real, y: real)
    requires IsCents(x) && IsCents(y)
    ensures IsCents(x + y) && IsCents(x - y)
  {
    var a, b := (x * 100.0).Floor, (y * 100.0).Floor;
    CentsOf(x + y, a + b);
    CentsOf(x - y, a - b);
  }

  /** A positive whole number of hundredths is at least one hundredth. */
  lemma PositiveCents(x: real)
    requires IsCents(x) && x > 0.0
    ensures x >= 0.01
  {
    var k := (x * 100.0).Floor;
    assert k as real == x * 100.0;
    assert k >= 1;
  }

  /** Anything within half a hundredth below a whole number rounds up to it. */
  lemma Round2ReachesInteger(x: real, c: int)
    requires c as real - 0.005 <= x < c as real
    ensures Round2(x) == c as real
  {
    assert (c * 100) as real <= x * 100.0 + 0.5 < (c * 100) as real + 1.0;
    assert (x * 100.0 + 0.5).Floor == c * 100;
  }
}
