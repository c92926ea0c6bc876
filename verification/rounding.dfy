/** Rounding of sensor values to one decimal place, as done when a reading
    is built from the live sensor state.  The model works on exact reals:
    a value is rounded to the nearest tenth, and a value exactly halfway
    between two tenths goes to the even one (the rule Python's `round`
    applies to a tie). */
module Rounding {

  /** The number of tenths `RoundTenth(x)` rounds `x` to. */
  function NearestTenths(x: real): int
  {
    var scaled := x * 10.0;
    var k := scaled.Floor;
    var frac := scaled - k as real;
    if frac < 0.5 then k
    else if frac > 0.5 then k + 1
    else if k % 2 == 0 then k
    else k + 1
  }

  /** `round(x, 1)`: the tenth nearest to `x`. */
  function RoundTenth(x: real): (r: real)
    ensures r * 10.0 == NearestTenths(x) as real
    ensures -0.05 <= r - x <= 0.05
  {
    NearestTenths(x) as real / 10.0
  }

  /** A value exactly halfway between the tenths `k / 10` and `(k + 1) / 10`
      goes to the one with an even number of tenths. */
  lemma RoundTenthTiesToEven(k: int)
    ensures RoundTenth((2 * k + 1) as real / 20.0) == (if k % 2 == 0 then k else k + 1) as real / 10.0
  {
    var x := (2 * k + 1) as real / 20.0;
    assert x * 10.0 == k as real + 0.5;
    assert (k as real + 0.5).Floor == k;
  }

  /** A value that already is a whole number of tenths is left alone. */
  lemma RoundTenthFixesTenths(n: int)
    ensures RoundTenth(n as real / 10.0) == n as real / 10.0
  {
    var x := n as real / 10.0;
    assert x * 10.0 == n as real;
    assert (n as real).Floor == n;
  }

  /** Rounding never reverses the order of two values. */
  lemma RoundTenthMonotone(x: real, y: real)
    requires x <= y
    ensures RoundTenth(x) <= RoundTenth(y)
  {
    var kx := (x * 10.0).Floor;
    var ky := (y * 10.0).Floor;
    assert kx <= ky;
    if kx < ky {
      assert NearestTenths(x) <= kx + 1 <= ky <= NearestTenths(y);
    } else {
      assert x * 10.0 - kx as real <= y * 10.0 - ky as real;
    }
  }

  /** Rounding never crosses a whole number of tenths `n / 10`: a value at or
      below it rounds to at most it, a value at or above it rounds to at
      least it. */
  lemma RoundTenthRespectsTenth(x: real, n: int)
    ensures x <= n as real / 10.0 ==> RoundTenth(x) <= n as real / 10.0
    ensures x >= n as real / 10.0 ==> RoundTenth(x) >= n as real / 10.0
  {
    RoundTenthFixesTenths(n);
    if x <= n as real / 10.0 {
      RoundTenthMonotone(x, n as real / 10.0);
    }
    if x >= n as real / 10.0 {
      RoundTenthMonotone(n as real / 10.0, x);
    }
  }

  /** Rounding keeps a value inside any range whose ends are whole numbers
      of tenths. */
  lemma RoundTenthKeepsRange(x: real, lo: int, hi: int)
    requires lo as real / 10.0 <= x <= hi as real / 10.0
    ensures lo as real / 10.0 <= RoundTenth(x) <= hi as real / 10.0
  {
    RoundTenthRespectsTenth(x, lo);
    RoundTenthRespectsTenth(x, hi);
  }
}
