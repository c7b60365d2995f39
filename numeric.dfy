/** Rounding to two decimals, Python's `round(x, 2)` and pandas' `.round(2)` taken on exact reals. */
module Numeric {

  function Abs(x: real): real { if x < 0.0 then -x else x }

  /**
   * Round half to even at the second decimal: the nearest multiple of 0.01,
   * and on an exact tie the one whose hundredths count is even.
   */
  function Round2(x: real): (r: real)
    ensures (r * 100.0).Floor as real == r * 100.0
    ensures Abs(r - x) <= 0.005
  {
    var y := x * 100.0;
    var f := y.Floor;
    var d := y - f as real;
    var n := if d < 0.5 then f else if d > 0.5 then f + 1 else if f % 2 == 0 then f else f + 1;
    n as real / 100.0
  }

  /** Rounding keeps a value inside [0, 100], the range of a factor score. */
  lemma Round2InPercentRange(x: real)
    requires 0.0 <= x <= 100.0
    ensures 0.0 <= Round2(x) <= 100.0
  {
    var y := x * 100.0;
    var f := y.Floor;
    assert 0 <= f <= 10000;
    assert f == 10000 ==> y - f as real == 0.0;
  }

  lemma Round2OfZero()
    ensures Round2(0.0) == 0.0
  {
    assert (0.0 * 100.0).Floor == 0;
  }
}
