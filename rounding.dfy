/** Python's `round(x, 2)`, taken over exact reals: the value is scaled by 100,
    rounded to the nearest integer with ties going to the even neighbour
    (banker's rounding, as Python 3 does), and scaled back.  The binary
    floating-point representation that Python rounds in practice is not
    modelled. */
module Rounding {

  /** The integer nearest to `y`, ties to even. */
  function RoundHalfEven(y: real): (n: int)
    ensures n as real - 0.5 <= y <= n as real + 0.5
  {
    var f := y.Floor;
    var frac := y - f as real;
    if frac < 0.5 then f
    else if frac > 0.5 then f + 1
    else if f % 2 == 0 then f
    else f + 1
  }

  function Round2(x: real): (r: real)
    ensures x - 0.005 <= r <= x + 0.005
  {
    RoundHalfEven(x * 100.0) as real / 100.0
  }

  /** Ties go to the even neighbour, so rounding commutes with negation. */
  lemma RoundHalfEvenOdd(y: real)
    ensures RoundHalfEven(-y) == -RoundHalfEven(y)
  {
    var f := y.Floor;
    var frac := y - f as real;
    if frac == 0.0 {
      assert (-y).Floor == -f;
    } else {
      assert (-y).Floor == -f - 1;
      assert -y - (-f - 1) as real == 1.0 - frac;
      if frac == 0.5 {
        assert (-f - 1) % 2 == 0 <==> f % 2 != 0;
      }
    }
  }

  lemma Round2Odd(x: real)
    ensures Round2(-x) == -Round2(x)
  {
    assert -x * 100.0 == -(x * 100.0);
    RoundHalfEvenOdd(x * 100.0);
  }

  lemma RoundHalfEvenMonotone(y: real, z: real)
    requires y <= z
    ensures RoundHalfEven(y) <= RoundHalfEven(z)
  {
    var fy, fz := y.Floor, z.Floor;
    if fy < fz {
      assert RoundHalfEven(y) <= fy + 1 <= fz <= RoundHalfEven(z);
    }
  }

  /** Rounding never reverses the order of two values. */
  lemma Round2Monotone(x: real, y: real)
    requires x <= y
    ensures Round2(x) <= Round2(y)
  {
    RoundHalfEvenMonotone(x * 100.0, y * 100.0);
  }

  /** A value that already has at most two decimals is left as it is. */
  lemma Round2Exact(n: int)
    ensures Round2(n as real / 100.0) == n as real / 100.0
  {
    var y := (n as real / 100.0) * 100.0;
    assert y == n as real;
    assert y.Floor == n;
  }
}
