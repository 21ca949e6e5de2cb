/** Python's `round(x, 1)` over exact reals.

    Python rounds to the nearest representable tenth and breaks exact ties
    towards the even neighbour. Here the inputs are exact reals, so a tie is a
    true tie and the rule is applied as stated. */
module Rounding {

  /** The integer nearest to `y`; on an exact tie, the even one. */
  function RoundHalfEven(y: real): (n: int)
    ensures y - 0.5 <= n as real <= y + 0.5
    ensures (n as real - y == 0.5 || y - n as real == 0.5) ==> n % 2 == 0
  {
    var f := y.Floor;
    var frac := y - f as real;
    if frac < 0.5 then f
    else if frac > 0.5 then f + 1
    else if f % 2 == 0 then f
    else f + 1
  }

  /** `round(x, 1)`: the nearest multiple of one tenth, ties to an even tenth. */
  function Round1(x: real): (r: real)
    ensures x - 0.05 <= r <= x + 0.05
    ensures (r * 10.0).Floor as real == r * 10.0
  {
    RoundHalfEven(x * 10.0) as real / 10.0
  }

  /** Rounding to the nearest integer never reverses an order. */
  lemma RoundHalfEvenMonotone(x: real, y: real)
    requires x <= y
    ensures RoundHalfEven(x) <= RoundHalfEven(y)
  {
    var fx, fy := x.Floor, y.Floor;
    assert fx <= fy;
    if fx < fy {
      // RoundHalfEven(x) <= fx + 1 <= fy <= RoundHalfEven(y)
      assert RoundHalfEven(x) <= fx + 1;
      assert fy <= RoundHalfEven(y);
    } else {
      assert x - fx as real <= y - fy as real;
    }
  }

  /** `round(x, 1)` never reverses an order, so bounds between unrounded
      statistics survive rounding. */
  lemma Round1Monotone(x: real, y: real)
    requires x <= y
    ensures Round1(x) <= Round1(y)
  {
    RoundHalfEvenMonotone(x * 10.0, y * 10.0);
  }

  /** A value that is already a whole number of tenths is left as it is. */
  lemma Round1KeepsTenths(n: int)
    ensures Round1(n as real / 10.0) == n as real / 10.0
  {
    assert (n as real / 10.0) * 10.0 == n as real;
    assert (n as real).Floor == n;
  }
}
