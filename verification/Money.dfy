/** Money is counted in whole cents; prices, rates and P&L before rounding are reals. */
module Money {

  /** The integer nearest to `x`, halves going up (the rounding of `Math.round`). */
  function RoundHalfUp(x: real): (r: int)
    ensures x - 0.5 < r as real <= x + 0.5
  {
    (x + 0.5).Floor
  }

  /** An amount of `x` cents to a whole number of cents, halves away from zero. */
  function RoundCents(x: real): (r: int)
    ensures x - 0.5 <= r as real <= x + 0.5
    ensures x >= 0.0 ==> r >= 0
    ensures x <= 0.0 ==> r <= 0
  {
    if x < 0.0 then -RoundHalfUp(-x) else RoundHalfUp(x)
  }

  function Min(a: int, b: int): int { if a <= b then a else b }

  function Max(a: int, b: int): int { if a >= b then a else b }

  /** Whole cents survive rounding, so rounding twice is rounding once. */
  lemma RoundCentsExact(c: int)
    ensures RoundCents(c as real) == c
  {
    assert -c as real == (-c) as real;
  }

  lemma RoundCentsMonotone(x: real, y: real)
    requires x <= y
    ensures RoundCents(x) <= RoundCents(y)
  {
    if x >= 0.0 {
      assert x + 0.5 <= y + 0.5;
    } else if y < 0.0 {
      assert -y + 0.5 <= -x + 0.5;
    }
  }

  /** Gains and losses are rounded alike. */
  lemma RoundCentsOdd(x: real)
    ensures RoundCents(-x) == -RoundCents(x)
  {
    if x == 0.0 {
      assert RoundHalfUp(0.0) == 0;
    } else if x < 0.0 {
      assert -(-x) == x;
    }
  }

  /** Two roundings drift apart by at most one cent. */
  lemma RoundCentsShift(x: real, y: real, k: int)
    requires -0.5 <= x - y - k as real <= 0.5
    ensures -1 <= RoundCents(x) - RoundCents(y) - k <= 1
  {
    var d := RoundCents(x) - RoundCents(y) - k;
    assert -1.5 <= d as real <= 1.5;
  }

  // ----- sums -----

  function Sum(s: seq<int>): int {
    if s == [] then 0 else Sum(s[..|s| - 1]) + s[|s| - 1]
  }
}
