/** Rounding of `real` values the way the two runtimes round doubles. */
module Numeric {

  /** The largest integer not above `x` (`Math.Floor` / `Math.floor`). */
  function Floor(x: real): (k: int)
    ensures k as real <= x < k as real + 1.0
  {
    x.Floor
  }

  /** The least integer not below `x` (`Math.Ceiling` / `Math.ceil`). */
  function Ceil(x: real): (k: int)
    ensures k as real - 1.0 < x <= k as real
  {
    -((-x).Floor)
  }

  /** `Math.Max(0, x)`: the value clamped at zero from below. */
  function ClampZero(x: real): (r: real)
    ensures r >= 0.0 && r >= x
    ensures r == 0.0 || r == x
  {
    if x < 0.0 then 0.0 else x
  }

  /** JavaScript `Math.round`: the nearest integer, ties towards positive infinity. */
  function RoundHalfUp(x: real): (k: int)
    ensures x - 0.5 < k as real <= x + 0.5
  {
    Floor(x + 0.5)
  }

  /** The nearest integer, ties to the even neighbour (the default `MidpointRounding.ToEven` of .NET). */
  function RoundHalfEven(x: real): (k: int)
    ensures x - 0.5 <= k as real <= x + 0.5
    ensures k as real - x == 0.5 || x - k as real == 0.5 ==> k % 2 == 0
    ensures x - Floor(x) as real == 0.5 ==> k == (if Floor(x) % 2 == 0 then Floor(x) else Floor(x) + 1)
  {
    var n := Floor(x);
    var f := x - n as real;
    if f < 0.5 then n
    else if f > 0.5 then n + 1
    else if n % 2 == 0 then n
    else n + 1
  }

  /** The nearest integer, ties away from zero (how `Number.prototype.toFixed` resolves a tie). */
  function RoundHalfAway(x: real): (k: int)
    ensures x - 0.5 <= k as real <= x + 0.5
    ensures k as real - x == 0.5 ==> x >= 0.0
    ensures x - k as real == 0.5 ==> x < 0.0
    ensures x >= 0.0 && x - Floor(x) as real == 0.5 ==> k == Floor(x) + 1
  {
    if x >= 0.0 then Floor(x + 0.5) else -Floor(-x + 0.5)
  }

  /** `x` is a whole number of thousandths, i.e. it prints exactly with three decimals. */
  predicate IsThousandths(x: real) {
    (x * 1000.0).Floor as real == x * 1000.0
  }

  /** `Math.Round(x, 3)` of .NET: round to three decimals, ties to even. */
  function Round3HalfEven(x: real): (r: real)
    ensures IsThousandths(r)
    ensures x - 0.0005 <= r <= x + 0.0005
    ensures var n := Floor(x * 1000.0);
            x * 1000.0 - n as real == 0.5 ==> r == (if n % 2 == 0 then n else n + 1) as real / 1000.0
  {
    RoundHalfEven(x * 1000.0) as real / 1000.0
  }

  /** `parseFloat(x.toFixed(3))` of JavaScript: round to three decimals, ties away from zero. */
  function Round3HalfAway(x: real): (r: real)
    ensures IsThousandths(r)
    ensures x - 0.0005 <= r <= x + 0.0005
    ensures var n := Floor(x * 1000.0);
            x >= 0.0 && x * 1000.0 - n as real == 0.5 ==> r == (n + 1) as real / 1000.0
  {
    RoundHalfAway(x * 1000.0) as real / 1000.0
  }

  /** `Math.floor(m / 60)` on a whole number is integer division by 60. */
  lemma FloorOfSixtieth(m: int)
    ensures Floor(m as real / 60.0) == m / 60
  {
    var q, r := m / 60, m % 60;
    assert m as real / 60.0 == q as real + r as real / 60.0;
  }

  /** Rounding half to even never reverses the order of two values. */
  lemma RoundHalfEvenMonotone(x: real, y: real)
    requires x <= y
    ensures RoundHalfEven(x) <= RoundHalfEven(y)
  {
  }

  /** Hence three-decimal rounding half to even never reverses the order of two values. */
  lemma Round3HalfEvenMonotone(x: real, y: real)
    requires x <= y
    ensures Round3HalfEven(x) <= Round3HalfEven(y)
  {
    RoundHalfEvenMonotone(x * 1000.0, y * 1000.0);
  }
}
