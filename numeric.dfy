/**
 * Python's numeric built-ins on exact reals: `int(x)` truncates toward zero,
 * `round(x)` rounds half to even, `round(x, 6)` rounds to six decimals, `max`/`min`.
 * Binary floating point (representation error, inf, nan) is not modelled.
 */
module Numeric {
  function Max(a: real, b: real): (r: real)
    ensures r >= a && r >= b && (r == a || r == b)
  {
    if a >= b then a else b
  }

  function Min(a: real, b: real): (r: real)
    ensures r <= a && r <= b && (r == a || r == b)
  {
    if a <= b then a else b
  }

  function MaxInt(a: int, b: int): (r: int)
    ensures r >= a && r >= b && (r == a || r == b)
  {
    if a >= b then a else b
  }

  function MinInt(a: int, b: int): (r: int)
    ensures r <= a && r <= b && (r == a || r == b)
  {
    if a <= b then a else b
  }

  function Abs(x: real): (r: real)
    ensures r >= 0.0 && (r == x || r == -x)
  {
    if x >= 0.0 then x else -x
  }

  /** Python `int(x)` on a float: truncation toward zero. */
  function Trunc(x: real): (r: int)
    ensures x >= 0.0 ==> r as real <= x < r as real + 1.0
    ensures x < 0.0 ==> r as real - 1.0 < x <= r as real
  {
    if x >= 0.0 then x.Floor else -((-x).Floor)
  }

  /** Python `round(x)`: nearest integer, ties to the even neighbour. */
  function RoundHalfEven(x: real): (r: int)
    ensures -0.5 <= r as real - x <= 0.5
    ensures r as real - x == 0.5 || x - r as real == 0.5 ==> r % 2 == 0
  {
    var f := x.Floor;
    var d := x - f as real;
    if d < 0.5 then f
    else if d > 0.5 then f + 1
    else if f % 2 == 0 then f else f + 1
  }

  lemma MulNonNegative(a: real, b: real)
    requires a >= 0.0 && b >= 0.0
    ensures a * b >= 0.0
  {
  }

  const Micro: real := 1000000.0

  /** Python `round(x, 6)`. */
  function Round6(x: real): (r: real)
    ensures -0.5 / Micro <= r - x <= 0.5 / Micro
  {
    RoundHalfEven(x * Micro) as real / Micro
  }
}
