/** Exact arithmetic helpers: Python's int() truncation and integer powers of reals. */
module Numeric {

  /** Python's `int(x)` on a number: truncation toward zero. */
  function Trunc(x: real): (r: int)
    ensures 0.0 <= x ==> 0 <= r && r as real <= x < r as real + 1.0
    ensures x < 0.0 ==> r <= 0 && r as real - 1.0 < x <= r as real
  {
    if 0.0 <= x then x.Floor else -((-x).Floor)
  }

  /** `x ** k` for a natural exponent. */
  function Pow(x: real, k: nat): (r: real)
    ensures x != 0.0 ==> r != 0.0
    ensures 0.0 < x ==> 0.0 < r
  {
    if k == 0 then 1.0 else x * Pow(x, k - 1)
  }

  /** Python's `x ** k` for a float base and an int exponent; a zero base with a
      negative exponent raises ZeroDivisionError there and is excluded here. */
  function IntPow(x: real, k: int): (r: real)
    requires 0 <= k || x != 0.0
    ensures x != 0.0 ==> r != 0.0
    ensures 0 <= k ==> r == Pow(x, k)
    ensures k < 0 ==> r * Pow(x, -k) == 1.0
  {
    if 0 <= k then Pow(x, k) else 1.0 / Pow(x, -k)
  }

  function Max(a: real, b: real): real
  {
    if a < b then b else a
  }

  function MinInt(a: int, b: int): int
  {
    if a < b then a else b
  }
}
