/**
 * C# numeric conversions that differ from Dafny's unbounded, Euclidean arithmetic:
 * the `(int)` cast of a double truncates toward zero, and `%` on `int` keeps the sign of
 * the dividend.  Doubles are modelled as `real`; 32-bit overflow of the cast is not modelled.
 */
module Numerics {

  /** C#'s `(int)x` for a double `x` in range: truncation toward zero. */
  function TruncToInt(x: real): (n: int)
    ensures 0.0 <= x ==> 0 <= n && n as real <= x < n as real + 1.0
    ensures x < 0.0 ==> n <= 0 && n as real - 1.0 < x <= n as real
  {
    if x >= 0.0 then x.Floor else -((-x).Floor)
  }

  /** C#'s `a / n` on `int` for a positive divisor: the quotient is truncated toward zero. */
  function TruncDiv(a: int, n: int): int
    requires n > 0
  {
    if a >= 0 then a / n else -((-a) / n)
  }

  /** C#'s `a % n` on `int` for a positive divisor: the remainder takes the sign of `a`. */
  function TruncRem(a: int, n: int): (r: int)
    requires n > 0
    ensures a == n * TruncDiv(a, n) + r
    ensures 0 <= a ==> 0 <= r < n
    ensures a < 0 ==> -n < r <= 0
  {
    if a >= 0 then a % n else -((-a) % n)
  }

  /** `Math.Max` on doubles (NaN is not modelled). */
  function Max(a: real, b: real): (m: real)
    ensures a <= m && b <= m
    ensures m == a || m == b
  {
    if a >= b then a else b
  }

  /** `Math.Min` on doubles (NaN is not modelled). */
  function Min(a: real, b: real): (m: real)
    ensures m <= a && m <= b
    ensures m == a || m == b
  {
    if a <= b then a else b
  }

  /** `Math.Abs` on doubles. */
  function Abs(x: real): (r: real)
    ensures 0.0 <= r
    ensures r == x || r == -x
  {
    if x < 0.0 then -x else x
  }
}
