/** The C# numeric operations the game uses, over the reals. */
module Numerics {

  /** Truncation toward zero, as a C# cast of a double to an integer would do when in range. */
  function Trunc(x: real): (n: int)
    ensures x >= 0.0 ==> n as real <= x < n as real + 1.0
    ensures x < 0.0 ==> n as real - 1.0 < x <= n as real
  {
    if x >= 0.0 then x.Floor else -((-x).Floor)
  }

  /** The `%` operator on doubles: the remainder keeps the sign of the dividend (fmod). */
  function FMod(x: real, m: real): real
    requires m > 0.0
  {
    x - m * Trunc(x / m) as real
  }

  /** `Math.Abs` */
  function Abs(x: real): (r: real)
    ensures r >= 0.0 && (r == x || r == -x)
  {
    if x < 0.0 then -x else x
  }

  /** `Math.Sign`: -1, 0 or 1. */
  function Sign(x: real): (s: int)
    ensures s in {-1, 0, 1}
    ensures s as real * x == Abs(x)
    ensures s == 0 <==> x == 0.0
  {
    if x < 0.0 then -1 else if x > 0.0 then 1 else 0
  }
}
