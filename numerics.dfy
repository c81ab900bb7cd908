/** Arithmetic the Java sources get from `double`, `Math.max` and the `(int)` cast,
    restated over Dafny's unbounded `real` and `int`. */
module Numerics {

  function Abs(x: real): (a: real)
    ensures a >= 0.0 && (a == x || a == -x)
  {
    if x < 0.0 then -x else x
  }

  /** `Math.max` on two doubles (NaN and signed zeros do not arise over `real`). */
  function Max(a: real, b: real): (m: real)
    ensures m >= a && m >= b && (m == a || m == b)
  {
    if a >= b then a else b
  }

  /** Division in which a zero divisor yields 0, the "no signal" reading; Java would
      produce an infinity or NaN there. */
  function Quot(x: real, y: real): (q: real)
    ensures y != 0.0 ==> q * y == x
    ensures y == 0.0 ==> q == 0.0
  {
    if y == 0.0 then 0.0 else x / y
  }

  /** `n` is `x` rounded toward zero, as Java's `(int)` cast of a double does. */
  ghost predicate TruncatesTo(x: real, n: int)
  {
    && (x >= 0.0 ==> 0 <= n && n as real <= x < n as real + 1.0)
    && (x < 0.0 ==> n <= 0 && n as real - 1.0 < x <= n as real)
  }

  /** The `(int)` cast of a double, without the saturation at the bounds of `int`. */
  function TruncToInt(x: real): (n: int)
    ensures TruncatesTo(x, n)
  {
    if x >= 0.0 then x.Floor else -((-x).Floor)
  }
}
