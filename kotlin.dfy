/** The few pieces of the Kotlin/JVM runtime and of libGDX's vector type that the game's
    bookkeeping depends on, stated over Dafny's exact `int` and `real`. */
module Kotlin {

  /** `Float.toInt()`: rounds toward zero (the JVM's saturation at the Int range is not modelled). */
  function Trunc(r: real): (n: int)
    ensures 0.0 <= r ==> n as real <= r < n as real + 1.0
    ensures r < 0.0 ==> n as real - 1.0 < r <= n as real
  {
    if r >= 0.0 then r.Floor else -((-r).Floor)
  }

  /** Kotlin's `Int` remainder `a % b` for a positive divisor: the result takes the sign of
      the dividend (Dafny's own `%` never goes negative). */
  function Rem(a: int, b: int): (r: int)
    requires b > 0
    ensures 0 <= a ==> r == a % b
    ensures a < 0 ==> -b < r <= 0
  {
    if a >= 0 then a % b else -((-a) % b)
  }

  /** libGDX's `Vector2`, as a value. */
  datatype Vec2 = Vec2(x: real, y: real)

  function SquaredDistance(a: Vec2, b: Vec2): real
  {
    (a.x - b.x) * (a.x - b.x) + (a.y - b.y) * (a.y - b.y)
  }

  /** `a.dst(b) < radius`, without the square root: a distance is never negative, so it is
      below `radius` exactly when `radius` is positive and the squared distance is below
      `radius * radius`. */
  predicate Within(a: Vec2, b: Vec2, radius: real)
  {
    radius > 0.0 && SquaredDistance(a, b) < radius * radius
  }
}
