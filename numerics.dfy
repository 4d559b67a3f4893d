/** Numeric vocabulary shared by the simulation and the renderer: `glm::vec2`, floats that may be NaN,
    and the integer square root used to size the initial lattice. */
module Numerics {

  /** A `glm::vec2`; its float components are modelled as reals. */
  datatype Vec2 = Vec2(x: real, y: real)

  const Origin: Vec2 := Vec2(0.0, 0.0)

  /** Squared Euclidean length (distance from the origin, squared, so no square root is needed). */
  function NormSquared(v: Vec2): real {
    v.x * v.x + v.y * v.y
  }

  /** A 32-bit float value as far as the model needs it: a real number, NaN (the result of `0.0f / 0.0f`),
      or positive infinity (a positive float divided by `0.0f`). */
  datatype Float = Num(value: real) | NaN | Inf

  /** `static_cast<int>(std::sqrt(n))` for a 32-bit unsigned `n`, computed by counting up: the root of
      `n - 1`, raised by one when its successor still squares to at most `n`. A positive `n` has a
      positive root; `FloorSqrtBounds` shows it is the square root rounded down. */
  function FloorSqrt(n: nat): (r: nat)
    ensures n > 0 ==> r > 0
  {
    if n == 0 then 0
    else
      var s := FloorSqrt(n - 1);
      if (s + 1) * (s + 1) <= n then s + 1 else s
  }

  /** `FloorSqrt(n)` is the largest root whose square does not exceed `n`. */
  lemma {:induction false} FloorSqrtBounds(n: nat)
    ensures FloorSqrt(n) * FloorSqrt(n) <= n < (FloorSqrt(n) + 1) * (FloorSqrt(n) + 1)
  {
    if n > 0 {
      var s := FloorSqrt(n - 1);
      FloorSqrtBounds(n - 1);
      if (s + 1) * (s + 1) <= n {
        assert (s + 1) * (s + 1) < (s + 2) * (s + 2);
      }
    }
  }
}
