/** Minimum, maximum, rounding up and division, for integers and reals. */
module Numbers {
  function Min(a: int, b: int): int { if a <= b then a else b }

  function Max(a: int, b: int): int { if a <= b then b else a }

  function MinReal(x: real, y: real): real { if x <= y then x else y }

  function MaxReal(x: real, y: real): real { if x <= y then y else x }

  /** The least integer that is not smaller. */
  function Ceiling(x: real): (n: int)
    ensures n as real - 1.0 < x <= n as real
  {
    -((-x).Floor)
  }

  lemma QuotientTimes(x: real, y: real)
    requires y != 0.0
    ensures (x / y) * y == x
  {
  }
}
