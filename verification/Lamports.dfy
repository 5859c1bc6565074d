/** Lamport rounding (`quantize_sol`).

    An amount before rounding is a real number of lamports; a rounded amount is an integer
    number of lamports.  Python's `Decimal.quantize` rounds half to even by default. */
module Lamports {

  const LAMPORTS_PER_SOL: int := 1_000_000_000

  /** The proceeds of a swap are never negative. */
  type Proceeds = r: real | r >= 0.0

  /** x is within half a lamport of n, and n is even when x lies exactly half way. */
  ghost predicate IsNearest(x: real, n: int) {
    && n as real - 0.5 <= x <= n as real + 0.5
    && ((x == n as real - 0.5 || x == n as real + 0.5) ==> n % 2 == 0)
  }

  function Quantize(x: real): (q: int)
    ensures IsNearest(x, q)
  {
    var f := x.Floor;
    var rest := x - f as real;
    if rest < 0.5 then f
    else if rest > 0.5 then f + 1
    else if f % 2 == 0 then f
    else f + 1
  }

  /** Rounding to nearest with ties to even has exactly one answer. */
  lemma NearestIsUnique(x: real, m: int, n: int)
    requires IsNearest(x, m) && IsNearest(x, n)
    ensures m == n
  {
  }

  lemma QuantizeWhole(n: int)
    ensures Quantize(n as real) == n
  {
    NearestIsUnique(n as real, Quantize(n as real), n);
  }

  /** Rounding never reorders two amounts, which is what lets a clamp made before rounding
      survive it. */
  lemma QuantizeMonotone(x: real, y: real)
    requires x <= y
    ensures Quantize(x) <= Quantize(y)
  {
    if Quantize(x) > Quantize(y) {
      // Both are then half way between the same two integers.
      NearestIsUnique(x, Quantize(x), Quantize(y));
    }
  }

  /** A whole-lamport upper bound on an amount still bounds it after rounding. */
  lemma QuantizeBelow(x: real, n: int)
    requires x <= n as real
    ensures Quantize(x) <= n
  {
    QuantizeMonotone(x, n as real);
    QuantizeWhole(n);
  }

  lemma QuantizeAbove(x: real, n: int)
    requires n as real <= x
    ensures n <= Quantize(x)
  {
    QuantizeMonotone(n as real, x);
    QuantizeWhole(n);
  }
}
