/** JavaScript integer arithmetic the display helpers use. */
module JsMath {
  /** `Math.floor(a / b)` for a positive divisor: Dafny's division already rounds down there. */
  function FloorDiv(a: int, b: int): (q: int)
    requires b > 0
    ensures q * b <= a < q * b + b
  {
    a / b
  }

  /** `a % b` for a positive divisor: the remainder takes the sign of `a` (truncating division). */
  function Rem(a: int, b: int): (r: int)
    requires b > 0
    ensures a >= 0 ==> 0 <= r < b
    ensures a < 0 ==> -b < r <= 0
  {
    if a >= 0 then a % b else -((-a) % b)
  }

  /** The remainder of a negated dividend is the negated remainder. */
  lemma RemOdd(a: int, b: int)
    requires b > 0
    ensures Rem(-a, b) == -Rem(a, b)
  {
  }

  /** For a non-negative dividend, floor and remainder split it exactly. */
  lemma DivRemSplit(a: int, b: int)
    requires a >= 0 && b > 0
    ensures FloorDiv(a, b) * b + Rem(a, b) == a
  {
  }
}
