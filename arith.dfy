/** Integer arithmetic as the game's Go code performs it.
    Go's integer division and its float-to-integer conversion both truncate
    toward zero, whereas Dafny's `/` is Euclidean. */
module Arith {

  /** `a / d` as Go computes it (and `int32(a / d)` for a float quotient):
      the quotient rounded toward zero. */
  function TruncDiv(a: int, d: int): (q: int)
    requires d > 0
    ensures 0 <= a ==> 0 <= q * d <= a < q * d + d
    ensures a < 0 ==> q * d - d < a <= q * d <= 0
  {
    var n := if a >= 0 then a else -a;
    DivBounds(n, d);
    if a >= 0 then n / d else -(n / d)
  }

  /** The Euclidean quotient of a natural number, bounded by the number. */
  lemma DivBounds(n: int, d: int)
    requires 0 <= n && 0 < d
    ensures 0 <= (n / d) * d <= n < (n / d) * d + d
  {
  }

  /** Truncation is symmetric about zero, which Euclidean division is not
      (-1 / 10 is -1 in Dafny, 0 in Go). */
  lemma TruncDivOdd(a: int, d: int)
    requires d > 0
    ensures TruncDiv(-a, d) == -TruncDiv(a, d)
  {
  }
}
