/** Integer facts the paging and percentage bounds share. */
module Arith {
  /** Cancelling a positive factor from both sides of a strict inequality. */
  lemma FactorBelow(a: int, b: int, n: int)
    requires n > 0 && a * n < b * n
    ensures a < b
  {
    assert (b - a) * n == b * n - a * n;
  }
}
