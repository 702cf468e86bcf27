/** Integer operations with the semantics of C's `int` operators. */
module CInt {

  /** Bounds of Dafny's quotient for a non-negative dividend, where it agrees
      with C's. */
  lemma DivBounds(n: int, b: int)
    requires n >= 0 && b > 0
    ensures 0 <= n / b && (n / b) * b <= n < (n / b) * b + b
  {
    var q, r := n / b, n % b;
    assert n == q * b + r && 0 <= r < b;
    // q * b = n - r > -b, and a multiple of a positive b above -b is not negative
    assert q * b > -b;
    assert (q + 1) * b > 0;
  }

  /** C's `a / b` for a positive divisor: the quotient truncated toward zero.
      Dafny's own `/` is Euclidean and rounds negative dividends down instead. */
  function TruncDiv(a: int, b: int): (q: int)
    requires b > 0
    ensures a >= 0 ==> 0 <= q && q * b <= a < q * b + b
    ensures a < 0 ==> q <= 0 && q * b - b < a <= q * b
  {
    DivBounds(if a >= 0 then a else -a, b);
    if a >= 0 then a / b else -((-a) / b)
  }
}
