/** Arithmetic shared by the analysis: JavaScript's Math.round of an exact quotient. */
module Numbers {

  /** Math.round(n / d) for a positive divisor: the integer r nearest to n / d,
      halves rounded towards positive infinity, that is
      r - 1/2 <= n / d < r + 1/2, stated here with both sides multiplied by 2d. */
  function RoundQuotient(n: int, d: int): (r: int)
    requires d > 0
    ensures d * (2 * r - 1) <= 2 * n < d * (2 * r + 1)
  {
    var q := (2 * n + d) / (2 * d);
    var m := (2 * n + d) % (2 * d);
    assert 2 * n + d == 2 * d * q + m && 0 <= m < 2 * d;
    q
  }
}
