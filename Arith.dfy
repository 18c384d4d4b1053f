/** Facts about integer multiplication and division that the solver does not
    find unaided. Dafny's `/` on a positive divisor is the floor. */
module Arith {

  lemma MulMonotone(x: int, y: int, k: int)
    requires x <= y && k >= 0
    ensures x * k <= y * k
  {
    assert y * k - x * k == (y - x) * k;
  }

  /** At least m whole multiples of n in x: the quotient is at least m. */
  lemma DivLowerBound(x: int, m: int, n: int)
    requires n > 0 && x >= m * n
    ensures x / n >= m
  {
    var q := x / n;
    assert x == q * n + x % n;
    if q < m {
      MulMonotone(q + 1, m, n);
    }
  }

  /** Fewer than m whole multiples of n in x: the quotient is below m. */
  lemma DivUpperBound(x: int, m: int, n: int)
    requires n > 0 && x < m * n
    ensures x / n < m
  {
    var q := x / n;
    assert x == q * n + x % n;
    if q >= m {
      MulMonotone(m, q, n);
    }
  }

  /** Division by a positive number is monotone. */
  lemma DivMonotone(x: int, y: int, n: int)
    requires n > 0 && x <= y
    ensures x / n <= y / n
  {
    var q := x / n;
    assert x == q * n + x % n;
    DivLowerBound(y, q, n);
  }

  /** For a positive divisor the floor of the real quotient is Dafny's integer division. */
  lemma FloorOfQuotient(a: int, b: int)
    requires b > 0
    ensures ((a as real) / (b as real)).Floor == a / b
  {
    var q, r := a / b, a % b;
    assert a == q * b + r && 0 <= r < b;
    assert (a as real) / (b as real) == q as real + (r as real) / (b as real);
    assert 0.0 <= (r as real) / (b as real) < 1.0;
  }
}
