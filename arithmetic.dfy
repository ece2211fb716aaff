/** Facts about integer multiplication and Euclidean division that the
    solver does not find on its own. */
module Arithmetic {

  /** Multiplying by a natural number keeps the order. */
  lemma MulMonotone(a: nat, b: nat, h: nat)
    requires a <= b
    ensures a * h <= b * h
  {
    assert b * h == a * h + (b - a) * h;
  }

  /** A multiple of a positive `n` strictly between `-n` and `n` is zero. */
  lemma SmallMultipleIsZero(d: int, n: int)
    requires n > 0 && -n < d * n < n
    ensures d == 0
  {
    if d > 0 {
      MulMonotone(1, d, n);
      assert false;
    } else if d < 0 {
      assert false;
    }
  }

  /** Euclidean division is determined by any quotient and remainder that fit. */
  lemma DivModUnique(a: int, n: int, q: int, r: int)
    requires n > 0 && 0 <= r < n && a == q * n + r
    ensures a / n == q && a % n == r
  {
    var q', r' := a / n, a % n;
    assert a == q' * n + r';
    assert (q - q') * n == r' - r by {
      assert (q - q') * n == q * n - q' * n;
    }
    SmallMultipleIsZero(q - q', n);
  }
}
