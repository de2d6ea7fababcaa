/** Facts of integer arithmetic that the solver does not find by itself
    (products with a symbolic factor, remainders). */
module Arith {

  lemma MulAtLeast(a: int, k: nat)
    requires a >= 1
    ensures a * k >= k
  {
  }

  lemma MulMonotone(a: nat, b: nat, k: nat)
    requires a <= b
    ensures a * k <= b * k
  {
  }

  lemma MulAssoc(a: int, b: int, c: int)
    ensures (a * b) * c == a * (b * c)
  {
  }

  /** Quotient and remainder are unique. */
  lemma DivModUnique(x: int, k: nat, q: int, r: int)
    requires k > 0 && 0 <= r < k && x == k * q + r
    ensures x / k == q && x % k == r
  {
    var q', r' := x / k, x % k;
    assert k * (q - q') == r' - r;
    if q - q' >= 1 {
      MulAtLeast(q - q', k);
      assert false;
    } else if q - q' <= -1 {
      MulAtLeast(q' - q, k);
      assert false;
    }
  }

  /** A multiple of `k` leaves no remainder and has quotient `n`. */
  lemma MultipleMod(n: nat, k: nat)
    requires k > 0
    ensures (n * k) % k == 0 && (n * k) / k == n
  {
    DivModUnique(n * k, k, n, 0);
  }

  /** A length divisible by `k` is `(len / k) * k`. */
  lemma Multiple(x: nat, k: nat)
    requires k > 0 && x % k == 0
    ensures x == (x / k) * k
  {
  }

  /** Adding the modulus does not change the remainder. */
  lemma ModAddPeriod(i: nat, k: nat)
    requires k > 0
    ensures (i + k) % k == i % k
  {
    DivModUnique(i + k, k, i / k + 1, i % k);
  }
}
