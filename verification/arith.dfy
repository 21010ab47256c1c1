/** Facts about division that several counting loops and reports rely on. */
module Arith {

  lemma MulSign(d: int, k: int)
    requires k > 0
    ensures d >= 1 ==> d * k >= k
    ensures d <= -1 ==> d * k <= -k
  {
    if d >= 1 {
      assert d * k == (d - 1) * k + k;
      assert (d - 1) * k >= 0;
    } else if d <= -1 {
      assert d * k == (d + 1) * k - k;
      assert (d + 1) * k <= 0;
    }
  }

  /** Quotient and remainder are the only pair with `n == q * k + r` and `0 <= r < k`. */
  lemma DivModUnique(n: int, k: int, q: int, r: int)
    requires k > 0 && 0 <= r < k && n == q * k + r
    ensures n / k == q && n % k == r
  {
    var d := q - n / k;
    assert d * k == n % k - r;
    MulSign(d, k);
  }

  /** Among 1..n, the multiples of `k` number one more than among 1..n-1 exactly when `k` divides `n`. */
  lemma MultiplesStep(n: nat, k: int)
    requires k > 0 && n >= 1
    ensures n / k == (n - 1) / k + (if n % k == 0 then 1 else 0)
  {
    var q, r := (n - 1) / k, (n - 1) % k;
    if r == k - 1 {
      DivModUnique(n, k, q + 1, 0);
    } else {
      DivModUnique(n, k, q, r + 1);
    }
  }

  /** A multiple of `k` is its quotient times `k`. */
  lemma DivExact(n: int, k: int)
    requires k > 0 && n % k == 0
    ensures n == (n / k) * k
  {
  }

  /** A share of `n` as a fraction: between 0 and 1, and `n` times it gives the share back. */
  lemma Fraction(k: nat, n: nat)
    requires 0 < n && k <= n
    ensures 0.0 <= k as real / n as real <= 1.0
    ensures k as real / n as real * n as real == k as real
  {
  }
}
