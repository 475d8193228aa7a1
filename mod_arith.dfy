/** Facts about Euclidean `%` with a variable modulus, which the solver does not find alone. */
module ModArith {
  /** A multiple of `n` strictly between `-n` and `n` is zero. */
  lemma SmallMultipleIsZero(d: int, n: int)
    requires n > 0 && -n < d * n < n
    ensures d == 0
  {
  }

  /** The remainder is the unique `r` in `[0, n)` with `x == q * n + r`. */
  lemma ModUnique(x: int, n: int, q: int, r: int)
    requires n > 0 && 0 <= r < n && x == q * n + r
    ensures x % n == r
  {
    var d := x / n - q;
    assert x == (x / n) * n + x % n;
    assert d * n == r - x % n by {
      assert (x / n) * n == q * n + d * n;
    }
    SmallMultipleIsZero(d, n);
  }

  /** Stepping an index `i < n` forward by one, modulo `n`. */
  lemma ModSuccessor(i: int, n: int)
    requires 0 <= i < n
    ensures (i + 1) % n == if i + 1 == n then 0 else i + 1
    ensures i % n == i
  {
  }

  /** Adding whole periods does not move a position modulo the period. */
  lemma ModAddPeriods(i: int, k: int, n: int)
    requires n > 0
    ensures (i + k * n) % n == i % n
  {
    var q := i / n;
    assert i == q * n + i % n;
    assert i + k * n == (q + k) * n + i % n;
    ModUnique(i + k * n, n, q + k, i % n);
  }

  /** `((x % n) + k) % n == (x + k) % n`. */
  lemma ModOfSum(x: int, k: int, n: int)
    requires n > 0
    ensures ((x % n) + k) % n == (x + k) % n
  {
    var q := x / n;
    assert x == q * n + x % n;
    ModAddPeriods((x % n) + k, q, n);
    assert (x % n) + k + q * n == x + k;
  }
}
