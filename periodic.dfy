/**
 * Periodic index arithmetic on a grid of n >= 1 points.
 *
 * The operators wrap every neighbour index with Python's `%`. For a positive
 * divisor Python's `%` is floored modulo, which on positive divisors agrees
 * with Dafny's Euclidean `%`: the result always lies in [0, n), also for a
 * negative left operand.
 */
module Periodic {

  /** The grid index that logical index `i` denotes on a periodic grid of `n` points. */
  function Wrap(i: int, n: int): (r: int)
    requires n >= 1
    ensures 0 <= r < n
    ensures 0 <= i < n ==> r == i
  {
    i % n
  }

  /** Wrap(i, n) differs from i by a whole number of periods. */
  lemma WrapDecompose(i: int, n: int) returns (q: int)
    requires n >= 1
    ensures i == q * n + Wrap(i, n)
  {
    q := i / n;
  }

  lemma MulAtLeast(k: int, n: int)
    requires k >= 1 && n >= 1
    ensures k * n >= n
  {
    assert k * n == (k - 1) * n + n;
    assert (k - 1) * n >= 0;
  }

  /** Any decomposition i == q * n + r with 0 <= r < n determines Wrap(i, n). */
  lemma WrapUnique(i: int, n: int, q: int, r: int)
    requires n >= 1 && 0 <= r < n && i == q * n + r
    ensures Wrap(i, n) == r
  {
    var d, m := i / n, i % n;
    assert i == d * n + m;
    assert (q - d) * n == m - r;
    if q > d {
      MulAtLeast(q - d, n);
    } else if q < d {
      MulAtLeast(d - q, n);
    }
  }

  /** Adding a whole period does not change the wrapped index. */
  lemma WrapPeriodic(i: int, n: int)
    requires n >= 1
    ensures Wrap(i + n, n) == Wrap(i, n)
  {
    var r := Wrap(i, n);
    var q := WrapDecompose(i, n);
    WrapUnique(i + n, n, q + 1, r);
  }

  /** Wrapping an intermediate index and then offsetting it lands where the
      unwrapped offset lands: (Wrap(i) + d) % n == (i + d) % n. */
  lemma WrapShift(i: int, d: int, n: int)
    requires n >= 1
    ensures Wrap(Wrap(i, n) + d, n) == Wrap(i + d, n)
  {
    var r, r' := Wrap(i, n), Wrap(i + d, n);
    var q := WrapDecompose(i, n);
    var q' := WrapDecompose(i + d, n);
    assert r + d == (q' - q) * n + r';
    WrapUnique(r + d, n, q' - q, r');
  }

  /** Negating a wrapped index and wrapping again is the same as wrapping the negation. */
  lemma WrapNeg(i: int, n: int)
    requires n >= 1
    ensures Wrap(-Wrap(i, n), n) == Wrap(-i, n)
  {
    var r, r' := Wrap(i, n), Wrap(-i, n);
    var q := WrapDecompose(i, n);
    var q' := WrapDecompose(-i, n);
    assert -r == (q' + q) * n + r';
    WrapUnique(-r, n, q' + q, r');
  }
}
