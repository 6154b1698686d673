/** Remainders, which the solver does not find by itself. */
module Arithmetic {

  lemma Multiple(a: int, m: int)
    requires a >= 1 && m >= 0
    ensures a * m >= m
  {
    assert a * m == m + (a - 1) * m;
  }

  lemma Remainder(r: int, k: int, m: int)
    requires 0 <= r < m
    ensures (r + k * m) % m == r
    ensures (r + k * m) / m == k
  {
    var x := r + k * m;
    var q := x / m;
    assert x == q * m + x % m;
    assert (k - q) * m == x % m - r;
    assert (q - k) * m == r - x % m;
    if k > q { Multiple(k - q, m); }
    if k < q { Multiple(q - k, m); }
  }

  lemma RemainderIs(x: int, r: int, k: int, m: int)
    requires 0 <= r < m && x == r + k * m
    ensures x % m == r
  {
    Remainder(r, k, m);
  }

  lemma OneMoreTime(k: int, m: int)
    ensures (k + 1) * m == k * m + m
  {
  }

  lemma SameRemainder(x: int, y: int, k: int, m: int)
    requires m >= 1 && x == y + k * m
    ensures x % m == y % m
  {
    var q, r := y / m, y % m;
    assert y == r + q * m;
    assert (q + k) * m == q * m + k * m;
    Remainder(r, q + k, m);
  }
}
