/** Remainders, for counters that wrap around. */
module Modular {

  lemma ModUnique(x: int, q: int, n: int, r: int)
    requires n > 0 && 0 <= r < n && x == n * q + r
    ensures x % n == r
  {
    var d := x / n - q;
    assert n * d == r - x % n;
  }

  lemma ModShift(x: int, k: int, m: int)
    requires m > 0
    ensures (m * k + x) % m == x % m
  {
    assert m * (k + x / m) == m * k + m * (x / m);
    ModUnique(m * k + x, k + x / m, m, x % m);
  }

  /** A sum may be reduced before the last addition. */
  lemma ModAdd(a: int, b: int, m: int)
    requires m > 0
    ensures (a % m + b) % m == (a + b) % m
  {
    assert a + b == m * (a / m) + (a % m + b);
    ModShift(a % m + b, a / m, m);
  }

  /** A remainder by a multiple keeps the remainder by the divisor. */
  lemma ModOfMultiple(x: nat, n: nat, w: nat)
    requires n > 0 && w > 0 && w % n == 0
    ensures (x % w) % n == x % n
  {
    var m, k := w / n, x / w;
    assert w == n * m;
    assert x == n * (m * k) + x % w;
    ModShift(x % w, m * k, n);
  }
}
