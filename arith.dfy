/** Facts about Euclidean remainder used by the endpoint rotation proofs. */
module Arith {

  lemma {:induction false} MulAtLeast(n: int, d: int)
    requires n > 0 && d >= 1
    ensures n * d >= n
    decreases d
  {
    if d > 1 {
      MulAtLeast(n, d - 1);
      assert n * d == n * (d - 1) + n;
    }
  }

  /** The remainder is the only r in [0, n) with x == n * q + r. */
  lemma ModUnique(x: int, n: int, q: int, r: int)
    requires n > 0 && 0 <= r < n && x == n * q + r
    ensures x % n == r
  {
    var q', r' := x / n, x % n;
    assert x == n * q' + r';
    if q > q' {
      assert n * q - n * q' == n * (q - q');
      MulAtLeast(n, q - q');
      assert false;
    } else if q < q' {
      assert n * q' - n * q == n * (q' - q);
      MulAtLeast(n, q' - q);
      assert false;
    }
  }

  lemma ModSub(x: int, n: int)
    requires 0 < n <= x
    ensures x % n == (x - n) % n
  {
    var q, r := (x - n) / n, (x - n) % n;
    assert x - n == n * q + r;
    assert x == n * (q + 1) + r;
    ModUnique(x, n, q + 1, r);
  }

  lemma {:induction false} ModShift(c: nat, n: nat, k: nat)
    requires n > 0
    ensures (c + k) % n == (c % n + k) % n
    decreases c
  {
    if c >= n {
      var m: nat := c - n;
      ModSub(c + k, n);
      assert (c + k) % n == (m + k) % n;
      ModSub(c, n);
      assert c % n == m % n;
      ModShift(m, n, k);
    } else {
      ModUnique(c, n, 0, c);
    }
  }

  /** Advancing a cursor k < n steps over a ring of n positions, without a remainder. */
  lemma RotationIndex(cursor: nat, n: nat, k: nat)
    requires k < n
    ensures cursor % n + k < n ==> (cursor + k) % n == cursor % n + k
    ensures cursor % n + k >= n ==> (cursor + k) % n == cursor % n + k - n
  {
    ModShift(cursor, n, k);
    var r0 := cursor % n;
    if r0 + k < n {
      ModUnique(r0 + k, n, 0, r0 + k);
    } else {
      ModUnique(r0 + k, n, 1, r0 + k - n);
    }
  }
}
