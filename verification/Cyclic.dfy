/** Indexes into a ring of n places. */
module Cyclic {

  lemma MulAtLeast(k: int, n: int)
    requires k >= 1 && n >= 1
    ensures k * n >= n
  {
    if k > 1 {
      MulAtLeast(k - 1, n);
      assert k * n == (k - 1) * n + n;
    }
  }

  lemma MulAtMost(k: int, n: int)
    requires k <= 0 && n >= 1
    ensures k * n <= 0
  {
  }

  lemma Fundamental(a: int, n: int)
    requires n >= 1
    ensures a == (a / n) * n + a % n && 0 <= a % n < n
  {
  }

  lemma Unique(a: int, n: int, q: int, r: int)
    requires n >= 1 && a == q * n + r && 0 <= r < n
    ensures a % n == r
  {
    var q', r' := a / n, a % n;
    Fundamental(a, n);
    assert (q - q') * n == q * n - q' * n == r' - r;
    assert (q' - q) * n == -((q - q') * n);
    if q > q' {
      MulAtLeast(q - q', n);
    } else if q < q' {
      MulAtLeast(q' - q, n);
    }
  }

  /** The place after place a % n. */
  lemma Next(a: int, n: int)
    requires n >= 1
    ensures (a % n + 1) % n == (a + 1) % n
    ensures (a + 1) % n == if a % n + 1 == n then 0 else a % n + 1
  {
    var q, r := a / n, a % n;
    Fundamental(a, n);
    if r + 1 == n {
      assert a + 1 == (q + 1) * n + 0;
      Unique(a + 1, n, q + 1, 0);
      Unique(r + 1, n, 1, 0);
    } else {
      Unique(a + 1, n, q, r + 1);
      Unique(r + 1, n, 0, r + 1);
    }
  }

  lemma Small(a: int, n: int)
    requires 0 <= a < n
    ensures a % n == a
  {
    Unique(a, n, 0, a);
  }

  lemma LeastPlace(a: int, n: int)
    requires 0 <= a && n >= 1
    ensures a % n <= a
  {
    Fundamental(a, n);
    if a / n < 0 { MulAtLeast(-(a / n), n); }
  }

  /** One round further is the same place. */
  lemma Round(a: int, n: int)
    requires n >= 1
    ensures (a + n) % n == a % n
  {
    Fundamental(a, n);
    assert a + n == (a / n + 1) * n + a % n;
    Unique(a + n, n, a / n + 1, a % n);
  }

  /** Different numbers with the same place are at least a round apart. */
  lemma Apart(a: int, b: int, n: int)
    requires n >= 1 && a % n == b % n && a < b
    ensures b >= a + n
  {
    Fundamental(a, n);
    Fundamental(b, n);
    var k := b / n - a / n;
    assert k * n == (b / n) * n - (a / n) * n == b - a;
    if k < 1 {
      MulAtMost(k, n);
    } else {
      MulAtLeast(k, n);
    }
  }
}
