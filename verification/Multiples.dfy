/** Multiples and remainders. */
module Multiples {

  lemma {:induction false} Scaled(d: nat, n: nat)
    requires n > 0
    ensures d * n >= d
  {
    if n > 1 {
      Scaled(d, n - 1);
      assert d * n == d * (n - 1) + d;
    }
  }

  /** Euclidean division is unique. */
  lemma Divides(d: nat, a: int, r: int, b: int, r': int)
    requires d > 0 && d * a + r == d * b + r' && r - r' < d && r' - r < d
    ensures a == b && r == r'
  {
    assert d * (a - b) == r' - r;
    if a > b {
      Scaled(d, a - b);
    } else if a < b {
      Scaled(d, b - a);
    }
  }

  /** Numbers one divisor apart have the same remainder. */
  lemma NextLap(p: int, d: nat)
    requires d > 0
    ensures (p - d) % d == p % d
  {
    assert d * (p / d - 1) == d * (p / d) - d;
    Divides(d, (p - d) / d, (p - d) % d, p / d - 1, p % d);
  }
}
