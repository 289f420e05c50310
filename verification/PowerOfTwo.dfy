/**
 Rounding a capacity up to a power of two and masking positions with it, as
 src/lock_free_queue.hpp does on machine words of 32 or 64 bits; nothing here depends on the
 width.  Words are naturals; `And`, `Or` and `ShiftRight` are the usual bitwise operations,
 and the final increment wraps.
 */
module PowerOfTwo {
  import opened Multiples

  function Pow2(n: nat): nat
    ensures Pow2(n) > 0
  {
    if n == 0 then 1 else 2 * Pow2(n - 1)
  }

  function And(x: nat, y: nat): nat {
    if x == 0 then 0 else 2 * And(x / 2, y / 2) + (if x % 2 == 1 && y % 2 == 1 then 1 else 0)
  }

  function Or(x: nat, y: nat): nat
    decreases x + y
  {
    if x == 0 then y else if y == 0 then x else
      2 * Or(x / 2, y / 2) + (if x % 2 == 1 || y % 2 == 1 then 1 else 0)
  }

  function ShiftRight(x: nat, n: nat): nat
    decreases n
  {
    if n == 0 then x else ShiftRight(x / 2, n - 1)
  }

  /** v |= v >> n */
  function Spread(v: nat, n: nat): nat {
    Or(v, ShiftRight(v, n))
  }

  /** Adding one to a word of the given width. */
  function Increment(w: nat, bits: nat): nat {
    if w + 1 == Pow2(bits) then 0 else w + 1
  }

  /** The spreading shifts: by 1, 2, 4 and so on, as far as the width of the word. */
  function SpreadFrom(w: nat, n: nat, bits: nat): nat
    requires n > 0
    decreases bits - n
  {
    if n >= bits then w else SpreadFrom(Spread(w, n), 2 * n, bits)
  }

  function RoundUpPowerOf2(v: nat, bits: nat): nat
    requires v < Pow2(bits)
  {
    if v <= 2 then 2 else Increment(SpreadFrom(v - 1, 1, bits), bits)
  }

  // ---- Powers ----

  lemma {:induction false} Pow2Monotone(a: nat, b: nat)
    requires a <= b
    ensures Pow2(a) <= Pow2(b)
  {
    if a < b {
      Pow2Monotone(a, b - 1);
    }
  }

  /** Every positive number lies between two neighbouring powers. */
  lemma {:induction false} Bracket(v: nat) returns (k: nat)
    requires v > 0
    ensures Pow2(k) <= v < Pow2(k + 1)
  {
    if v == 1 {
      k := 0;
    } else {
      var j := Bracket(v / 2);
      k := j + 1;
    }
  }

  // ---- Shifts and masks ----

  lemma {:induction false} ShiftTwice(x: nat, a: nat, b: nat)
    ensures ShiftRight(ShiftRight(x, a), b) == ShiftRight(x, a + b)
  {
    if a > 0 {
      ShiftTwice(x / 2, a - 1, b);
    }
  }

  lemma {:induction false} ShiftOnes(m: nat, n: nat)
    requires n <= m
    ensures ShiftRight(Pow2(m) - 1, n) == Pow2(m - n) - 1
  {
    if n > 0 {
      assert (Pow2(m) - 1) / 2 == Pow2(m - 1) - 1;
      ShiftOnes(m - 1, n - 1);
    }
  }

  lemma {:induction false} ShiftSmall(x: nat, n: nat)
    requires x < Pow2(n)
    ensures ShiftRight(x, n) == 0
  {
    if n > 0 {
      ShiftSmall(x / 2, n - 1);
    }
  }

  lemma {:induction false} ShiftToTop(x: nat, n: nat)
    requires Pow2(n) <= x < Pow2(n + 1)
    ensures ShiftRight(x, n) == 1
  {
    if n > 0 {
      ShiftToTop(x / 2, n - 1);
    }
  }

  lemma {:induction false} ShiftOr(x: nat, y: nat, n: nat)
    ensures ShiftRight(Or(x, y), n) == Or(ShiftRight(x, n), ShiftRight(y, n))
    decreases n
  {
    if n > 0 {
      assert Or(x, y) / 2 == Or(x / 2, y / 2);
      ShiftOr(x / 2, y / 2, n - 1);
    }
  }

  /** Filling the low bits below set bits sets them all. */
  lemma {:induction false} FillLow(x: nat, m: nat, n: nat)
    requires ShiftRight(x, n) == Pow2(m) - 1
    ensures Or(x, Pow2(n) - 1) == Pow2(m + n) - 1
    decreases n
  {
    if n > 0 {
      FillLow(x / 2, m, n - 1);
      assert (Pow2(n) - 1) / 2 == Pow2(n - 1) - 1 && (Pow2(n) - 1) % 2 == 1;
      assert Pow2(m + n) == 2 * Pow2(m + (n - 1));
    }
  }

  /** The low n bits of x, and the rest. */
  lemma {:induction false} LowBits(x: nat, n: nat)
    ensures And(x, Pow2(n) - 1) < Pow2(n)
    ensures x == ShiftRight(x, n) * Pow2(n) + And(x, Pow2(n) - 1)
    decreases n
  {
    if n == 0 {
      AndZero(x);
    } else {
      AndMask(x, n);
      LowBits(x / 2, n - 1);
      Doubled(ShiftRight(x, n), Pow2(n - 1));
    }
  }

  lemma {:induction false} AndZero(x: nat)
    ensures And(x, 0) == 0
  {
    if x > 0 {
      AndZero(x / 2);
    }
  }

  lemma AndMask(x: nat, n: nat)
    requires n > 0
    ensures And(x, Pow2(n) - 1) == 2 * And(x / 2, Pow2(n - 1) - 1) + x % 2
  {
    assert (Pow2(n) - 1) / 2 == Pow2(n - 1) - 1 && (Pow2(n) - 1) % 2 == 1;
  }

  lemma Doubled(q: nat, m: nat)
    ensures q * (2 * m) == 2 * (q * m)
  {
  }

  lemma Remainder(x: nat, d: nat, q: nat, r: nat)
    requires r < d && x == q * d + r
    ensures x % d == r
  {
    Divides(d, x / d, x % d, q, r);
  }

  /** A position masked with a power of two minus one is its remainder. */
  lemma MaskIsRemainder(x: nat, n: nat)
    ensures And(x, Pow2(n) - 1) == x % Pow2(n)
  {
    LowBits(x, n);
    Remainder(x, Pow2(n), ShiftRight(x, n), And(x, Pow2(n) - 1));
  }

  // ---- Spreading the highest bit ----

  /** `w` has `k` bits, of which the `m` highest are all set. */
  predicate TopSet(w: nat, k: nat, m: nat) {
    m <= k && ShiftRight(w, k - m) == Pow2(m) - 1
  }

  function Least(a: nat, b: nat): nat {
    if a <= b then a else b
  }

  lemma SpreadTop(w: nat, k: nat, m: nat)
    requires TopSet(w, k, m)
    ensures TopSet(Spread(w, m), k, Least(2 * m, k))
  {
    var m' := Least(2 * m, k);
    var i, n := k - m', m' - m;
    var x := ShiftRight(w, i);
    ShiftTwice(w, i, n);
    ShiftTwice(w, m, i);
    ShiftTwice(w, i, m);
    ShiftOr(w, ShiftRight(w, m), i);
    assert ShiftRight(Spread(w, m), i) == Or(x, ShiftRight(x, m));
    ShiftTwice(x, n, m - n);
    ShiftOnes(m, m - n);
    FillLow(x, m, n);
  }

  lemma SpreadOnce(w: nat, k: nat, n: nat)
    requires TopSet(w, k, Least(n, k))
    ensures TopSet(Spread(w, n), k, Least(2 * n, k))
  {
    if n <= k {
      SpreadTop(w, k, n);
    } else {
      Pow2Monotone(k, n);
      ShiftSmall(w, n);
    }
  }

  /** Once the shifts cover the word, all bits below the highest are set. */
  lemma {:induction false} SpreadAll(w: nat, k: nat, n: nat, bits: nat)
    requires n > 0 && k <= bits && TopSet(w, k, Least(n, k))
    ensures SpreadFrom(w, n, bits) == Pow2(k) - 1
    decreases bits - n
  {
    if n < bits {
      SpreadOnce(w, k, n);
      SpreadAll(Spread(w, n), k, 2 * n, bits);
    }
  }

  lemma RoundsLarge(v: nat, j: nat, bits: nat)
    requires v > 2 && Pow2(j) <= v - 1 < Pow2(j + 1) && j < bits && v < Pow2(bits)
    ensures RoundUpPowerOf2(v, bits) == Increment(Pow2(j + 1) - 1, bits)
  {
    ShiftToTop(v - 1, j);
    SpreadAll(v - 1, j + 1, 1, bits);
  }

  /** A positive word of the given width has its highest bit below the width. */
  lemma BracketIn(v: nat, bits: nat) returns (k: nat)
    requires 0 < v < Pow2(bits)
    ensures k < bits && Pow2(k) <= v < Pow2(k + 1)
  {
    k := Bracket(v);
    if k >= bits {
      Pow2Monotone(bits, k);
    }
  }

  // ---- The capacity ----

  /** 2^k is the least power of two that is at least 2 and at least v. */
  ghost predicate IsLeastExponent(v: nat, k: nat) {
    && 1 <= k && v <= Pow2(k)
    && forall j :: 1 <= j < k ==> Pow2(j) < v
  }

  /**
   The capacity is the least power of two that is at least 2 and at least the request, up
   to half the range of a word; beyond that, and only then, the increment wraps to zero.
   */
  lemma RoundsUp(v: nat, bits: nat) returns (k: nat)
    requires v < Pow2(bits) && bits >= 2
    ensures IsLeastExponent(v, k) && k <= bits
    ensures RoundUpPowerOf2(v, bits) == (if k < bits then Pow2(k) else 0)
    ensures k == bits <==> v > Pow2(bits - 1)
  {
    if v <= 2 {
      k := 1;
      Pow2Monotone(1, bits - 1);
    } else {
      var j := BracketIn(v - 1, bits);
      RoundsLarge(v, j, bits);
      LeastExponent(v, j, bits);
      k := j + 1;
    }
  }

  lemma LeastExponent(v: nat, j: nat, bits: nat)
    requires v > 2 && Pow2(j) <= v - 1 < Pow2(j + 1) && j < bits
    ensures IsLeastExponent(v, j + 1)
    ensures j + 1 == bits <==> v > Pow2(bits - 1)
    ensures Increment(Pow2(j + 1) - 1, bits) == if j + 1 < bits then Pow2(j + 1) else 0
  {
    forall i | 1 <= i < j + 1
      ensures Pow2(i) < v
    {
      Pow2Monotone(i, j);
    }
    if j + 1 < bits {
      Pow2Monotone(j + 1, bits - 1);
    }
  }

  /** Masking with capacity - 1 is the remainder by the capacity, for every accepted request. */
  lemma MaskedPosition(v: nat, bits: nat, pos: nat)
    requires v < Pow2(bits) && bits >= 2 && v <= Pow2(bits - 1)
    ensures RoundUpPowerOf2(v, bits) >= 2 && RoundUpPowerOf2(v, bits) >= v
    ensures And(pos, RoundUpPowerOf2(v, bits) - 1) == pos % RoundUpPowerOf2(v, bits)
  {
    var k := RoundsUp(v, bits);
    Pow2Monotone(1, k);
    MaskIsRemainder(pos, k);
  }
}
