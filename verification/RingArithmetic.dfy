/** Positions, masks and 64-bit wrap-around of the ring buffer.

    The ring turns a position into a slot index with a bitmask and compares
    positions with unsigned 64-bit subtraction. This module defines both on
    natural numbers and proves what the rest of the model relies on: for every
    capacity the configuration check accepts, masking is reduction modulo the
    capacity, is injective on a window of one capacity, and is blind to the
    wrap of 64-bit positions. */
module RingArithmetic {

  const U64: nat := 0x1_0000_0000_0000_0000

  /** Bitwise AND of two naturals, bit by bit from the least significant end. */
  function BitAnd(x: nat, y: nat): nat
  {
    if x == 0 || y == 0 then 0
    else 2 * BitAnd(x / 2, y / 2) + (if x % 2 == 1 && y % 2 == 1 then 1 else 0)
  }

  function Pow2(k: nat): (p: nat)
    ensures p >= 1
  {
    if k == 0 then 1 else 2 * Pow2(k - 1)
  }

  ghost predicate IsPow2(n: int)
  {
    exists k: nat :: n == Pow2(k)
  }

  /** check_psch_queue_capacity: positive, and no bit shared with its predecessor. */
  predicate CheckQueueCapacity(value: int)
  {
    value > 0 && BitAnd(value, value - 1) == 0
  }

  /** The slot index of a position: `position & (capacity - 1)`. */
  function Masked(pos: nat, capacity: nat): nat
    requires capacity > 0
  {
    BitAnd(pos, capacity - 1)
  }

  /** Unsigned 64-bit subtraction. */
  function Minus64(a: nat, b: nat): (r: nat)
    requires a < U64 && b < U64
    ensures r < U64
  {
    if a >= b then a - b else a + U64 - b
  }

  // ------------------------------------------------------------------
  // The accepted capacities
  // ------------------------------------------------------------------

  lemma {:induction false} BitAndSame(x: nat)
    ensures BitAnd(x, x) == x
  {
    if x > 0 { BitAndSame(x / 2); }
  }

  lemma {:induction false} Pow2Shares(k: nat)
    ensures BitAnd(Pow2(k), Pow2(k) - 1) == 0
  {
    if k > 0 {
      var h := Pow2(k - 1);
      assert Pow2(k) == 2 * h;
      assert (2 * h - 1) / 2 == h - 1 && (2 * h) % 2 == 0;
      if 2 * h - 1 != 0 { Pow2Shares(k - 1); }
    }
  }

  lemma {:induction false} SharesNothingIsPow2(n: nat)
    requires n > 0 && BitAnd(n, n - 1) == 0
    ensures IsPow2(n)
  {
    if n == 1 {
      assert n == Pow2(0);
    } else if n % 2 == 0 {
      assert (n - 1) / 2 == n / 2 - 1;
      SharesNothingIsPow2(n / 2);
      var k: nat :| n / 2 == Pow2(k);
      assert n == Pow2(k + 1);
    } else {
      assert (n - 1) / 2 == n / 2;
      BitAndSame(n / 2);
    }
  }

  /** The configuration check accepts exactly the powers of two. */
  lemma CheckedCapacity(value: int)
    ensures CheckQueueCapacity(value) <==> IsPow2(value)
  {
    if value > 0 {
      if BitAnd(value, value - 1) == 0 { SharesNothingIsPow2(value); }
      if IsPow2(value) {
        var k: nat :| value == Pow2(k);
        Pow2Shares(k);
      }
    }
  }

  // ------------------------------------------------------------------
  // Masking
  // ------------------------------------------------------------------

  lemma {:induction false} MaskPow2(x: nat, k: nat)
    ensures BitAnd(x, Pow2(k) - 1) == x % Pow2(k)
  {
    if k == 0 {
    } else if x == 0 {
      ModSmall(0, Pow2(k));
    } else {
      var h := Pow2(k - 1);
      assert Pow2(k) == 2 * h && Pow2(k) - 1 != 0;
      assert (2 * h - 1) / 2 == h - 1 && (2 * h - 1) % 2 == 1;
      MaskPow2(x / 2, k - 1);
      DoubleMod(x, h);
    }
  }

  lemma ModSmall(x: nat, m: nat)
    requires x < m
    ensures x % m == x
  {
  }

  lemma MulMonotone(a: nat, b: nat, m: nat)
    requires a <= b
    ensures a * m <= b * m
  {
  }

  lemma DivModUnique(x: nat, m: nat, q: nat, r: nat)
    requires r < m && x == q * m + r
    ensures x % m == r && x / m == q
  {
    var d := x / m;
    if d > q {
      MulMonotone(q + 1, d, m);
    } else if d < q {
      MulMonotone(d + 1, q, m);
    }
  }

  lemma ModApart(i: nat, j: nat, m: nat)
    requires i < j < i + m
    ensures i % m != j % m
  {
    var q, r, d := i / m, i % m, j - i;
    assert i == q * m + r;
    if r + d < m {
      DivModUnique(j, m, q, r + d);
    } else {
      assert (q + 1) * m == q * m + m;
      DivModUnique(j, m, q + 1, r + d - m);
    }
  }

  lemma DoubleMod(x: nat, h: nat)
    requires h > 0
    ensures x % (2 * h) == 2 * ((x / 2) % h) + x % 2
  {
    var q, r := (x / 2) / h, (x / 2) % h;
    assert x == 2 * (q * h + r) + x % 2;
    assert 2 * (q * h + r) == q * (2 * h) + 2 * r;
    DivModUnique(x, 2 * h, q, 2 * r + x % 2);
  }

  /** Masking with an accepted capacity is reduction modulo that capacity. */
  lemma MaskIsMod(pos: nat, capacity: nat)
    requires CheckQueueCapacity(capacity)
    ensures Masked(pos, capacity) == pos % capacity
    ensures Masked(pos, capacity) < capacity
  {
    CheckedCapacity(capacity);
    var k: nat :| capacity == Pow2(k);
    MaskPow2(pos, k);
  }

  /** Two different positions less than one capacity apart never share a slot. */
  lemma MaskInjective(i: nat, j: nat, capacity: nat)
    requires CheckQueueCapacity(capacity)
    requires i < j < i + capacity
    ensures Masked(i, capacity) != Masked(j, capacity)
  {
    MaskIsMod(i, capacity);
    MaskIsMod(j, capacity);
    ModApart(i, j, capacity);
  }

  lemma MulAssociates(x: nat, y: nat, z: nat)
    ensures x * (y * z) == (x * y) * z
  {
  }

  lemma {:induction false} Pow2Sum(a: nat, b: nat)
    ensures Pow2(a + b) == Pow2(a) * Pow2(b)
  {
    if a > 0 {
      Pow2Sum(a - 1, b);
      MulAssociates(2, Pow2(a - 1), Pow2(b));
    }
  }

  lemma {:induction false} Pow2Monotone(a: nat, b: nat)
    requires a <= b
    ensures Pow2(a) <= Pow2(b)
  {
    if a < b { Pow2Monotone(a, b - 1); }
  }

  lemma Pow2Of64()
    ensures Pow2(64) == U64
  {
    assert Pow2(4) == 0x10;
    Pow2Sum(4, 4);
    assert Pow2(8) == 0x100;
    Pow2Sum(8, 8);
    assert Pow2(16) == 0x1_0000;
    Pow2Sum(16, 16);
    assert Pow2(32) == 0x1_0000_0000;
    Pow2Sum(32, 32);
  }

  lemma MulDistributes(x: nat, y: nat, z: nat)
    ensures (x + y) * z == x * z + y * z
  {
  }

  lemma DivMod(x: nat, m: nat)
    requires m > 0
    ensures x == (x / m) * m + x % m && x % m < m
  {
  }

  lemma ModMod(x: nat, m: nat, n: nat, w: nat)
    requires m > 0 && n > 0 && w == n * m
    ensures (x % w) % m == x % m
  {
    var q, r := x / w, x % w;
    var t := r / m;
    DivMod(x, w);
    DivMod(r, m);
    MulAssociates(q, n, m);
    MulDistributes(q * n, t, m);
    DivModUnique(x, m, q * n + t, r % m);
  }

  /** A position stored as an unsigned 64-bit number selects the same slot as
      the unwrapped position: the wrap of head and tail is harmless. */
  lemma MaskWraps(pos: nat, capacity: nat)
    requires CheckQueueCapacity(capacity) && capacity <= U64
    ensures Masked(pos % U64, capacity) == Masked(pos, capacity)
  {
    CheckedCapacity(capacity);
    var k: nat :| capacity == Pow2(k);
    Pow2Of64();
    if k > 64 {
      Pow2Monotone(65, k);
    }
    Pow2Sum(64 - k, k);
    ModMod(pos, capacity, Pow2(64 - k), U64);
    MaskIsMod(pos % U64, capacity);
    MaskIsMod(pos, capacity);
  }

  // ------------------------------------------------------------------
  // Wrapped distances
  // ------------------------------------------------------------------

  /** Subtracting wrapped positions gives the true distance whenever that
      distance fits in 64 bits. */
  lemma WrappedDistance(a: nat, b: nat)
    requires b <= a < b + U64
    ensures Minus64(a % U64, b % U64) == a - b
  {
    var qa, qb := a / U64, b / U64;
    assert a == qa * U64 + a % U64 && b == qb * U64 + b % U64;
    assert qa == qb || qa == qb + 1;
  }

  lemma WrappedSuccessor(a: nat)
    ensures (a % U64 + 1) % U64 == (a + 1) % U64
  {
  }

  /** Wrapped positions less than 2^64 apart are equal only if the positions are. */
  lemma WrappedEqual(a: nat, b: nat)
    requires b <= a < b + U64
    ensures a % U64 == b % U64 <==> a == b
  {
    WrappedDistance(a, b);
  }

  lemma WrappedSum(a: nat, b: nat)
    ensures (a % U64 + b) % U64 == (a + b) % U64
  {
    var q, r := (a % U64 + b) / U64, (a % U64 + b) % U64;
    var d := a / U64;
    assert a + b == (d + q) * U64 + r;
    DivModUnique(a + b, U64, d + q, r);
  }

  lemma WrappedBoth(a: nat, b: nat)
    ensures (a + b) % U64 == (a % U64 + b % U64) % U64
  {
    WrappedSum(a, b);
    WrappedSum(b, a % U64);
  }

  /** Subtracting a later position from an earlier one wraps around. */
  lemma WrappedBehind(a: nat, b: nat)
    requires a < b
    ensures Minus64(a % U64, b % U64) == if (b - a) % U64 == 0 then 0 else U64 - (b - a) % U64
  {
    WrappedBoth(a, b - a);
    var x, d := a % U64, (b - a) % U64;
    if x + d < U64 {
      ModSmall(x + d, U64);
    } else {
      DivModUnique(x + d, U64, 1, x + d - U64);
    }
  }
}
