// Powers of two as in lib/libcds/cds/int_algo.h, on unbounded naturals.

module IntAlgo {

  function Pow2(k: nat): (p: nat)
    ensures p > 0
  {
    if k == 0 then 1 else 2 * Pow2(k - 1)
  }

  // The bitwise operator &.
  function BitAnd(x: nat, y: nat): nat {
    if x == 0 || y == 0 then 0
    else 2 * BitAnd(x / 2, y / 2) + (if x % 2 == 1 && y % 2 == 1 then 1 else 0)
  }

  // MSBnz: the number of the highest set bit.
  function HighestBit(n: nat): nat
    requires n > 0
  {
    if n == 1 then 0 else 1 + HighestBit(n / 2)
  }

  function Log2Floor(n: nat): nat { if n != 0 then HighestBit(n) else 0 }

  function Log2Ceil(n: nat): nat {
    var i := Log2Floor(n);
    if Pow2(i) < n then i + 1 else i
  }

  function Ceil2(n: nat): nat { Pow2(Log2Ceil(n)) }

  predicate IsPower2(n: nat) {
    n != 0 && BitAnd(n, n - 1) == 0
  }

  lemma {:induction false} Log2FloorBounds(n: nat)
    requires n > 0
    ensures Pow2(Log2Floor(n)) <= n < Pow2(Log2Floor(n) + 1)
  {
    if n > 1 {
      Log2FloorBounds(n / 2);
    }
  }

  lemma {:induction false} Pow2Monotone(i: nat, j: nat)
    requires i <= j
    ensures Pow2(i) <= Pow2(j)
  {
    if i < j { Pow2Monotone(i, j - 1); }
  }

  // ceil2 is the least power of two that is not below n.
  lemma Ceil2Least(n: nat, k: nat)
    requires n > 0 && n <= Pow2(k)
    ensures n <= Ceil2(n) <= Pow2(k)
    ensures IsPower2(Ceil2(n))
  {
    Log2FloorBounds(n);
    var i := Log2Floor(n);
    if k <= i {
      Pow2Monotone(k, i);
      if k < i { Pow2Monotone(k + 1, i); }
    } else {
      Pow2Monotone(i + 1, k);
    }
    PowerIsPower2(Log2Ceil(n));
  }

  // The shift 1 << i of log2ceil stays inside a 32-bit int for n below 2^31.
  lemma ShiftInRange(n: nat)
    requires 0 < n < 0x8000_0000
    ensures Log2Floor(n) <= 30 && Log2Ceil(n) <= 31
  {
    Log2FloorBounds(n);
    assert Pow2(31) == 0x8000_0000 by { Pow2Of31(); }
    if Log2Floor(n) > 30 { Pow2Monotone(31, Log2Floor(n)); }
  }

  lemma Pow2Of31()
    ensures Pow2(31) == 0x8000_0000
  {
    assert Pow2(8) == 256 by { assert Pow2(4) == 16; }
    Pow2Sum(8, 8);
    Pow2Sum(16, 8);
    Pow2Sum(24, 7);
    assert Pow2(7) == 128;
  }

  lemma {:induction false} Pow2Sum(i: nat, j: nat)
    ensures Pow2(i + j) == Pow2(i) * Pow2(j)
  {
    if j > 0 {
      Pow2Sum(i, j - 1);
      assert Pow2(i + j) == 2 * Pow2(i + (j - 1));
    }
  }

  // A mask of k ones takes the remainder modulo 2^k.
  lemma {:induction false} MaskIsMod(h: nat, k: nat)
    ensures BitAnd(h, Pow2(k) - 1) == h % Pow2(k)
  {
    if k > 0 {
      MaskIsMod(h / 2, k - 1);
      var p := Pow2(k - 1);
      assert (2 * p - 1) / 2 == p - 1 && (2 * p - 1) % 2 == 1;
      HalfMod(h, p);
    }
  }

  lemma HalfMod(h: nat, p: nat)
    requires p > 0
    ensures h % (2 * p) == 2 * (h / 2 % p) + h % 2
  {
    var q, r := h / 2 / p, h / 2 % p;
    assert h == 2 * (q * p + r) + h % 2;
    ModUnique(h, 2 * p, q, 2 * r + h % 2);
  }

  lemma ModUnique(h: nat, d: nat, q: nat, r: nat)
    requires d > 0 && h == q * d + r && r < d
    ensures h % d == r
  {
    var x := h / d - q;
    assert x * d == r - h % d by { Distribute(h / d, q, d); }
    if x >= 1 { AtLeast(x, d); }
    if x <= -1 { AtLeast(-x, d); }
  }

  lemma Distribute(a: int, b: int, d: int)
    ensures (a - b) * d == a * d - b * d
  {
  }

  lemma AtLeast(x: int, d: int)
    requires x >= 1 && d > 0
    ensures x * d >= d && -x * d == -(x * d)
  {
  }

  lemma {:induction false} PowerIsPower2(k: nat)
    ensures IsPower2(Pow2(k))
  {
    if k > 0 {
      PowerIsPower2(k - 1);
      assert (Pow2(k) - 1) / 2 == Pow2(k - 1) - 1;
    }
  }

  // is_power2 tells the powers of two from all other numbers.
  lemma {:induction false} IsPower2Exactly(n: nat)
    ensures IsPower2(n) <==> exists k :: n == Pow2(k)
  {
    forall k: nat | n == Pow2(k) ensures IsPower2(n) { PowerIsPower2(k); }
    if IsPower2(n) {
      if n == 1 {
        assert n == Pow2(0);
      } else {
        OddIsNone(n);
        IsPower2Exactly(n / 2);
        var k: nat :| n / 2 == Pow2(k);
        assert n == Pow2(k + 1);
      }
    }
  }

  lemma OddIsNone(n: nat)
    requires IsPower2(n) && n > 1
    ensures n % 2 == 0 && IsPower2(n / 2)
  {
    if n % 2 == 1 {
      assert (n - 1) / 2 == n / 2;
      SelfAnd(n / 2);
    } else {
      assert (n - 1) / 2 == n / 2 - 1;
    }
  }

  lemma {:induction false} SelfAnd(x: nat)
    ensures BitAnd(x, x) == x
  {
    if x > 0 { SelfAnd(x / 2); }
  }
}
