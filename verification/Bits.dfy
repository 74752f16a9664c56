/** Bit utilities on words of any width: a word is a natural number below a power of two, and the
    bitwise operators are defined bit by bit. */
module Bits {
  function Pow2(n: nat): (r: nat)
    ensures r > 0
  {
    if n == 0 then 1 else 2 * Pow2(n - 1)
  }

  function And(x: nat, y: nat): nat {
    if x == 0 || y == 0 then 0
    else 2 * And(x / 2, y / 2) + (if x % 2 == 1 && y % 2 == 1 then 1 else 0)
  }

  function Or(x: nat, y: nat): nat {
    if x == 0 then y else if y == 0 then x
    else 2 * Or(x / 2, y / 2) + (if x % 2 == 1 || y % 2 == 1 then 1 else 0)
  }

  /** `~x` on words of `width` bits. */
  function Not(width: nat, x: nat): nat
    requires x < Pow2(width)
  {
    Pow2(width) - 1 - x
  }

  // ---------- Powers of two and alignment ----------

  predicate IsPowerOfTwo(value: int) {
    value > 0 && And(value, value - 1) == 0
  }

  lemma {:induction false} AndSelf(x: nat)
    ensures And(x, x) == x
  {
    if x > 0 {
      AndSelf(x / 2);
    }
  }

  /** The test holds of powers of two and of nothing else. */
  lemma {:induction false} PowerOfTwoTest(value: int)
    ensures IsPowerOfTwo(value) <==> exists k: nat :: value == Pow2(k)
  {
    if value == 1 {
      assert value == Pow2(0);
    } else if value > 1 && value % 2 == 1 {
      AndSelf(value / 2);
      assert And(value, value - 1) == 2 * And(value / 2, value / 2);
      assert forall k: nat :: k > 0 ==> Pow2(k) == 2 * Pow2(k - 1);
    } else if value > 1 {
      PowerOfTwoTest(value / 2);
      HalfOfPower(value);
      assert And(value, value - 1) == 2 * And(value / 2, value / 2 - 1);
    }
  }

  lemma {:induction false} HalfOfPower(value: nat)
    requires value > 1 && value % 2 == 0
    ensures (exists k: nat :: value == Pow2(k)) <==> (exists k: nat :: value / 2 == Pow2(k))
  {
    if exists k: nat :: value / 2 == Pow2(k) {
      var k: nat :| value / 2 == Pow2(k);
      assert value == Pow2(k + 1);
    }
    if exists k: nat :: value == Pow2(k) {
      var k: nat :| value == Pow2(k);
      assert value / 2 == Pow2(k - 1);
    }
  }

  lemma {:induction false} Pow2Monotone(a: nat, b: nat)
    requires a <= b
    ensures Pow2(a) <= Pow2(b)
  {
    if a < b {
      Pow2Monotone(a, b - 1);
    }
  }

  lemma {:induction false} AndWithEven(x: nat, h: nat)
    ensures And(x, 2 * h) == 2 * And(x / 2, h)
  {
  }

  lemma {:induction false} AndWithOdd(x: nat, h: nat)
    ensures And(x, 2 * h + 1) == 2 * And(x / 2, h) + x % 2
  {
  }

  lemma {:induction false} FullMask(width: nat, x: nat)
    requires x < Pow2(width)
    ensures And(x, Pow2(width) - 1) == x
  {
    if width > 0 {
      FullMask(width - 1, x / 2);
      AndWithOdd(x, Pow2(width - 1) - 1);
    }
  }

  /** Clearing the low `k` bits. */
  lemma {:induction false} ClearLowBits(width: nat, x: nat, k: nat)
    requires k <= width && x < Pow2(width)
    ensures Pow2(k) <= Pow2(width)
    ensures And(x, Pow2(width) - Pow2(k)) == x - x % Pow2(k)
  {
    Pow2Monotone(k, width);
    if k == 0 {
      FullMask(width, x);
    } else {
      ClearLowBits(width - 1, x / 2, k - 1);
      AndWithEven(x, Pow2(width - 1) - Pow2(k - 1));
      HalveTwice(x, k);
      assert Pow2(width) - Pow2(k) == 2 * (Pow2(width - 1) - Pow2(k - 1));
    }
  }

  lemma {:induction false} MultipleAway(d: int, k: int)
    requires d > 0
    ensures k >= 1 ==> d * k >= d
    ensures k <= -1 ==> d * k <= -d
  {
    if k >= 1 {
      assert d * k == d * (k - 1) + d && d * (k - 1) >= 0;
    } else if k <= -1 {
      assert d * k == d * (k + 1) - d && d * (k + 1) <= 0;
    }
  }

  lemma {:induction false} ModUnique(x: int, d: int, q: int, r: int)
    requires d > 0 && x == d * q + r && 0 <= r < d
    ensures x / d == q && x % d == r
  {
    assert x == d * (x / d) + x % d;
    assert d * (x / d - q) == r - x % d;
    MultipleAway(d, x / d - q);
  }

  function AlignDown(width: nat, size: nat, alignment: nat): nat
    requires 0 < alignment < Pow2(width)
  {
    And(size, Not(width, alignment - 1))
  }

  function AlignUp(width: nat, size: nat, alignment: nat): nat
    requires 0 < alignment < Pow2(width)
  {
    And((size + alignment - 1) % Pow2(width), Not(width, alignment - 1))
  }

  lemma {:induction false} DownToMultiple(x: int, d: int)
    requires d > 0
    ensures (x - x % d) % d == 0
  {
    assert x == d * (x / d) + x % d;
    ModUnique(x - x % d, d, x / d, 0);
  }

  /** The largest multiple of the alignment that is not above the size. */
  lemma {:induction false} AlignDownNearest(width: nat, size: nat, alignment: nat)
    requires 0 < alignment < Pow2(width) && size < Pow2(width) && IsPowerOfTwo(alignment)
    ensures var r := AlignDown(width, size, alignment);
            r % alignment == 0 && r <= size < r + alignment
  {
    PowerOfTwoTest(alignment);
    var k: nat :| alignment == Pow2(k);
    if k > width {
      Pow2Monotone(width, k);
    }
    ClearLowBits(width, size, k);
    DownToMultiple(size, alignment);
  }

  /** The smallest multiple of the alignment that is not below the size, if and only if the sum does
      not overflow the word; otherwise zero. */
  lemma {:induction false} AlignUpNearest(width: nat, size: nat, alignment: nat)
    requires 0 < alignment < Pow2(width) && size < Pow2(width) && IsPowerOfTwo(alignment)
    ensures var r := AlignUp(width, size, alignment);
            && r % alignment == 0 && (size <= r < size + alignment <==> size + alignment - 1 < Pow2(width))
            && (size + alignment - 1 >= Pow2(width) ==> r == 0)
  {
    var sum := size + alignment - 1;
    if sum < Pow2(width) {
      ModUnique(sum, Pow2(width), 0, sum);
    } else {
      ModUnique(sum, Pow2(width), 1, sum - Pow2(width));
    }
    AlignDownNearest(width, sum % Pow2(width), alignment);
    if sum >= Pow2(width) {
      SmallMultiple(AlignUp(width, size, alignment), alignment);
    }
  }

  lemma {:induction false} SmallMultiple(r: nat, d: int)
    requires r < d && r % d == 0
    ensures r == 0
  {
    ModUnique(r, d, 0, r);
  }

  /** The largest number of any word is not rounded up to a multiple of two, but to zero. */
  lemma {:induction false} AlignUpOverflows(width: nat)
    requires width >= 2
    ensures AlignUp(width, Pow2(width) - 1, 2) == 0
  {
    Pow2Monotone(2, width);
    assert And(2, 1) == 0;
    AlignUpNearest(width, Pow2(width) - 1, 2);
  }

  // ---------- Zero counts and logarithms ----------

  /** `_BitScanReverse`: the position of the highest bit set. */
  function HighBit(x: nat): (r: nat)
    requires x > 0
    ensures Pow2(r) <= x < Pow2(r + 1)
  {
    if x == 1 then 0 else HighBit(x / 2) + 1
  }

  /** `_BitScanForward`: the position of the lowest bit set. */
  function LowBit(x: nat): nat
    requires x > 0
  {
    if x % 2 == 1 then 0 else LowBit(x / 2) + 1
  }

  /** That bit is set and those below it are not. */
  lemma {:induction false} LowBitPosition(x: nat)
    requires x > 0
    ensures x % Pow2(LowBit(x)) == 0 && (x / Pow2(LowBit(x))) % 2 == 1
  {
    if x % 2 == 0 {
      LowBitPosition(x / 2);
      HalveTwice(x, LowBit(x));
    }
  }

  lemma {:induction false} HighBitUnique(x: nat, r: nat)
    requires Pow2(r) <= x < Pow2(r + 1)
    ensures HighBit(x) == r
  {
    if HighBit(x) < r {
      Pow2Monotone(HighBit(x) + 1, r);
    } else if r < HighBit(x) {
      Pow2Monotone(r + 1, HighBit(x));
    }
  }

  function CountLeadingZeros(width: nat, x: nat): int {
    if x == 0 then width else width - 1 - HighBit(x)
  }

  function CountTrailingZeros(width: nat, x: nat): int {
    if x == 0 then width else LowBit(x)
  }

  /** There are as many zeros below the lowest bit set, and above the highest, as the counts say; zero has
      nothing but zeros. */
  lemma {:induction false} ZeroCounts(width: nat, x: nat)
    requires x < Pow2(width)
    ensures x == 0 ==> CountTrailingZeros(width, x) == CountLeadingZeros(width, x) == width
    ensures x > 0 ==>
              && 0 <= CountTrailingZeros(width, x) < width && 0 <= CountLeadingZeros(width, x) < width
              && x % Pow2(CountTrailingZeros(width, x)) == 0 && (x / Pow2(CountTrailingZeros(width, x))) % 2 == 1
              && Pow2(width - 1 - CountLeadingZeros(width, x)) <= x < Pow2(width - CountLeadingZeros(width, x))
  {
    if x > 0 {
      LowBitPosition(x);
      LowBitBelowHigh(x);
      if HighBit(x) >= width {
        Pow2Monotone(width, HighBit(x));
      }
    }
  }

  lemma {:induction false} LowBitBelowHigh(x: nat)
    requires x > 0
    ensures LowBit(x) <= HighBit(x)
  {
    if x % 2 == 0 {
      LowBitBelowHigh(x / 2);
    }
  }

  /** The form for targets without a scan instruction of the whole width (in the source, 64 bits in
      halves of 32): two halves of `half` bits, the upper one first. */
  function CountLeadingZerosInHalves(half: nat, x: nat): int {
    var left, right := x / Pow2(half), x % Pow2(half);
    if left > 0 then half - 1 - HighBit(left)
    else if right > 0 then 2 * half - 1 - HighBit(right) else 2 * half
  }

  function CountTrailingZerosInHalves(half: nat, x: nat): int {
    var left, right := x / Pow2(half), x % Pow2(half);
    if right > 0 then LowBit(right) else if left > 0 then half + LowBit(left) else 2 * half
  }

  /** The upper half of a number decides its highest bit. */
  lemma {:induction false} HighBitOfHalves(x: nat, n: nat)
    requires x / Pow2(n) > 0
    ensures HighBit(x) == HighBit(x / Pow2(n)) + n
  {
    if n > 0 {
      HalveTwice(x, n);
      HighBitOfHalves(x / 2, n - 1);
    }
  }

  lemma {:induction false} HalveTwice(x: nat, n: nat)
    requires n > 0
    ensures x / Pow2(n) == (x / 2) / Pow2(n - 1)
    ensures x % Pow2(n) == 2 * ((x / 2) % Pow2(n - 1)) + x % 2
  {
    var p := Pow2(n - 1);
    var q, r := (x / 2) / p, (x / 2) % p;
    assert x / 2 == p * q + r;
    assert x == (2 * p) * q + (2 * r + x % 2);
    ModUnique(x, 2 * p, q, 2 * r + x % 2);
  }

  lemma {:induction false} LowBitOfHalves(x: nat, n: nat)
    requires x > 0
    ensures x % Pow2(n) != 0 ==> LowBit(x) == LowBit(x % Pow2(n))
    ensures x % Pow2(n) == 0 ==> x / Pow2(n) > 0 && LowBit(x) == LowBit(x / Pow2(n)) + n
  {
    if n > 0 {
      HalveTwice(x, n);
      if x % 2 == 0 {
        LowBitOfHalves(x / 2, n - 1);
      }
    }
  }

  /** The forms on two halves agree with the whole-word counts on every word. */
  lemma {:induction false} HalvesAgree(half: nat, x: nat)
    ensures CountLeadingZerosInHalves(half, x) == CountLeadingZeros(2 * half, x)
    ensures CountTrailingZerosInHalves(half, x) == CountTrailingZeros(2 * half, x)
  {
    if x == 0 {
      ModUnique(0, Pow2(half), 0, 0);
    } else {
      LowBitOfHalves(x, half);
      UpperHalf(x, half);
    }
  }

  lemma {:induction false} UpperHalf(x: nat, n: nat)
    requires x > 0
    ensures x / Pow2(n) == 0 ==> x % Pow2(n) == x
    ensures x / Pow2(n) > 0 ==> HighBit(x) == HighBit(x / Pow2(n)) + n
    ensures x / Pow2(n) >= 0
  {
    var q := x / Pow2(n);
    assert x == Pow2(n) * q + x % Pow2(n);
    if q > 0 {
      HighBitOfHalves(x, n);
    }
  }

  /** Defined in the source for a width of 32. */
  function Log2Floor(width: nat, n: nat): int {
    width - 1 - CountLeadingZeros(width, n)
  }

  /** `n - 1` wraps for 0, which is why that case starts from -1. */
  function Log2Ceiling(width: nat, n: nat): int {
    (if n != 0 then width else -1) - CountLeadingZeros(width, (n - 1) % Pow2(width))
  }

  /** The bounds that the source states, for every positive number of the width, and -1 for zero. */
  lemma {:induction false} LogarithmBounds(width: nat, n: nat)
    requires 0 < width && n < Pow2(width)
    ensures n > 0 ==> 0 <= Log2Floor(width, n) && Pow2(Log2Floor(width, n)) <= n < Pow2(Log2Floor(width, n) + 1)
    ensures n > 0 ==> 0 <= Log2Ceiling(width, n) && n <= Pow2(Log2Ceiling(width, n))
                      && (Log2Ceiling(width, n) > 0 ==> Pow2(Log2Ceiling(width, n) - 1) < n)
    ensures n == 0 ==> Log2Floor(width, n) == -1 && Log2Ceiling(width, n) == -1
  {
    if n == 0 {
      ModUnique(-1, Pow2(width), -1, Pow2(width) - 1);
      HighBitUnique(Pow2(width) - 1, width - 1);
    } else {
      ModUnique(n - 1, Pow2(width), 0, n - 1);
    }
  }

  // ---------- Masks ----------

  /** Masking with `2^k - 1` keeps the low `k` bits. */
  lemma {:induction false} AndLowMask(x: nat, k: nat)
    ensures And(x, Pow2(k) - 1) == x % Pow2(k)
  {
    if k == 0 {
      ModUnique(x, 1, x, 0);
    } else if x == 0 {
      ModUnique(0, Pow2(k), 0, 0);
    } else {
      AndLowMask(x / 2, k - 1);
      HalveTwice(x, k);
      assert (Pow2(k) - 1) / 2 == Pow2(k - 1) - 1 && (Pow2(k) - 1) % 2 == 1;
    }
  }

  /** Joining bits that do not overlap is addition. */
  lemma {:induction false} OrDisjoint(x: nat, y: nat, k: nat)
    requires x % Pow2(k) == 0 && y < Pow2(k)
    ensures Or(x, y) == x + y
  {
    if k > 0 && x > 0 && y > 0 {
      HalveTwice(x, k);
      OrDisjoint(x / 2, y / 2, k - 1);
    }
  }
}
