/** Unsigned machine words as natural numbers: the C operators the routing code uses, defined bit by bit. */
module Bits {

  const TWO16: nat := 0x1_0000
  const TWO32: nat := 0x1_0000_0000

  type U8 = x: nat | x < 0x100
  type U16 = x: nat | x < TWO16
  type U32 = x: nat | x < TWO32

  function Pow2(k: nat): (p: nat)
    ensures p >= 1
  {
    if k == 0 then 1 else 2 * Pow2(k - 1)
  }

  lemma Pow2Of32()
    ensures Pow2(32) == TWO32 && Pow2(31) == 0x8000_0000 && Pow2(2) == 4
  {
    assert Pow2(4) == 16;
    assert Pow2(8) == 256;
    assert Pow2(12) == 0x1000;
    assert Pow2(16) == 0x1_0000;
    assert Pow2(20) == 0x10_0000;
    assert Pow2(24) == 0x100_0000;
    assert Pow2(28) == 0x1000_0000;
  }

  lemma Pow2Monotone(a: nat, b: nat)
    requires a <= b
    ensures Pow2(a) <= Pow2(b) && (a < b ==> Pow2(a) < Pow2(b))
  {
    if a < b { Pow2Monotone(a, b - 1); }
  }

  /** Bitwise `&`. */
  function And(a: nat, b: nat): (r: nat)
    ensures r <= a && r <= b
  {
    if a == 0 || b == 0 then 0 else (if a % 2 == 1 && b % 2 == 1 then 1 else 0) + 2 * And(a / 2, b / 2)
  }

  /** Bitwise `|`. */
  function Or(a: nat, b: nat): nat
  {
    if a == 0 && b == 0 then 0 else (if a % 2 == 1 || b % 2 == 1 then 1 else 0) + 2 * Or(a / 2, b / 2)
  }

  /** Bitwise `~` on 32 bits. */
  function Not32(a: U32): U32 {
    TWO32 - 1 - a
  }

  lemma ModSmall(x: nat)
    requires x < TWO32
    ensures x % TWO32 == x
  {}

  /** `n << k` on 32 bits. */
  function Shl32(n: U32, k: nat): U32
    decreases k
  {
    if k == 0 then n else Shl32((2 * n) % TWO32, k - 1)
  }

  /** n * 2^k, by doubling, so that no product of two variables is needed. */
  function Scale(n: nat, k: nat): (r: nat)
    ensures r >= n
  {
    if k == 0 then n else 2 * Scale(n, k - 1)
  }

  lemma {:induction false} ScaleDouble(n: nat, k: nat)
    ensures Scale(2 * n, k) == 2 * Scale(n, k)
  {
    if k > 0 { ScaleDouble(n, k - 1); }
  }

  lemma {:induction false} ScaleSum(a: nat, b: nat, k: nat)
    ensures Scale(a + b, k) == Scale(a, k) + Scale(b, k)
  {
    if k > 0 { ScaleSum(a, b, k - 1); }
  }

  lemma {:induction false} ScalePow2(a: nat, k: nat)
    ensures Scale(Pow2(a), k) == Pow2(a + k)
  {
    if k > 0 { ScalePow2(a, k - 1); }
  }

  lemma {:induction false} ScaleIsAligned(n: nat, k: nat)
    ensures Down(Scale(n, k), k) == Scale(n, k)
  {
    if k > 0 { ScaleIsAligned(n, k - 1); }
  }

  /** A shift that loses no bit multiplies. */
  lemma {:induction false} ShlScales(n: U32, k: nat)
    requires Scale(n, k) < TWO32
    ensures Shl32(n, k) == Scale(n, k)
    decreases k
  {
    if k > 0 {
      ScaleDouble(n, k - 1);
      ModSmall(2 * n);
      ShlScales(2 * n, k - 1);
    }
  }

  /** `x` with its low `k` bits cleared. */
  function Down(x: nat, k: nat): nat {
    if k == 0 then x else 2 * Down(x / 2, k - 1)
  }

  lemma {:induction false} DownBounds(x: nat, k: nat)
    ensures Down(x, k) <= x < Down(x, k) + Pow2(k)
    ensures Down(Down(x, k), k) == Down(x, k)
  {
    if k > 0 { DownBounds(x / 2, k - 1); }
  }

  /** Clearing low bits lands on `a` exactly in the interval of length 2^k that starts at `a`. */
  lemma {:induction false} DownIsInterval(x: nat, a: nat, k: nat)
    requires Down(a, k) == a
    ensures Down(x, k) == a <==> a <= x < a + Pow2(k)
  {
    if k > 0 { DownIsInterval(x / 2, a / 2, k - 1); }
  }

  lemma {:induction false} DownAdd(a: nat, b: nat, k: nat)
    requires Down(a, k) == a && Down(b, k) == b
    ensures Down(a + b, k) == a + b
  {
    if k > 0 { DownAdd(a / 2, b / 2, k - 1); }
  }

  lemma {:induction false} DownSub(a: nat, b: nat, k: nat)
    requires Down(a, k) == a && Down(b, k) == b && b <= a
    ensures Down(a - b, k) == a - b
  {
    if k > 0 { DownSub(a / 2, b / 2, k - 1); }
  }

  lemma {:induction false} DownWeaken(a: nat, k: nat, j: nat)
    requires Down(a, k) == a && j <= k
    ensures Down(a, j) == a
  {
    if j > 0 { DownWeaken(a / 2, k - 1, j - 1); }
  }

  lemma {:induction false} DownPow2(k: nat, j: nat)
    requires j <= k
    ensures Down(Pow2(k), j) == Pow2(k)
  {
    if j > 0 { DownPow2(k - 1, j - 1); }
  }

  /** An aligned number below an aligned bound is a whole block below it. */
  lemma {:induction false} AlignedGap(a: nat, b: nat, k: nat)
    requires Down(a, k) == a && Down(b, k) == b && a < b
    ensures a + Pow2(k) <= b
  {
    if k > 0 { AlignedGap(a / 2, b / 2, k - 1); }
  }

  lemma AndStep(a: nat, b: nat)
    ensures And(a, b) == (if a % 2 == 1 && b % 2 == 1 then 1 else 0) + 2 * And(a / 2, b / 2)
  {}

  /** A mask of leading ones without its last bit. */
  lemma PrefixHalves(width: nat, k: nat)
    requires 0 < width && k <= width
    ensures var mask := Pow2(width) - Pow2(k);
            && mask >= 0
            && mask % 2 == (if k == 0 then 1 else 0)
            && mask / 2 == Pow2(width - 1) - Pow2(if k == 0 then 0 else k - 1)
  {
    Pow2Monotone(k, width);
  }

  /** `&` with a mask of leading ones clears the other bits. */
  lemma {:induction false} AndWithPrefix(x: nat, width: nat, k: nat)
    requires k <= width && x < Pow2(width)
    ensures Pow2(k) <= Pow2(width) && And(x, Pow2(width) - Pow2(k)) == Down(x, k)
    decreases width
  {
    if width > 0 {
      PrefixHalves(width, k);
      AndStep(x, Pow2(width) - Pow2(k));
      AndWithPrefix(x / 2, width - 1, if k == 0 then 0 else k - 1);
    }
  }

  lemma {:induction false} DownOfSmall(x: nat, k: nat)
    ensures x < Pow2(k) ==> Down(x, k) == 0
  {
    if k > 0 { DownOfSmall(x / 2, k - 1); }
  }

  /** `|` of numbers with no bit in common is their sum. */
  lemma {:induction false} OrIsSum(a: nat, b: nat, k: nat)
    requires Down(a, k) == a && b < Pow2(k)
    ensures Or(a, b) == a + b
    decreases k, a
  {
    if k > 0 {
      OrIsSum(a / 2, b / 2, k - 1);
    } else if a > 0 {
      OrIsSum(a / 2, 0, 0);
    }
  }

  // ---------- trailing zeros ----------

  function TrailingZeros(n: nat): (z: nat)
    requires n > 0
  {
    if n % 2 == 1 then 0 else 1 + TrailingZeros(n / 2)
  }

  lemma {:induction false} TrailingZerosBound(n: nat, width: nat)
    requires 0 < n < Pow2(width)
    ensures TrailingZeros(n) < width
  {
    if n % 2 == 0 { TrailingZerosBound(n / 2, width - 1); }
  }

  lemma {:induction false} TrailingZerosOfPow2(k: nat)
    ensures TrailingZeros(Pow2(k)) == k
  {
    if k > 0 { TrailingZerosOfPow2(k - 1); }
  }

  /** A higher power of two does not change the trailing zeros. */
  lemma {:induction false} TrailingZerosAddPow2(x: nat, k: nat)
    requires 0 < x < Pow2(k)
    ensures TrailingZeros(x + Pow2(k)) == TrailingZeros(x)
  {
    if x % 2 == 0 { TrailingZerosAddPow2(x / 2, k - 1); }
  }

  lemma {:induction false} TrailingZerosOfPrefix(width: nat, k: nat)
    requires k < width
    ensures Pow2(k) < Pow2(width) && TrailingZeros(Pow2(width) - Pow2(k)) == k
  {
    Pow2Monotone(k, width);
    if k > 0 { TrailingZerosOfPrefix(width - 1, k - 1); }
  }

  lemma ShiftSmall(n: nat)
    requires 0 < n < Pow2(31)
    ensures TrailingZeros(n) < 31 && TrailingZeros(2 * n) == TrailingZeros(n) + 1
  {
    assert (2 * n) / 2 == n;
    TrailingZerosBound(n, 31);
  }

  lemma ShiftLarge(rest: nat)
    requires 0 < rest < Pow2(31)
    ensures TrailingZeros(rest + Pow2(31)) < 31
    ensures TrailingZeros(2 * rest) == TrailingZeros(rest + Pow2(31)) + 1
  {
    ShiftSmall(rest);
    TrailingZerosAddPow2(rest, 31);
  }

  /** `n <<= 1` on 32 bits either clears the word or adds one trailing zero. */
  lemma ShiftOnce(n: U32)
    requires n > 0
    ensures (2 * n) % TWO32 == 0 <==> TrailingZeros(n) == 31
    ensures (2 * n) % TWO32 > 0 ==> TrailingZeros((2 * n) % TWO32) == TrailingZeros(n) + 1
  {
    Pow2Of32();
    Double32(n);
    if n < Pow2(31) { ShiftSmall(n); }
    else if n > Pow2(31) { ShiftLarge(n - Pow2(31)); }
    else { TrailingZerosOfPow2(31); }
  }

  lemma Double32(n: U32)
    ensures (2 * n) % TWO32 == if n < 0x8000_0000 then 2 * n else 2 * (n - 0x8000_0000)
  {}
}
