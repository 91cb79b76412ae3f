/** Sizes and addresses of blocks. */
module Geometry {

  /** Divide-and-multiply rounding of the bitmap allocators. */
  function RoundUp(n: nat): nat { ((n + 63) / 64) * 64 }

  /** Bit-mask rounding of the free-list allocators, on machine words. */
  function AlignUp(v: bv64): bv64 { (v + 63) & !63 }

  const LAST_ALIGNABLE: bv64 := 0xFFFF_FFFF_FFFF_FFC0

  /** `RoundUp` is the least multiple of 64 that is not below its argument. */
  lemma RoundUpLeast(n: nat, m: nat)
    ensures RoundUp(n) % 64 == 0 && n <= RoundUp(n) < n + 64
    ensures m % 64 == 0 && m >= n ==> m >= RoundUp(n)
  {
  }

  /** The bit mask agrees with divide-and-multiply for every size whose
      rounding does not overflow. */
  lemma AlignUpAgrees(v: bv64)
    requires v <= LAST_ALIGNABLE
    ensures AlignUp(v) == ((v + 63) / 64) * 64
    ensures AlignUp(v) % 64 == 0 && v <= AlignUp(v) && AlignUp(v) - v < 64
  {
  }

  /** The largest size whose rounding does not overflow. */
  const LAST_SIZE: nat := 0xFFFF_FFFF_FFFF_FFC0

  /** The bit-mask rounding on natural numbers, with the wrap-around of the sum
      written out. */
  function MaskUp(n: nat): nat {
    var sum := (n + 63) % 0x1_0000_0000_0000_0000;
    sum - sum % 64
  }

  /** The mask takes off the remainder, so `MaskUp` is the same formula. */
  lemma AlignUpFormula(v: bv64)
    ensures AlignUp(v) == (v + 63) - (v + 63) % 64
  {
  }

  /** `MaskUp` rounds exactly as long as the sum does not wrap around. */
  lemma MaskUpAgrees(n: nat)
    requires n < 0x1_0000_0000_0000_0000
    ensures MaskUp(n) == RoundUp(n) <==> n <= LAST_SIZE
  {
  }

  predicate Fits(size: nat, least: nat, k: nat) { k % 64 == 0 && size <= k && least <= k }

  /** The block size of a pool: the least multiple of 64 that fits the requested
      size and the least size. */
  lemma BlockSizeLeast(size: nat, least: nat)
    requires size <= LAST_SIZE && 0 < least <= LAST_SIZE
    ensures var k := MaskUp(if size < least then least else size);
      0 < k && Fits(size, least, k) && forall j :: Fits(size, least, j) ==> k <= j
  {
    var n := if size < least then least else size;
    MaskUpAgrees(n);
    forall j | Fits(size, least, j) ensures MaskUp(n) <= j {
      RoundUpLeast(n, j);
    }
    RoundUpLeast(n, 0);
  }

  /** Past that size the sum wraps around and the result is below its argument. */
  lemma AlignUpWraps(v: bv64)
    ensures AlignUp(v) >= v <==> v <= LAST_ALIGNABLE
  {
  }

  function AddressOf(base: nat, size: nat, i: nat): nat { base + i * size }

  function IndexAt(base: nat, size: nat, p: nat): nat
    requires size > 0 && base <= p
  {
    (p - base) / size
  }

  /** Every address inside block `i` leads back to `i`. */
  lemma IndexOfAddress(base: nat, size: nat, i: nat, d: nat)
    requires d < size
    ensures IndexAt(base, size, AddressOf(base, size, i) + d) == i
  {
    Quotient(size, i, d);
  }

  lemma Quotient(size: nat, i: nat, d: nat)
    requires d < size
    ensures (i * size + d) / size == i
  {
    var q := (i * size + d) / size;
    var r := (i * size + d) % size;
    assert i * size + d == size * q + r;
    if q < i {
      Scale(q + 1, i, size);
    } else if q > i {
      Scale(i + 1, q, size);
    }
  }

  lemma Scale(a: nat, b: nat, c: nat)
    requires a <= b
    ensures a * c <= b * c
  {
    assert b * c == a * c + (b - a) * c;
  }

  /** An address lies in block `i` exactly when its index is `i`. */
  lemma IndexBounds(base: nat, size: nat, p: nat)
    requires size > 0 && base <= p
    ensures var i := IndexAt(base, size, p);
      AddressOf(base, size, i) <= p < AddressOf(base, size, i) + size
  {
    var q := (p - base) / size;
    assert p - base == size * q + (p - base) % size;
    assert size * q == q * size;
  }

  lemma IndexInRange(base: nat, size: nat, count: nat, p: nat)
    requires size > 0 && base <= p < base + count * size
    ensures IndexAt(base, size, p) < count
  {
    IndexBounds(base, size, p);
    var i := IndexAt(base, size, p);
    if i >= count {
      Scale(count, i, size);
    }
  }

  /** Two blocks of a region of `count` blocks are disjoint and inside it. */
  lemma BlocksApart(base: nat, size: nat, count: nat, i: nat, j: nat)
    requires size > 0 && i < j < count
    ensures AddressOf(base, size, i) + size <= AddressOf(base, size, j)
    ensures AddressOf(base, size, j) + size <= base + count * size
  {
    Scale(i + 1, j, size);
    Scale(j + 1, count, size);
    assert i * size + size == (i + 1) * size && j * size + size == (j + 1) * size;
  }

  /** In a 64-aligned region with a 64-aligned block size every block is aligned. */
  lemma BlocksAligned(base: nat, size: nat, i: nat)
    requires base % 64 == 0 && size % 64 == 0
    ensures AddressOf(base, size, i) % 64 == 0
  {
    var b, s := base / 64, size / 64;
    assert base == 64 * b && size == 64 * s;
    assert i * size == 64 * (i * s);
    assert AddressOf(base, size, i) == 64 * (b + i * s);
  }
}
