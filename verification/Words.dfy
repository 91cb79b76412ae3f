/** 64-bit bitmap words. A word is modelled as the set of its one-bits; the
    lemmas at the end say that the machine operations of the source act on
    single bits the way the model does. */
module Words {

  const WORD_BITS: nat := 64

  /** The positions of the one-bits of a word. */
  type Word = w: set<nat> | forall i :: i in w ==> i < 64

  const EMPTY: Word := {}

  predicate IsFull(w: Word) { forall i :: 0 <= i < 64 ==> i in w }

  /** The lowest clear bit at or above `from`. */
  function LowestClear(w: Word, from: nat): (r: nat)
    requires exists i :: from <= i < 64 && i !in w
    ensures from <= r < 64 && r !in w
    ensures forall i :: from <= i < r ==> i in w
    decreases 64 - from
  {
    if from !in w then from else LowestClear(w, from + 1)
  }

  /** `find_free_bit`: trailing zeros of the complement of a word that is not full. */
  function FindFreeBit(w: Word): (r: nat)
    requires !IsFull(w)
    ensures r < 64 && r !in w
    ensures forall i :: 0 <= i < r ==> i in w
  {
    LowestClear(w, 0)
  }

  // ------------------------------------------------------------------
  // Machine words
  // ------------------------------------------------------------------

  const FULL: bv64 := 0xFFFF_FFFF_FFFF_FFFF

  /** `1ULL << i`. */
  function Mask(i: bv6): bv64 { 1 << i }

  predicate BvBit(w: bv64, i: bv6) { (w >> i) & 1 == 1 }

  lemma BvSet(w: bv64, i: bv6, j: bv6)
    ensures BvBit(w | Mask(i), j) == (BvBit(w, j) || i == j)
  {
  }

  lemma BvClear(w: bv64, i: bv6, j: bv6)
    ensures BvBit(w & !Mask(i), j) == (BvBit(w, j) && i != j)
  {
  }

  lemma BvSetAll(w: bv64, i: bv6)
    ensures forall j: bv6 :: BvBit(w | Mask(i), j) == (BvBit(w, j) || j == i)
  {
    forall j: bv6 ensures BvBit(w | Mask(i), j) == (BvBit(w, j) || j == i) {
      BvSet(w, i, j);
    }
  }

  lemma BvClearAll(w: bv64, i: bv6)
    ensures forall j: bv6 :: BvBit(w & !Mask(i), j) == (BvBit(w, j) && j != i)
  {
    forall j: bv6 ensures BvBit(w & !Mask(i), j) == (BvBit(w, j) && j != i) {
      BvClear(w, i, j);
    }
  }

  lemma BvFull(i: bv6)
    ensures BvBit(FULL, i)
  {
  }

  lemma BvXor(w: bv64, v: bv64, i: bv6)
    ensures BvBit(w ^ v, i) == (BvBit(w, i) != BvBit(v, i))
  {
  }

  lemma BvComplement(w: bv64, i: bv6)
    ensures BvBit(!w, i) == !BvBit(w, i)
  {
  }

  lemma BvAnd(w: bv64, v: bv64, i: bv6)
    ensures BvBit(w & v, i) == (BvBit(w, i) && BvBit(v, i))
  {
  }

  /** `Mask(i) - 1` has ones exactly below position `i`. */
  lemma BvBelow(i: bv6, j: bv6)
    ensures BvBit(Mask(i) - 1, j) == (j < i)
  {
  }

  /** Binary search for a one-bit, by halving the part that is not zero. */
  lemma SomeBit(x: bv64) returns (i: bv6)
    requires x != 0
    ensures BvBit(x, i)
  {
    i := if x & 0xFFFF_FFFF != 0 then 0 else 32;
    assert (x >> i) & 0xFFFF_FFFF != 0;
    i := if (x >> i) & 0xFFFF != 0 then i else i + 16;
    assert (x >> i) & 0xFFFF != 0;
    i := if (x >> i) & 0xFF != 0 then i else i + 8;
    assert (x >> i) & 0xFF != 0;
    i := if (x >> i) & 0xF != 0 then i else i + 4;
    assert (x >> i) & 0xF != 0;
    i := if (x >> i) & 3 != 0 then i else i + 2;
    assert (x >> i) & 3 != 0;
    i := if (x >> i) & 1 != 0 then i else i + 1;
  }

  /** Words with the same bits are equal. */
  lemma BvExtensional(w: bv64, v: bv64)
    requires forall i: bv6 :: BvBit(w, i) == BvBit(v, i)
    ensures w == v
  {
    if w ^ v != 0 {
      var i := SomeBit(w ^ v);
      BvXor(w, v, i);
    }
  }

  // ------------------------------------------------------------------
  // Machine words and their models
  // ------------------------------------------------------------------

  function Position(i: nat): bv6
    requires i < 64
  {
    i as bv6
  }

  lemma PositionOnto(p: bv6) returns (i: nat)
    ensures i < 64 && Position(i) == p
  {
    i := p as nat;
  }

  lemma OrderAsNat(p: bv6, q: bv6)
    ensures p < q <==> (p as nat) < (q as nat)
  {
  }

  lemma PositionBack(i: nat)
    requires i < 64
    ensures Position(i) as nat == i
  {
  }

  lemma PositionInjective(i: nat, j: nat)
    requires i < 64 && j < 64
    ensures Position(i) == Position(j) <==> i == j
  {
    PositionBack(i);
    PositionBack(j);
  }

  predicate BitOf(w: bv64, i: nat)
    requires i < 64
  {
    BvBit(w, Position(i))
  }

  /** The model of a machine word. */
  function Bits(w: bv64): Word { set i | 0 <= i < 64 && BitOf(w, i) }

  lemma BitAdded(w: bv64, v: bv64, i: nat)
    requires i < 64 && forall p: bv6 :: BvBit(v, p) == (BvBit(w, p) || p == Position(i))
    ensures Bits(v) == Bits(w) + {i}
  {
    forall j | 0 <= j < 64 ensures BitOf(v, j) <==> BitOf(w, j) || i == j {
      PositionInjective(i, j);
    }
  }

  lemma BitRemoved(w: bv64, v: bv64, i: nat)
    requires i < 64 && forall p: bv6 :: BvBit(v, p) == (BvBit(w, p) && p != Position(i))
    ensures Bits(v) == Bits(w) - {i}
  {
    forall j | 0 <= j < 64 ensures BitOf(v, j) <==> BitOf(w, j) && i != j {
      PositionInjective(i, j);
    }
  }

  /** Setting a bit: `word | (1ULL << i)`. */
  lemma BitsSet(w: bv64, i: nat)
    requires i < 64
    ensures Bits(w | Mask(Position(i))) == Bits(w) + {i}
  {
    BvSetAll(w, Position(i));
    BitAdded(w, w | Mask(Position(i)), i);
  }

  /** Clearing a bit: `fetch_and(~(1ULL << i))`. */
  lemma BitsClear(w: bv64, i: nat)
    requires i < 64
    ensures Bits(w & !Mask(Position(i))) == Bits(w) - {i}
  {
    BvClearAll(w, Position(i));
    BitRemoved(w, w & !Mask(Position(i)), i);
  }

  /** The compare-exchange compares words, the model their bits. */
  lemma BitsEqual(w: bv64, v: bv64)
    ensures Bits(w) == Bits(v) <==> w == v
  {
    if Bits(w) == Bits(v) {
      forall p: bv6 ensures BvBit(w, p) == BvBit(v, p) {
        var i := PositionOnto(p);
        assert i in Bits(w) <==> i in Bits(v);
      }
      BvExtensional(w, v);
    }
  }

  lemma BvZero(i: bv6)
    ensures !BvBit(0, i)
  {
  }

  lemma BitsNone()
    ensures Bits(0) == EMPTY
  {
    forall i | 0 <= i < 64 ensures !BitOf(0, i) {
      BvZero(Position(i));
    }
  }

  /** The test against `FULL`. */
  lemma BitsFull(w: bv64)
    ensures IsFull(Bits(w)) <==> w == FULL
  {
    forall i | 0 <= i < 64 ensures BitOf(FULL, i) {
      BvFull(Position(i));
    }
    if IsFull(Bits(w)) {
      assert Bits(w) == Bits(FULL);
      BitsEqual(w, FULL);
    }
  }

  lemma PositionBelow(q: bv6, i: nat) returns (j: nat)
    requires i < 64 && q < Position(i)
    ensures j < i && Position(j) == q
  {
    j := PositionOnto(q);
    PositionBack(i);
    PositionBack(j);
    OrderAsNat(q, Position(i));
  }

  lemma SetBelowFree(w: bv64, q: bv6)
    requires !IsFull(Bits(w)) && q < Position(FindFreeBit(Bits(w)))
    ensures BvBit(w, q)
  {
    var j := PositionBelow(q, FindFreeBit(Bits(w)));
    assert j in Bits(w);
  }

  /** `__builtin_ctzll(~word)`: the position of the lowest one of the complement
      is that of the lowest clear bit. */
  lemma FindFreeIsTrailingZeros(w: bv64)
    requires !IsFull(Bits(w))
    ensures var p := Position(FindFreeBit(Bits(w))); BvBit(!w, p) && !w & (Mask(p) - 1) == 0
  {
    var p := Position(FindFreeBit(Bits(w)));
    assert !BitOf(w, FindFreeBit(Bits(w)));
    BvComplement(w, p);
    forall q: bv6 | q < p ensures BvBit(w, q) {
      SetBelowFree(w, q);
    }
    NoneBelow(w, p);
  }

  /** A word with all ones below `p` has a complement with only zeros there. */
  lemma NoneBelow(w: bv64, p: bv6)
    requires forall q: bv6 :: q < p ==> BvBit(w, q)
    ensures !w & (Mask(p) - 1) == 0
  {
    if !w & (Mask(p) - 1) != 0 {
      var q := SomeBit(!w & (Mask(p) - 1));
      NotBelow(w, p, q);
    }
  }

  lemma NotBelow(w: bv64, p: bv6, q: bv6)
    requires BvBit(!w & (Mask(p) - 1), q)
    ensures q < p && !BvBit(w, q)
  {
    BvAnd(!w, Mask(p) - 1, q);
    BvBelow(p, q);
    BvComplement(w, q);
  }
}
