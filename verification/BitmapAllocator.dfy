/** The bitmap allocator as the object that updates its words and hint in
    place, run by one thread at a time. */
module BitmapAllocators {
  import opened Options
  import opened Words
  import Bitmap
  import Geometry

  /** The models of the machine words of a bitmap. */
  ghost function Model(words: seq<bv64>): (m: seq<Word>)
    ensures |m| == |words| && forall i :: 0 <= i < |m| ==> m[i] == Bits(words[i])
  {
    seq(|words|, i requires 0 <= i < |words| => Bits(words[i]))
  }

  lemma ModelUpdate(words: seq<bv64>, w: nat, word: bv64)
    requires w < |words|
    ensures Model(words[w := word]) == Model(words)[w := Bits(word)]
  {
  }

  function Without(word: bv64, bit: nat): (r: bv64)
    requires bit < 64
    ensures Bits(r) == Bits(word) - {bit}
  {
    BitsClear(word, bit);
    word & !Mask(Position(bit))
  }

  function With(word: bv64, bit: nat): (r: bv64)
    requires bit < 64
    ensures Bits(r) == Bits(word) + {bit}
  {
    BitsSet(word, bit);
    word | Mask(Position(bit))
  }

  /** `__builtin_ctzll(~word)` for a word other than `FULL`: the lowest one of the
      complement, which is the lowest clear bit. */
  function FindFree(word: bv64): (bit: nat)
    requires word != FULL
    ensures bit < 64 && !IsFull(Bits(word)) && bit == FindFreeBit(Bits(word))
    ensures BvBit(!word, Position(bit)) && !word & (Mask(Position(bit)) - 1) == 0
  {
    BitsFull(word);
    FindFreeIsTrailingZeros(word);
    FindFreeBit(Bits(word))
  }

  class BitmapAllocator {
    const blockSize: nat
    const blockCount: nat
    const memory: nat           // address of the first block
    const bitmap: array<bv64>
    var hint: nat

    ghost function View(): Bitmap.State
      reads this, bitmap
    {
      Bitmap.State(Model(bitmap[..]), hint)
    }

    ghost predicate Valid()
      reads this, bitmap
    {
      blockSize > 0 && blockSize % 64 == 0 && Bitmap.Valid(View(), blockCount)
    }

    /** Block sizes are raised to 16 and rounded up to cache lines. */
    constructor (size: nat, count: nat, region: nat)
      ensures Valid() && fresh(bitmap) && View() == Bitmap.Fresh(count)
      ensures blockCount == count && memory == region
      ensures blockSize == Geometry.RoundUp(if size < 16 then 16 else size)
    {
      var words := new bv64[Bitmap.WordCount(count)];
      for i := 0 to words.Length
        invariant forall j :: 0 <= j < i ==> words[j] == 0
      {
        words[i] := 0;
      }
      BitsNone();
      assert Model(words[..]) == Bitmap.Fresh(count).words;
      blockSize := Geometry.RoundUp(if size < 16 then 16 else size);
      blockCount, memory, bitmap, hint := count, region, words, 0;
    }

    /** Without interference and spurious failure. */
    method CompareExchange(w: nat, expected: bv64, desired: bv64) returns (ok: bool)
      requires w < bitmap.Length
      modifies bitmap
      ensures ok <==> old(bitmap[w]) == expected
      ensures bitmap[..] == if ok then old(bitmap[..])[w := desired] else old(bitmap[..])
    {
      ok := bitmap[w] == expected;
      if ok {
        bitmap[w] := desired;
      }
    }

    /** `fetch_and` with all bits but one. */
    method FetchAndClear(w: nat, bit: nat)
      requires w < bitmap.Length && bit < 64
      modifies bitmap
      ensures bitmap[..] == old(bitmap[..])[w := Without(old(bitmap[w]), bit)]
    {
      bitmap[w] := Without(bitmap[w], bit);
    }

    /** The inner loop of `alloc`: claims the lowest clear bit of word `w`. */
    method ClaimIn(w: nat) returns (bit: nat)
      requires w < bitmap.Length && bitmap[w] != FULL
      modifies bitmap
      ensures !IsFull(Bits(old(bitmap[w]))) && bit == FindFreeBit(Bits(old(bitmap[w])))
      ensures Model(bitmap[..]) == Bitmap.Claim(Model(old(bitmap[..])), w, bit)
    {
      var word := bitmap[w];
      var claimed := false;
      bit := FindFree(word);
      assert !IsFull(Bits(word));
      while !claimed
        invariant !claimed ==> bitmap[..] == old(bitmap[..]) && word == bitmap[w]
        invariant bit == FindFreeBit(Bits(old(bitmap[w])))
        invariant claimed ==> Model(bitmap[..]) == Bitmap.Claim(Model(old(bitmap[..])), w, bit)
        decreases !claimed
      {
        bit := FindFree(word);
        ModelUpdate(bitmap[..], w, With(word, bit));
        claimed := CompareExchange(w, word, With(word, bit));
      }
    }

    /** One probe that met a word with a clear bit. */
    method TryWord(w: nat) returns (index: Option<nat>)
      requires w < bitmap.Length && bitmap[w] != FULL
      modifies this`hint, bitmap
      ensures !IsFull(Bits(old(bitmap[w])))
      ensures Bitmap.Grant(index, View()) == Bitmap.ClaimLowest(old(View()), blockCount, w)
    {
      ghost var before := Model(bitmap[..]);
      var bit := ClaimIn(w);
      if w * WORD_BITS + bit >= blockCount {
        ModelUpdate(bitmap[..], w, Without(bitmap[w], bit));
        FetchAndClear(w, bit);
        assert before[w] + {bit} - {bit} == before[w];
        assert Model(bitmap[..]) == before;
        return None;
      }
      hint := w;
      return Some(w * WORD_BITS + bit);
    }

    /** Returns the address of a block, or null. */
    method Alloc() returns (block: Option<nat>)
      requires Valid()
      modifies this, bitmap
      ensures Valid()
      ensures var g := Bitmap.Alloc(old(View()), blockCount);
        && View() == g.state
        && block == match g.index
                    case None => None
                    case Some(i) => Some(Geometry.AddressOf(memory, blockSize, i))
    {
      Bitmap.AllocEffect(View(), blockCount);
      var start := hint;
      var probe := 0;
      while probe < bitmap.Length
        invariant probe <= bitmap.Length && View() == old(View())
        invariant Bitmap.FirstOpen(View().words, start, 0) == Bitmap.FirstOpen(View().words, start, probe)
      {
        Bitmap.ProbeIsModulo(start, probe, bitmap.Length);
        var w := (start + probe) % bitmap.Length;
        BitsFull(bitmap[w]);
        if bitmap[w] != FULL {
          var index := TryWord(w);
          return match index
                 case None => None
                 case Some(i) => Some(Geometry.AddressOf(memory, blockSize, i));
        }
        probe := probe + 1;
      }
      return None;
    }

    /** Frees the block that contains the address. */
    method Dealloc(p: nat)
      requires Valid() && memory <= p < memory + blockCount * blockSize
      modifies this, bitmap
      ensures Valid()
      ensures var i := Geometry.IndexAt(memory, blockSize, p);
        i < blockCount && View() == Bitmap.Dealloc(old(View()), i)
    {
      var index := (p - memory) / blockSize;
      Geometry.IndexInRange(memory, blockSize, blockCount, p);
      Bitmap.DeallocEffect(View(), blockCount, index);
      var w := index / WORD_BITS;
      ModelUpdate(bitmap[..], w, Without(bitmap[w], index % WORD_BITS));
      FetchAndClear(w, index % WORD_BITS);
      hint := w;
    }
  }
}
