/** The bitmap allocator run by one thread at a time. `State` is the bitmap and
    the hint; `BitmapAllocator` is the object that updates them in place. */
module Bitmap {
  import opened Options
  import opened Words

  datatype State = State(words: seq<Word>, hint: nat)

  datatype Grant = Grant(index: Option<nat>, state: State)

  function WordCount(blocks: nat): nat { (blocks + 63) / 64 }

  predicate IsSet(words: seq<Word>, i: nat)
    requires i < 64 * |words|
  {
    i % 64 in words[i / 64]
  }

  /** Reachable states: hint in range, bits beyond the last block clear. */
  predicate Valid(s: State, blocks: nat) {
    && |s.words| == WordCount(blocks)
    && (if |s.words| == 0 then s.hint == 0 else s.hint < |s.words|)
    && (forall i :: blocks <= i < 64 * |s.words| ==> !IsSet(s.words, i))
  }

  function Fresh(blocks: nat): State {
    State(seq(WordCount(blocks), _ => EMPTY), 0)
  }

  /** The word visited at a probe: cyclic from the hint. */
  function ProbeAt(start: nat, probe: nat, count: nat): nat
    requires start < count && probe < count
  {
    if start + probe < count then start + probe else start + probe - count
  }

  lemma ProbeIsModulo(start: nat, probe: nat, count: nat)
    requires start < count && probe < count
    ensures ProbeAt(start, probe, count) == (start + probe) % count
  {
    if start + probe >= count {
      assert start + probe == count * 1 + (start + probe - count);
      assert (start + probe) % count == start + probe - count;
    }
  }

  /** The first word that is not full, from probe `probe` on. */
  function FirstOpen(words: seq<Word>, start: nat, probe: nat): (r: Option<nat>)
    requires probe <= |words| && (words != [] ==> start < |words|)
    ensures r.Some? ==> r.value < |words| && !IsFull(words[r.value])
    decreases |words| - probe
  {
    if probe == |words| then None
    else
      var w := ProbeAt(start, probe, |words|);
      if !IsFull(words[w]) then Some(w) else FirstOpen(words, start, probe + 1)
  }

  function Claim(words: seq<Word>, w: nat, bit: nat): seq<Word>
    requires w < |words| && bit < 64
  {
    words[w := words[w] + {bit}]
  }

  /** Claims the lowest clear bit of word `w`; a bit beyond the last block is
      given back. */
  function ClaimLowest(s: State, blocks: nat, w: nat): (g: Grant)
    requires w < |s.words| && !IsFull(s.words[w])
    ensures |g.state.words| == |s.words| && (g.index.None? ==> g.state == s) && (g.index.Some? ==> g.state.hint == w)
  {
    var bit := FindFreeBit(s.words[w]);
    if w * 64 + bit >= blocks then Grant(None, s)
    else Grant(Some(w * 64 + bit), State(Claim(s.words, w, bit), w))
  }

  /** The search of `alloc` from probe `probe` on: the lowest clear bit of the
      first open word; a bit beyond the last block ends it. */
  function AllocFrom(s: State, blocks: nat, probe: nat): (g: Grant)
    requires probe <= |s.words| && (s.words != [] ==> s.hint < |s.words|)
    ensures |g.state.words| == |s.words| && (s.words != [] ==> g.state.hint < |s.words|)
  {
    var open := FirstOpen(s.words, s.hint, probe);
    if open.None? then Grant(None, s) else ClaimLowest(s, blocks, open.value)
  }

  function Alloc(s: State, blocks: nat): (g: Grant)
    requires s.words != [] ==> s.hint < |s.words|
    ensures |g.state.words| == |s.words| && (s.words != [] ==> g.state.hint < |s.words|)
  {
    AllocFrom(s, blocks, 0)
  }

  /** `dealloc` of block `i`. */
  function Dealloc(s: State, i: nat): State
    requires i < 64 * |s.words|
  {
    var w := i / 64;
    State(s.words[w := s.words[w] - {i % 64}], w)
  }

  lemma DivMod(i: nat)
    ensures i == (i / 64) * 64 + i % 64 && i % 64 < 64
  {
  }

  lemma IndexOf(w: nat, bit: nat)
    requires bit < 64
    ensures (w * 64 + bit) / 64 == w && (w * 64 + bit) % 64 == bit
  {
  }

  // ------------------------------------------------------------------
  // Effect of one call
  // ------------------------------------------------------------------

  lemma ClaimEffect(words: seq<Word>, w: nat, bit: nat, j: nat)
    requires w < |words| && bit < 64 && j < 64 * |words|
    ensures IsSet(Claim(words, w, bit), j) <==> IsSet(words, j) || j == w * 64 + bit
  {
    IndexOf(w, bit);
    DivMod(j);
  }

  /** A successful `alloc` returns a free block of the pool and marks that block
      and no other; a failed one changes nothing. */
  lemma AllocEffect(s: State, blocks: nat)
    requires Valid(s, blocks)
    ensures var g := Alloc(s, blocks);
      && Valid(g.state, blocks)
      && (g.index.None? ==> g.state == s)
      && (g.index.Some? ==>
            && g.index.value < blocks && !IsSet(s.words, g.index.value)
            && g.state.hint == g.index.value / 64
            && forall j :: 0 <= j < 64 * |s.words| ==>
                 (IsSet(g.state.words, j) <==> IsSet(s.words, j) || j == g.index.value))
  {
    var g := Alloc(s, blocks);
    if g.index.Some? {
      var w := FirstOpen(s.words, s.hint, 0).value;
      var bit := FindFreeBit(s.words[w]);
      IndexOf(w, bit);
      forall j | 0 <= j < 64 * |s.words|
        ensures IsSet(g.state.words, j) <==> IsSet(s.words, j) || j == g.index.value
      {
        ClaimEffect(s.words, w, bit, j);
      }
    }
  }

  lemma DeallocEffect(s: State, blocks: nat, i: nat)
    requires Valid(s, blocks) && i < blocks
    ensures i < 64 * |s.words| && Valid(Dealloc(s, i), blocks)
    ensures Dealloc(s, i).hint == i / 64
    ensures forall j :: 0 <= j < 64 * |s.words| ==>
              (IsSet(Dealloc(s, i).words, j) <==> IsSet(s.words, j) && j != i)
  {
    forall j | 0 <= j < 64 * |s.words|
      ensures IsSet(Dealloc(s, i).words, j) <==> IsSet(s.words, j) && j != i
    {
      DivMod(i);
      DivMod(j);
    }
  }

  // ------------------------------------------------------------------
  // Exhaustion
  // ------------------------------------------------------------------

  /** The probes before the first open word met only full words. */
  lemma {:induction false} FirstOpenAt(words: seq<Word>, start: nat, probe: nat) returns (p: nat)
    requires probe <= |words| && (words != [] ==> start < |words|)
    ensures probe <= p <= |words|
    ensures forall q :: probe <= q < p ==> IsFull(words[ProbeAt(start, q, |words|)])
    ensures var r := FirstOpen(words, start, probe);
      if r.None? then p == |words| else p < |words| && r.value == ProbeAt(start, p, |words|)
    decreases |words| - probe
  {
    if probe == |words| || !IsFull(words[ProbeAt(start, probe, |words|)]) {
      p := probe;
    } else {
      p := FirstOpenAt(words, start, probe + 1);
    }
  }

  /** When `alloc` gives up: without padding bits, only when every word is full;
      with padding bits, as soon as the last word is reached with all its valid
      bits set, whatever the words before the hint hold. */
  ghost predicate Exhausted(s: State, blocks: nat)
    requires Valid(s, blocks)
  {
    if blocks % 64 == 0 then
      forall w :: 0 <= w < |s.words| ==> IsFull(s.words[w])
    else
      && (forall w :: s.hint <= w < |s.words| - 1 ==> IsFull(s.words[w]))
      && (forall i :: 64 * (|s.words| - 1) <= i < blocks ==> IsSet(s.words, i))
  }

  /** Every word is reached by some probe. */
  lemma ProbeReaches(start: nat, w: nat, count: nat) returns (q: nat)
    requires start < count && w < count
    ensures q < count && ProbeAt(start, q, count) == w
    ensures start <= w ==> q == w - start
  {
    q := if start <= w then w - start else w + count - start;
  }

  /** How many words lie cyclically between the word of the hint and word `w`. */
  function Ahead(hint: nat, w: nat, count: nat): nat
    requires hint < count && w < count
  {
    (w + count - hint) % count
  }

  lemma AheadOfProbe(hint: nat, q: nat, count: nat)
    requires hint < count && q < count
    ensures Ahead(hint, ProbeAt(hint, q, count), count) == q
  {
    if hint + q < count {
      assert ProbeAt(hint, q, count) + count - hint == count + q;
      assert (count + q) % count == q;
    }
  }

  /** Two words at the same distance are the same. */
  lemma AheadOnce(hint: nat, w: nat, count: nat) returns (q: nat)
    requires hint < count && w < count
    ensures q < count && ProbeAt(hint, q, count) == w && Ahead(hint, w, count) == q
  {
    q := ProbeReaches(hint, w, count);
    AheadOfProbe(hint, q, count);
  }

  /** All 64 bits of a word are set. */
  predicate AllSet(words: seq<Word>, w: nat)
    requires w < |words|
  {
    forall j :: 64 * w <= j < 64 * w + 64 ==> IsSet(words, j)
  }

  /** `alloc` takes the first free block cyclically from the word of the hint: the
      words before that of the block it returns are full, and so are the bits of
      that word below it. */
  lemma AllocOrder(s: State, blocks: nat)
    requires Valid(s, blocks) && Alloc(s, blocks).index.Some?
    ensures var i := Alloc(s, blocks).index.value;
      && i < 64 * |s.words| && i / 64 < |s.words|
      && (forall v :: 0 <= v < |s.words| && Ahead(s.hint, v, |s.words|) < Ahead(s.hint, i / 64, |s.words|) ==>
            AllSet(s.words, v))
      && (forall j :: 64 * (i / 64) <= j < i ==> IsSet(s.words, j))
  {
    var i, n := Alloc(s, blocks).index.value, |s.words|;
    var p := FirstOpenAt(s.words, s.hint, 0);
    var w := FirstOpen(s.words, s.hint, 0).value;
    IndexOf(w, FindFreeBit(s.words[w]));
    AheadOfProbe(s.hint, p, n);
    forall v | 0 <= v < n && Ahead(s.hint, v, n) < Ahead(s.hint, i / 64, n) ensures AllSet(s.words, v) {
      var q := AheadOnce(s.hint, v, n);
      FullMeansTaken(s.words, v);
    }
    forall j | 64 * (i / 64) <= j < i ensures IsSet(s.words, j) {
      IndexOf(w, j - 64 * w);
    }
  }

  lemma ExhaustedFullWords(s: State, blocks: nat)
    requires Valid(s, blocks) && blocks % 64 == 0
    ensures Alloc(s, blocks).index.None? <==> Exhausted(s, blocks)
  {
    var p := FirstOpenAt(s.words, s.hint, 0);
    if FirstOpen(s.words, s.hint, 0).Some? {
      var w := FirstOpen(s.words, s.hint, 0).value;
      assert !IsFull(s.words[w]) && w * 64 + FindFreeBit(s.words[w]) < blocks;
    } else {
      forall w | 0 <= w < |s.words| ensures IsFull(s.words[w]) {
        var q := ProbeReaches(s.hint, w, |s.words|);
      }
    }
  }

  lemma ExhaustedPadding(s: State, blocks: nat)
    requires Valid(s, blocks) && blocks % 64 != 0
    ensures Alloc(s, blocks).index.None? <==> Exhausted(s, blocks)
  {
    var last := |s.words| - 1;
    assert !IsFull(s.words[last]) by {
      IndexOf(last, 63);
      assert !IsSet(s.words, last * 64 + 63);
    }
    var p := FirstOpenAt(s.words, s.hint, 0);
    var q := ProbeReaches(s.hint, last, |s.words|);
    assert p <= q;
    var w := FirstOpen(s.words, s.hint, 0).value;
    assert w == s.hint + p;
    forall v | s.hint <= v < w ensures IsFull(s.words[v]) {
      assert ProbeAt(s.hint, v - s.hint, |s.words|) == v;
    }
    var bit := FindFreeBit(s.words[w]);
    if w == last {
      LastWord(s, blocks, bit);
    }
  }

  /** The lowest clear bit of the last word is padding iff all its blocks are taken. */
  lemma LastWord(s: State, blocks: nat, bit: nat)
    requires Valid(s, blocks) && blocks % 64 != 0
    requires !IsFull(s.words[|s.words| - 1]) && bit == FindFreeBit(s.words[|s.words| - 1])
    ensures var last := |s.words| - 1;
      last * 64 + bit >= blocks <==> forall i :: 64 * last <= i < blocks ==> IsSet(s.words, i)
  {
    var last := |s.words| - 1;
    IndexOf(last, bit);
    if last * 64 + bit >= blocks {
      forall i | 64 * last <= i < blocks ensures IsSet(s.words, i) {
        IndexOf(last, i - 64 * last);
      }
    } else {
      assert !IsSet(s.words, last * 64 + bit);
    }
  }

  /** `alloc` returns null exactly in the exhausted states. */
  lemma NullIffExhausted(s: State, blocks: nat)
    requires Valid(s, blocks)
    ensures Alloc(s, blocks).index.None? <==> Exhausted(s, blocks)
  {
    if blocks % 64 == 0 {
      ExhaustedFullWords(s, blocks);
    } else {
      ExhaustedPadding(s, blocks);
    }
  }

  lemma FullMeansTaken(words: seq<Word>, w: nat)
    requires w < |words|
    ensures IsFull(words[w]) <==> AllSet(words, w)
  {
    if IsFull(words[w]) {
      forall i | 64 * w <= i < 64 * w + 64 ensures IsSet(words, i) {
        IndexOf(w, i - 64 * w);
      }
    } else {
      IndexOf(w, FindFreeBit(words[w]));
      assert !IsSet(words, w * 64 + FindFreeBit(words[w]));
    }
  }

  /** The first block that `alloc` is sure to consider before it gives up. */
  function Horizon(s: State, blocks: nat): nat { if blocks % 64 == 0 then 0 else 64 * s.hint }

  lemma ExhaustedIsTaken(s: State, blocks: nat)
    requires Valid(s, blocks)
    ensures Exhausted(s, blocks) <==> forall i :: Horizon(s, blocks) <= i < blocks ==> IsSet(s.words, i)
  {
    if Exhausted(s, blocks) {
      forall i | Horizon(s, blocks) <= i < blocks ensures IsSet(s.words, i) {
        DivMod(i);
        FullMeansTaken(s.words, i / 64);
      }
    } else if forall i :: Horizon(s, blocks) <= i < blocks ==> IsSet(s.words, i) {
      forall w | Horizon(s, blocks) <= 64 * w && 64 * w + 64 <= blocks ensures IsFull(s.words[w]) {
        FullMeansTaken(s.words, w);
      }
    }
  }

  /** In terms of blocks: `alloc` returns null exactly when every block from the
      horizon on is taken. */
  lemma NullIffTaken(s: State, blocks: nat)
    requires Valid(s, blocks)
    ensures Alloc(s, blocks).index.None? <==> forall i :: Horizon(s, blocks) <= i < blocks ==> IsSet(s.words, i)
  {
    NullIffExhausted(s, blocks);
    ExhaustedIsTaken(s, blocks);
  }

  ghost predicate HasFree(s: State, blocks: nat, from: nat, to: nat)
    requires Valid(s, blocks) && to <= blocks
  {
    exists i :: from <= i < to && !IsSet(s.words, i)
  }

  /** The wrong answers: null while a block is free, exactly when the last word
      has padding, no block at or after the word of the hint is free, and one
      before it is. */
  lemma NullWhileFree(s: State, blocks: nat)
    requires Valid(s, blocks)
    ensures 64 * s.hint <= blocks
    ensures Alloc(s, blocks).index.None? && HasFree(s, blocks, 0, blocks) <==>
      blocks % 64 != 0 && !HasFree(s, blocks, 64 * s.hint, blocks) && HasFree(s, blocks, 0, 64 * s.hint)
  {
    NullIffTaken(s, blocks);
  }

  // ------------------------------------------------------------------
  // Draining, and allocating after a free
  // ------------------------------------------------------------------

  /** `k` calls of `alloc` on a new allocator. */
  function AfterAllocs(blocks: nat, k: nat): (s: State)
    ensures |s.words| == WordCount(blocks) && (s.words != [] ==> s.hint < |s.words|)
  {
    if k == 0 then Fresh(blocks) else Alloc(AfterAllocs(blocks, k - 1), blocks).state
  }

  ghost predicate PrefixTaken(s: State, blocks: nat, k: nat) {
    && Valid(s, blocks) && k <= blocks
    && s.hint == (if k == 0 then 0 else (k - 1) / 64)
    && (forall i :: 0 <= i < 64 * |s.words| ==> (IsSet(s.words, i) <==> i < k))
  }

  /** Words below the `k`-th block are full, its own word is open just there. */
  lemma PrefixWord(s: State, blocks: nat, k: nat, w: nat)
    requires PrefixTaken(s, blocks, k) && w < |s.words|
    ensures w < k / 64 ==> IsFull(s.words[w])
    ensures w == k / 64 ==> !IsFull(s.words[w]) && FindFreeBit(s.words[w]) == k % 64
  {
    DivMod(k);
    if w < k / 64 {
      forall b | 0 <= b < 64 ensures b in s.words[w] {
        IndexOf(w, b);
        assert IsSet(s.words, w * 64 + b);
      }
    } else if w == k / 64 {
      IndexOf(w, k % 64);
      assert !IsSet(s.words, k);
      var bit := FindFreeBit(s.words[w]);
      IndexOf(w, bit);
      assert !IsSet(s.words, w * 64 + bit);
    }
  }

  lemma PrefixAlloc(s: State, blocks: nat, k: nat)
    requires PrefixTaken(s, blocks, k)
    ensures Alloc(s, blocks).index == (if k < blocks then Some(k) else None)
  {
    DivMod(k);
    var p := FirstOpenAt(s.words, s.hint, 0);
    if k / 64 < |s.words| {
      PrefixWord(s, blocks, k, k / 64);
      var q := ProbeReaches(s.hint, k / 64, |s.words|);
      assert p <= q <= 1;
      if p < q {
        PrefixWord(s, blocks, k, s.hint);
      }
    } else {
      forall q | 0 <= q < |s.words| ensures IsFull(s.words[ProbeAt(s.hint, q, |s.words|)]) {
        PrefixWord(s, blocks, k, ProbeAt(s.hint, q, |s.words|));
      }
    }
  }

  lemma FreshPrefix(blocks: nat)
    ensures PrefixTaken(Fresh(blocks), blocks, 0)
  {
  }

  lemma PrefixStep(s: State, blocks: nat, k: nat)
    requires PrefixTaken(s, blocks, k) && k < blocks
    ensures PrefixTaken(Alloc(s, blocks).state, blocks, k + 1)
  {
    PrefixAlloc(s, blocks, k);
    AllocEffect(s, blocks);
  }

  /** A new allocator hands out blocks 0, 1, 2, ... in order and then null. */
  lemma {:induction false} DrainOrder(blocks: nat, k: nat)
    requires k <= blocks
    ensures PrefixTaken(AfterAllocs(blocks, k), blocks, k)
    ensures Alloc(AfterAllocs(blocks, k), blocks).index == (if k < blocks then Some(k) else None)
  {
    if k == 0 {
      FreshPrefix(blocks);
    } else {
      DrainOrder(blocks, k - 1);
      PrefixStep(AfterAllocs(blocks, k - 1), blocks, k - 1);
    }
    PrefixAlloc(AfterAllocs(blocks, k), blocks, k);
  }

  /** Right after a block is freed, `alloc` succeeds in the same word, at or
      below the freed block. */
  lemma {:induction false} FreeThenAlloc(s: State, blocks: nat, i: nat)
    requires Valid(s, blocks) && i < blocks && IsSet(s.words, i)
    ensures var r := Alloc(Dealloc(s, i), blocks).index;
      r.Some? && r.value / 64 == i / 64 && r.value <= i
  {
    DivMod(i);
    var s' := Dealloc(s, i);
    var w := i / 64;
    assert i % 64 !in s'.words[w];
    assert ProbeAt(w, 0, |s'.words|) == w;
    IndexOf(w, FindFreeBit(s'.words[w]));
  }

  /** 65 blocks, all taken, then blocks 5 and 64 freed. */
  function Freed5And64(): (s: State)
    ensures |s.words| == 2 && s.hint < 2
  {
    Dealloc(Dealloc(AfterAllocs(65, 65), 5), 64)
  }

  lemma Freed5And64Free()
    ensures var s := Freed5And64();
      Valid(s, 65) && s.hint == 1 && forall i :: 0 <= i < 65 ==> (IsSet(s.words, i) <==> i != 5 && i != 64)
  {
    var full := AfterAllocs(65, 65);
    DrainOrder(65, 65);
    DeallocEffect(full, 65, 5);
    DeallocEffect(Dealloc(full, 5), 65, 64);
  }

  /** Null does not mean that the pool is full: from there, one call returns
      block 64 and the next one null, although block 5 is free. */
  lemma NullWithFreeBlock()
    ensures var g := Alloc(Freed5And64(), 65);
      g.index == Some(64) && !IsSet(g.state.words, 5) && Alloc(g.state, 65).index == None
  {
    var s := Freed5And64();
    Freed5And64Free();
    AllocEffect(s, 65);
    assert Alloc(s, 65).index == Some(64) by {
      NullIffTaken(s, 65);
      HintWordFirst(s, 65);
    }
    NullIffTaken(Alloc(s, 65).state, 65);
  }

  /** A free block in the word of the hint is found there. */
  lemma HintWordFirst(s: State, blocks: nat)
    requires Valid(s, blocks) && s.words != [] && !IsFull(s.words[s.hint])
    ensures var g := Alloc(s, blocks); g.index.Some? ==> g.index.value / 64 == s.hint
  {
    assert ProbeAt(s.hint, 0, |s.words|) == s.hint;
    IndexOf(s.hint, FindFreeBit(s.words[s.hint]));
  }
}
