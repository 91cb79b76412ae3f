/** The per-thread cache in front of the free list, working in place on the
    links of the blocks. Every method is proved against `CacheSpec`. */
module ThreadCaches {
  import opened FreeList
  import opened Sequences
  import CacheSpec

  /** The walk at the end of `refill`: last block and length of a chain. */
  method WalkToTail(first: FreeBlock, ghost chain: seq<FreeBlock>) returns (tail: FreeBlock, count: nat)
    requires Chain(chain) && |chain| > 0 && first == chain[0]
    ensures count == |chain| && tail == chain[count - 1]
  {
    tail, count := first, 1;
    while tail.next != null
      invariant 1 <= count <= |chain| && tail == chain[count - 1]
      invariant count < |chain| ==> tail.next == chain[count]
      decreases |chain| - count
    {
      tail := tail.next;
      count := count + 1;
    }
  }

  /** The walk of `flush`: at most `excess` blocks. */
  method WalkAtMost(first: FreeBlock, excess: nat, ghost chain: seq<FreeBlock>) returns (tail: FreeBlock, count: nat)
    requires Chain(chain) && |chain| > 0 && first == chain[0] && excess > 0
    ensures count == CacheSpec.Min(excess, |chain|) && tail == chain[count - 1]
  {
    tail, count := first, 1;
    while count < excess && tail.next != null
      invariant 1 <= count <= CacheSpec.Min(excess, |chain|) && tail == chain[count - 1]
      invariant count < |chain| ==> tail.next == chain[count]
      decreases excess - count
    {
      tail := tail.next;
      count := count + 1;
    }
  }

  class ThreadCache {
    var localHead: FreeBlock?
    var localSize: nat
    const batchSize: nat
    const lowWatermark: nat
    const highWatermark: nat
    const global: FreelistAllocator
    // instrumentation of the thread
    var allocs: nat
    var deallocs: nat
    var refills: nat
    var flushes: nat
    var refillBlocks: nat
    var flushBlocks: nat
    ghost var local: seq<FreeBlock>

    /** What concerns the cache alone. */
    ghost predicate Tidy()
      reads this, local
    {
      && lowWatermark == batchSize / 2 && highWatermark == batchSize * 2
      && Chain(local) && localHead == First(local) && localSize == |local|
    }

    ghost predicate Valid()
      reads this, local, global, global.stack
    {
      Tidy() && global.Valid() && forall b :: b in local ==> b !in global.stack
    }

    /** The counters explain the size of the cache. */
    ghost predicate Accounted()
      reads this
    {
      localSize == refillBlocks + deallocs - allocs - flushBlocks
    }

    ghost function View(): CacheSpec.Store<FreeBlock>
      reads this, global
    {
      CacheSpec.Store(local, global.stack)
    }

    constructor (shared: FreelistAllocator, batch: nat)
      requires shared.Valid()
      ensures Valid() && Accounted() && View() == CacheSpec.Store([], shared.stack)
      ensures global == shared && batchSize == batch
    {
      localHead, localSize, local := null, 0, [];
      batchSize, lowWatermark, highWatermark, global := batch, batch / 2, batch * 2, shared;
      allocs, deallocs, refills, flushes, refillBlocks, flushBlocks := 0, 0, 0, 0, 0, 0;
    }

    /** Puts a popped chain in front of the local list. */
    method Splice(batch: FreeBlock, ghost taken: seq<FreeBlock>) returns (count: nat)
      requires Valid() && Chain(taken) && |taken| > 0 && batch == taken[0]
      requires forall b :: b in taken ==> b !in local && b !in global.stack
      modifies this`localHead, this`localSize, this`local, taken
      ensures Valid() && local == taken + old(local) && count == |taken|
    {
      var tail: FreeBlock;
      tail, count := WalkToTail(batch, taken);
      assert tail in taken;
      tail.next := localHead;
      assert Chain(local) && Linked(taken);
      ChainJoin(taken, local);
      localHead := batch;
      localSize := localSize + count;
      local := taken + local;
    }

    /** The part of `refill` that moves blocks; `count` is how many. */
    method Fetch() returns (count: nat)
      requires Valid()
      modifies this`localHead, this`localSize, this`local, global, global.stack
      ensures Valid() && View() == CacheSpec.Refill(batchSize, old(View()))
      ensures count == CacheSpec.Taken(batchSize, |old(global.stack)|) && localSize == old(localSize) + count
    {
      ghost var k := CacheSpec.Taken(batchSize, |global.stack|);
      ghost var whole := global.stack;
      assert forall b :: b in whole[..k] ==> b in whole;
      assert forall i :: 0 <= i < |local| ==> local[i] !in whole;
      var batch := global.PopBulk(batchSize);
      if batch == null {
        return 0;
      }
      count := Splice(batch, whole[..k]);
    }

    method Refill()
      requires Valid() && Accounted()
      modifies this, global, global.stack
      ensures Valid() && Accounted() && View() == CacheSpec.Refill(batchSize, old(View()))
      ensures allocs == old(allocs) && deallocs == old(deallocs) && flushBlocks == old(flushBlocks)
      ensures flushes == old(flushes) && refills == old(refills) + (if old(global.stack) == [] then 0 else 1)
    {
      var count := Fetch();
      if count == 0 {
        return;
      }
      refills := refills + 1;
      refillBlocks := refillBlocks + count;
    }

    /** Cuts at most `excess` blocks off the front of the local list. */
    method Detach(excess: nat) returns (head: FreeBlock, tail: FreeBlock, count: nat)
      requires Valid() && local != [] && excess > 0
      modifies this`localHead, this`localSize, this`local, local
      ensures Valid() && count == CacheSpec.Min(excess, |old(local)|) && local == old(local)[count..]
      ensures Linked(old(local)[..count]) && head == old(local)[0] && tail == old(local)[count - 1]
    {
      head := localHead;
      tail, count := WalkAtMost(head, excess, local);
      assert tail in local;
      ghost var whole := local;
      localHead, localSize, local := tail.next, localSize - count, whole[count..];
      CutAfter(tail, whole, count);
    }

    /** The part of `flush` that moves blocks. */
    method Release(excess: nat) returns (count: nat)
      requires Valid() && local != [] && excess > 0
      modifies this`localHead, this`localSize, this`local, global, local
      ensures Valid() && View() == CacheSpec.Flush(excess, old(View()))
      ensures 0 < count == old(localSize) - localSize
    {
      ghost var whole := local;
      var head, tail;
      head, tail, count := Detach(excess);
      ghost var batch := whole[..count];
      assert forall i :: 0 <= i < |batch| ==> batch[i] in whole && batch[i] !in local;
      CacheSpec.ReverseMember(batch);
      global.PushBulk(head, tail, batch);
    }

    method Flush(excess: nat)
      requires Valid() && Accounted()
      modifies this, global, local
      ensures Valid() && Accounted() && View() == CacheSpec.Flush(excess, old(View()))
      ensures allocs == old(allocs) && deallocs == old(deallocs) && refillBlocks == old(refillBlocks)
      ensures refills == old(refills) && flushes == old(flushes) + (if old(local) == [] || excess == 0 then 0 else 1)
    {
      if localHead == null || excess == 0 {
        return;
      }
      var count := Release(excess);
      flushes := flushes + 1;
      flushBlocks := flushBlocks + count;
    }

    /** Takes the first block of the local list, if there is one. */
    method PopLocal() returns (block: FreeBlock?)
      requires Valid() && Accounted()
      modifies this`localHead, this`localSize, this`local, this`allocs
      ensures Valid() && Accounted() && block == First(old(local))
      ensures local == (if old(local) == [] then [] else old(local)[1..])
      ensures allocs == old(allocs) + (if block == null then 0 else 1)
    {
      if localHead == null {
        return null;
      }
      block := localHead;
      localHead := block.next;
      localSize := localSize - 1;
      allocs := allocs + 1;
      ChainSplit(local, 1);
      local := local[1..];
    }

    method Alloc() returns (block: FreeBlock?)
      requires Valid() && Accounted()
      modifies this, global, global.stack
      ensures Valid() && Accounted()
      ensures var g := CacheSpec.Alloc(batchSize, old(View()));
        View() == g.store && block == (if g.block.Some? then g.block.value else null)
      ensures allocs == old(allocs) + (if block == null then 0 else 1)
      ensures deallocs == old(deallocs) && flushBlocks == old(flushBlocks)
    {
      if localSize <= lowWatermark {
        Refill();
      }
      block := PopLocal();
    }

    /** Puts a block in front of the local list. */
    method PushLocal(block: FreeBlock)
      requires Valid() && Accounted() && block !in local && block !in global.stack
      modifies this`localHead, this`localSize, this`local, this`deallocs, block
      ensures Valid() && Accounted() && local == [block] + old(local) && deallocs == old(deallocs) + 1
    {
      deallocs := deallocs + 1;
      block.next := localHead;
      assert Chain(local) && Linked([block]);
      ChainJoin([block], local);
      localHead := block;
      localSize := localSize + 1;
      local := [block] + local;
    }

    /** Past the high watermark, all but one batch goes back to the shared list. */
    method Trim()
      requires Valid() && Accounted()
      modifies this, global, local
      ensures Valid() && Accounted()
      ensures View() == CacheSpec.Trim(batchSize, old(View()))
      ensures allocs == old(allocs) && deallocs == old(deallocs) && refillBlocks == old(refillBlocks)
    {
      if localSize > highWatermark {
        Flush(localSize - batchSize);
      }
    }

    /** `dealloc` of a block. */
    method DeallocBlock(block: FreeBlock)
      requires Valid() && Accounted() && block !in local && block !in global.stack
      modifies this, global, local, block
      ensures Valid() && Accounted() && View() == CacheSpec.Dealloc(batchSize, old(View()), block)
      ensures deallocs == old(deallocs) + 1 && allocs == old(allocs) && refillBlocks == old(refillBlocks)
    {
      PushLocal(block);
      Trim();
    }

    /** The client hands back a block that is in neither list; null is ignored. */
    method Dealloc(block: FreeBlock?)
      requires Valid() && Accounted()
      requires block != null ==> block !in local && block !in global.stack
      modifies this, global, local, block
      ensures Valid() && Accounted()
      ensures block == null ==> View() == old(View()) && deallocs == old(deallocs)
      ensures block != null ==>
        && (var b: FreeBlock := block; View() == CacheSpec.Dealloc(batchSize, old(View()), b))
        && deallocs == old(deallocs) + 1
      ensures allocs == old(allocs) && refillBlocks == old(refillBlocks)
    {
      if block != null {
        DeallocBlock(block);
      }
    }
  }

  /** The pool constructor pushes the blocks of its region one after the other,
      so the last block of the region is on top. */
  method BuildPool(blocks: seq<FreeBlock>) returns (global: FreelistAllocator)
    requires Distinct(blocks)
    modifies blocks
    ensures fresh(global) && global.Valid() && global.stack == CacheSpec.Reverse(blocks)
  {
    global := new FreelistAllocator();
    for i := 0 to |blocks|
      invariant fresh(global) && global.Valid()
      invariant global.stack == CacheSpec.Reverse(blocks[..i])
      invariant forall j :: i <= j < |blocks| ==> blocks[j] !in global.stack
    {
      CacheSpec.ReverseSnoc(blocks[..i], blocks[i]);
      assert blocks[..i] + [blocks[i]] == blocks[..i + 1];
      global.Push(blocks[i]);
    }
    assert blocks[..|blocks|] == blocks;
  }
}
