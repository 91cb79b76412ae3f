/** One region of blocks, its shared free list and the caches of all threads,
    all working in place on the links of the blocks. */
module CachedPools {
  import opened Options
  import opened Sequences
  import opened FreeList
  import opened ThreadCaches
  import CacheSpec
  import Geometry

  class CachedPool {
    const global: FreelistAllocator
    const batch: nat
    ghost const blocks: set<FreeBlock>     // the blocks of the region
    var caches: map<nat, ThreadCache>      // by thread
    ghost var locals: map<nat, seq<FreeBlock>>

    /** A cache of this pool, apart from what it shares with the others. */
    ghost predicate Own(c: ThreadCache)
      reads c, c.local
    {
      && c.global == global && c.batchSize == batch && c.Tidy() && c.Accounted()
      && forall b :: b in c.local ==> b in blocks
    }

    ghost predicate SharedValid()
      reads global, blocks
    {
      (forall b :: b in global.stack ==> b in blocks) && global.Valid()
    }

    ghost predicate Injective(cs: map<nat, ThreadCache>) {
      forall t, u :: t in cs && u in cs && t != u ==> cs[t] != cs[u]
    }

    ghost predicate CachesOk(cs: map<nat, ThreadCache>, lists: map<nat, seq<FreeBlock>>)
      reads blocks, cs.Values
    {
      && Injective(cs) && lists.Keys == cs.Keys
      && (forall t :: t in cs ==>
           lists[t] == cs[t].local && (forall b :: b in cs[t].local ==> b in blocks) && Own(cs[t]))
    }

    ghost predicate Valid()
      reads this, global, blocks, caches.Values
    {
      SharedValid() && CachesOk(caches, locals) && CacheSpec.SimplePool(View())
    }

    ghost function View(): CacheSpec.Pool<FreeBlock>
      reads this, global
    {
      CacheSpec.Pool(global.stack, locals)
    }

    /** A client has the block: it is in no list. */
    ghost predicate Out(b: FreeBlock)
      reads this, global
    {
      b in blocks && CacheSpec.InNoList(View(), b)
    }

    /** All blocks of the region go on the shared list; no thread has a cache yet. */
    constructor (region: seq<FreeBlock>, batchSize: nat)
      requires Distinct(region)
      modifies region
      ensures Valid() && batch == batchSize && blocks == Elements(region)
      ensures View() == CacheSpec.Pool(CacheSpec.Reverse(region), map[])
      ensures fresh(this) && fresh(global)
    {
      var list := BuildPool(region);
      CacheSpec.ReverseMember(region);
      global, batch, blocks := list, batchSize, Elements(region);
      caches, locals := map[], map[];
    }

    lemma AddCache(cs: map<nat, ThreadCache>, lists: map<nat, seq<FreeBlock>>, thread: nat, c: ThreadCache)
      requires CachesOk(cs, lists) && thread !in cs && Own(c) && c.local == [] && forall t :: t in cs ==> cs[t] != c
      ensures CachesOk(cs[thread := c], lists[thread := []])
    {
    }

    /** A cache of no blocks; the object is not yet known to the pool. */
    method NewCache() returns (c: ThreadCache)
      requires SharedValid()
      ensures fresh(c) && Own(c) && c.local == []
    {
      c := new ThreadCache(global, batch);
    }

    method AddFor(thread: nat)
      requires SharedValid() && CachesOk(caches, locals) && thread !in caches
      modifies this
      ensures SharedValid() && CachesOk(caches, locals) && thread in caches
      ensures fresh(caches[thread]) && caches == old(caches)[thread := caches[thread]]
        && locals == old(locals)[thread := []]
    {
      var c := NewCache();
      AddCache(caches, locals, thread, c);
      caches, locals := caches[thread := c], locals[thread := []];
    }

    /** A thread gets its cache, empty, on first use, and the same one afterwards. */
    method GetCache(thread: nat) returns (c: ThreadCache)
      requires Valid()
      modifies this
      ensures Valid() && thread in caches && c == caches[thread]
      ensures if thread in old(caches) then c == old(caches)[thread] else fresh(c)
      ensures View() == CacheSpec.Put(old(View()), thread, CacheSpec.StoreOf(old(View()), thread))
    {
      CacheSpec.GetSimple(View(), thread);
      if thread !in caches {
        AddFor(thread);
      }
      c := caches[thread];
      assert locals == old(locals)[thread := c.local];
    }

    /** A cache whose object and blocks have not changed. */
    twostate lemma CacheUndisturbed(d: ThreadCache)
      requires old(Own(d)) && unchanged(d) && forall b :: b in d.local ==> b.next == old(b.next)
      ensures Own(d)
    {
      assert forall i :: 0 <= i < |d.local| ==> d.local[i] in d.local;
    }

    /** The lists of cache `c` and the shared list are `st`. */
    ghost predicate Holds(c: ThreadCache, st: CacheSpec.Store<FreeBlock>)
      reads c, global
    {
      c.local == st.local && global.stack == st.global
    }

    /** `c` allocates from the lists `st`. */
    method AllocThrough(c: ThreadCache, ghost st: CacheSpec.Store<FreeBlock>) returns (block: FreeBlock?)
      requires SharedValid() && Own(c) && c.Valid() && Holds(c, st)
      modifies c, global, global.stack
      ensures var g := CacheSpec.Alloc(batch, st);
        && SharedValid() && Own(c) && Holds(c, g.store)
        && block == (if g.block.Some? then g.block.value else null)
    {
      block := c.Alloc();
      forall b | b in c.local || b in global.stack ensures b in blocks {
        CacheSpec.AllocWithin(batch, st, b);
      }
    }

    /** `c` takes back a block that is in neither list of `st`. */
    method DeallocThrough(c: ThreadCache, block: FreeBlock, ghost st: CacheSpec.Store<FreeBlock>)
      requires SharedValid() && Own(c) && c.Valid() && Holds(c, st)
      requires block in blocks && !CacheSpec.Has(st, block)
      modifies c, global, c.local, block
      ensures var st' := CacheSpec.Dealloc(batch, st, block);
        SharedValid() && Own(c) && Holds(c, st')
    {
      c.DeallocBlock(block);
      forall b | b in c.local || b in global.stack ensures b in blocks {
        CacheSpec.DeallocWithin(batch, st, block, b);
      }
    }

    /** The local lists but that of `thread` have no block of `st`. */
    ghost predicate Beside(lists: map<nat, seq<FreeBlock>>, thread: nat, st: CacheSpec.Store<FreeBlock>) {
      forall u :: u in lists && u != thread ==> CacheSpec.Clear(st, lists[u])
    }

    /** A block of the region that is in no list. */
    ghost predicate Spare(lists: map<nat, seq<FreeBlock>>, thread: nat, st: CacheSpec.Store<FreeBlock>,
                          block: FreeBlock)
    {
      block in blocks && !CacheSpec.Has(st, block) && forall u :: u in lists && u != thread ==> block !in lists[u]
    }

    /** One list has changed, and every cache is one of this pool still. */
    lemma CachesAgain(cs: map<nat, ThreadCache>, lists: map<nat, seq<FreeBlock>>, thread: nat, local: seq<FreeBlock>)
      requires Injective(cs) && lists.Keys == cs.Keys && thread in cs && Own(cs[thread]) && cs[thread].local == local
      requires forall u :: u in cs && u != thread ==> Own(cs[u]) && cs[u].local == lists[u]
      ensures CachesOk(cs, lists[thread := local])
    {
    }

    /** One cache allocates; the other caches are not disturbed. */
    method AllocBeside(cs: map<nat, ThreadCache>, ghost lists: map<nat, seq<FreeBlock>>, thread: nat,
                       ghost st: CacheSpec.Store<FreeBlock>) returns (block: FreeBlock?)
      requires SharedValid() && CachesOk(cs, lists) && thread in cs && cs[thread].Valid()
      requires Holds(cs[thread], st) && Beside(lists, thread, st)
      modifies cs[thread], global, global.stack
      ensures var g := CacheSpec.Alloc(batch, st);
        && SharedValid() && CachesOk(cs, lists[thread := g.store.local]) && global.stack == g.store.global
        && block == (if g.block.Some? then g.block.value else null)
    {
      block := AllocThrough(cs[thread], st);
      forall u | u in cs && u != thread ensures Own(cs[u]) && cs[u].local == lists[u] {
        assert cs[u] != cs[thread] && old(Own(cs[u])) && cs[u].local == lists[u];
        assert CacheSpec.Clear(st, lists[u]);
        CacheUndisturbed(cs[u]);
      }
      CachesAgain(cs, lists, thread, CacheSpec.Alloc(batch, st).store.local);
    }

    /** One cache takes back a block; the other caches are not disturbed. */
    method DeallocBeside(cs: map<nat, ThreadCache>, ghost lists: map<nat, seq<FreeBlock>>, thread: nat,
                         ghost st: CacheSpec.Store<FreeBlock>, block: FreeBlock)
      requires SharedValid() && CachesOk(cs, lists) && thread in cs && cs[thread].Valid()
      requires Holds(cs[thread], st) && Beside(lists, thread, st)
      requires Spare(lists, thread, st, block)
      modifies cs[thread], global, cs[thread].local, block
      ensures var st' := CacheSpec.Dealloc(batch, st, block);
        && SharedValid() && CachesOk(cs, lists[thread := st'.local]) && global.stack == st'.global
       
    {
      DeallocThrough(cs[thread], block, st);
      forall u | u in cs && u != thread ensures Own(cs[u]) && cs[u].local == lists[u] {
        assert cs[u] != cs[thread] && old(Own(cs[u])) && cs[u].local == lists[u];
        assert CacheSpec.Clear(st, lists[u]);
        CacheUndisturbed(cs[u]);
      }
      CachesAgain(cs, lists, thread, CacheSpec.Dealloc(batch, st, block).local);
    }

    /** What the cache of one thread needs of the pool. */
    ghost predicate Ready(thread: nat, st: CacheSpec.Store<FreeBlock>)
      reads this, global, blocks, caches.Values
    {
      && SharedValid() && CachesOk(caches, locals) && thread in caches && caches[thread].Valid()
      && Holds(caches[thread], st) && Beside(locals, thread, st)
    }

    lemma GetReady(thread: nat)
      requires Valid() && thread in caches
      ensures Ready(thread, CacheSpec.StoreOf(View(), thread))
    {
      CacheSpec.OthersClear(View(), thread);
    }

    /** Writing down what the local lists are disturbs no list. */
    ghost method Note(lists: map<nat, seq<FreeBlock>>)
      requires SharedValid() && CachesOk(caches, lists)
      modifies this`locals
      ensures SharedValid() && CachesOk(caches, locals) && locals == lists
    {
      locals := lists;
    }

    method AllocReady(thread: nat, ghost st: CacheSpec.Store<FreeBlock>) returns (block: FreeBlock?)
      requires Ready(thread, st)
      modifies this`locals, caches[thread], global, global.stack
      ensures SharedValid() && CachesOk(caches, locals)
      ensures var g := CacheSpec.Alloc(batch, st);
        && global.stack == g.store.global && locals == old(locals)[thread := g.store.local]
        && block == (if g.block.Some? then g.block.value else null)
    {
      block := AllocBeside(caches, locals, thread, st);
      Note(locals[thread := CacheSpec.Alloc(batch, st).store.local]);
    }

    method DeallocReady(thread: nat, block: FreeBlock, ghost st: CacheSpec.Store<FreeBlock>)
      requires Ready(thread, st) && Spare(locals, thread, st, block)
      modifies this`locals, caches[thread], global, caches[thread].local, block
      ensures SharedValid() && CachesOk(caches, locals)
      ensures var st' := CacheSpec.Dealloc(batch, st, block);
        global.stack == st'.global && locals == old(locals)[thread := st'.local]
    {
      DeallocBeside(caches, locals, thread, st, block);
      Note(locals[thread := CacheSpec.Dealloc(batch, st, block).local]);
    }

    /** `alloc` of a thread that has its cache. */
    method AllocWith(thread: nat) returns (block: FreeBlock?)
      requires Valid() && thread in caches
      modifies this`locals, caches[thread], global, global.stack
      ensures Valid()
      ensures var g := CacheSpec.AllocIn(batch, old(View()), thread);
        View() == g.pool && block == (if g.block.Some? then g.block.value else null)
    {
      ghost var v := View();
      GetReady(thread);
      block := AllocReady(thread, CacheSpec.StoreOf(v, thread));
      CacheSpec.AllocInSimple(batch, v, thread);
    }

    /** `dealloc` by a thread that has its cache. */
    method DeallocWith(thread: nat, block: FreeBlock)
      requires Valid() && thread in caches && Out(block)
      modifies this`locals, caches[thread], global, caches[thread].local, block
      ensures Valid() && View() == CacheSpec.DeallocIn(batch, old(View()), thread, Some(block))
    {
      ghost var v := View();
      GetReady(thread);
      DeallocReady(thread, block, CacheSpec.StoreOf(v, thread));
      CacheSpec.DeallocInSimple(batch, v, thread, block);
    }

    /** The cache object of a thread, if it has one. */
    ghost function CacheOf(thread: nat): set<ThreadCache>
      reads this
    {
      if thread in caches then {caches[thread]} else {}
    }

    /** `alloc` of a thread: of the blocks, only links on the shared list are written. */
    method Alloc(thread: nat) returns (block: FreeBlock?)
      requires Valid()
      modifies this, CacheOf(thread), global, global.stack
      ensures Valid() && (block != null ==> Out(block))
      ensures var g := CacheSpec.AllocIn(batch, old(View()), thread);
        View() == g.pool && block == (if g.block.Some? then g.block.value else null)
    {
      AllocGivesOut(thread);
      CacheSpec.GetThenAlloc(batch, View(), thread);
      var c := GetCache(thread);
      block := AllocWith(thread);
    }

    /** `dealloc` of a block that a client has: of the blocks, only links of the
        thread's local list and of the block are written. */
    method DeallocBlock(thread: nat, block: FreeBlock)
      requires Valid() && Out(block)
      modifies this, CacheOf(thread), global, CacheSpec.Local(View(), thread), block
      ensures Valid() && View() == CacheSpec.DeallocIn(batch, old(View()), thread, Some(block))
    {
      CacheSpec.GetThenDealloc(batch, View(), thread, block);
      var c := GetCache(thread);
      DeallocWith(thread, block);
    }

    /** `dealloc` of null: the thread has its cache afterwards. */
    method NullDealloc(thread: nat)
      requires Valid()
      modifies this
      ensures Valid() && View() == CacheSpec.DeallocIn(batch, old(View()), thread, None)
    {
      var c := GetCache(thread);
    }

    /** `dealloc`; null is ignored, but the thread has its cache afterwards. */
    method Dealloc(thread: nat, block: FreeBlock?)
      requires Valid() && (block != null ==> Out(block))
      modifies this, CacheOf(thread), global, CacheSpec.Local(View(), thread), block
      ensures Valid()
      ensures block == null ==> View() == CacheSpec.DeallocIn(batch, old(View()), thread, None)
      ensures block != null ==>
        (var b: FreeBlock := block; View() == CacheSpec.DeallocIn(batch, old(View()), thread, Some(b)))
    {
      if block == null {
        NullDealloc(thread);
      } else {
        DeallocBlock(thread, block);
      }
    }

    /** A pool none of whose objects has changed. */
    twostate lemma Undisturbed()
      requires old(Valid()) && unchanged(this) && unchanged(global) && unchanged(caches.Values) && unchanged(blocks)
      ensures Valid() && View() == old(View())
    {
    }

    /** The block that an `alloc` will return is one of the region and in no list afterwards. */
    lemma AllocGivesOut(thread: nat)
      requires Valid()
      ensures var g := CacheSpec.AllocIn(batch, View(), thread);
        g.block.Some? ==> g.block.value in blocks && CacheSpec.InNoList(g.pool, g.block.value)
    {
      var g := CacheSpec.AllocIn(batch, View(), thread);
      CacheSpec.AllocInTakesOut(batch, View(), thread);
      if g.block.Some? {
        CacheSpec.AllocWithin(batch, CacheSpec.StoreOf(View(), thread), g.block.value);
      }
    }
  }

  /** One block at each block address from `base` on. */
  ghost predicate RegionAt(memory: seq<FreeBlock>, base: nat, size: nat) {
    forall i :: 0 <= i < |memory| ==> memory[i].address == Geometry.AddressOf(base, size, i)
  }

  lemma RegionApart(memory: seq<FreeBlock>, base: nat, size: nat)
    requires size > 0 && RegionAt(memory, base, size)
    ensures Distinct(memory)
    ensures forall i, j :: 0 <= i < j < |memory| ==> memory[i].address + size <= memory[j].address
    ensures base % 64 == 0 && size % 64 == 0 ==> forall i :: 0 <= i < |memory| ==> memory[i].address % 64 == 0
  {
    forall i, j | 0 <= i < j < |memory| ensures memory[i].address + size <= memory[j].address {
      Geometry.BlocksApart(base, size, |memory|, i, j);
    }
    if base % 64 == 0 && size % 64 == 0 {
      forall i | 0 <= i < |memory| ensures memory[i].address % 64 == 0 {
        Geometry.BlocksAligned(base, size, i);
      }
    }
  }

  /** Construction from a requested block size: sizes are raised to that of a
      `FreeBlock` and rounded up to cache lines, and the region is cut into blocks
      of that size, which are aligned if the region is, and do not overlap. */
  method MakePool(size: nat, base: nat, memory: seq<FreeBlock>, batch: nat) returns (pool: CachedPool, blockSize: nat)
    requires size <= Geometry.LAST_SIZE
    requires RegionAt(memory, base, Geometry.MaskUp(if size < 64 then 64 else size))
    modifies memory
    ensures Geometry.Fits(size, 64, blockSize) && forall k :: Geometry.Fits(size, 64, k) ==> blockSize <= k
    ensures forall i, j :: 0 <= i < j < |memory| ==> memory[i].address + blockSize <= memory[j].address
    ensures base % 64 == 0 ==> forall i :: 0 <= i < |memory| ==> memory[i].address % 64 == 0
    ensures pool.Valid() && pool.batch == batch && pool.blocks == Elements(memory)
    ensures pool.View() == CacheSpec.Pool(CacheSpec.Reverse(memory), map[])
  {
    blockSize := Geometry.MaskUp(if size < 64 then 64 else size);
    Geometry.BlockSizeLeast(size, 64);
    RegionApart(memory, base, blockSize);
    pool := new CachedPool(memory, batch);
  }
}
