/** The NUMA allocator: one pool of linked blocks per node, each with the caches
    of all threads for that node. One call at a time; every method is proved
    against `NumaSpec`. */
module NumaAllocators {
  import opened Options
  import opened Sequences
  import opened Regions
  import opened FreeList
  import opened ThreadCaches
  import opened CachedPools
  import CacheSpec
  import Geometry
  import Numa
  import NumaSpec

  const MAX_NODES: nat := 16

  /** Two pools that share no object: caches belong to the list they work on. */
  ghost predicate Apart(p: CachedPool, q: CachedPool) {
    p != q && p.global != q.global && p.blocks !! q.blocks
  }

  /** A pool serves a thread; other pools are not concerned. */
  method AllocBeside(p: CachedPool, thread: nat, ghost others: set<CachedPool>) returns (block: FreeBlock?)
    requires p.Valid() && forall q :: q in others ==> q.Valid() && Apart(p, q)
    modifies p, p.CacheOf(thread), p.global, p.global.stack
    ensures p.Valid() && forall q :: q in others ==> q.Valid() && q.View() == old(q.View()) && q.caches == old(q.caches)
    ensures var g := CacheSpec.AllocIn(p.batch, old(p.View()), thread);
      p.View() == g.pool && block == (if g.block.Some? then g.block.value else null)
  {
    forall q, t | q in others && t in q.caches ensures q.caches[t] !in p.CacheOf(thread) {
      assert q.Own(q.caches[t]);
    }
    block := p.Alloc(thread);
    forall q | q in others ensures q.Valid() && q.View() == old(q.View()) && q.caches == old(q.caches) {
      q.Undisturbed();
    }
  }

  lemma LocalWithin(p: CachedPool, thread: nat)
    requires p.Valid()
    ensures forall b :: b in CacheSpec.Local(p.View(), thread) ==> b in p.blocks
  {
    if thread in p.caches {
      assert p.Own(p.caches[thread]);
    }
  }

  method DeallocIn(p: CachedPool, thread: nat, block: FreeBlock)
    requires p.Valid() && p.Out(block)
    modifies p, p.CacheOf(thread), p.global, p.blocks
    ensures p.Valid() && p.View() == CacheSpec.DeallocIn(p.batch, old(p.View()), thread, Some(block))
  {
    LocalWithin(p, thread);
    p.DeallocBlock(thread, block);
  }

  method GetBeside(p: CachedPool, thread: nat, ghost others: set<CachedPool>)
    requires p.Valid() && forall q :: q in others ==> q.Valid() && Apart(p, q)
    modifies p
    ensures p.Valid() && forall q :: q in others ==> q.Valid() && q.View() == old(q.View())
    ensures p.View() == CacheSpec.DeallocIn(p.batch, old(p.View()), thread, None)
  {
    p.NullDealloc(thread);
    forall q | q in others ensures q.Valid() && q.View() == old(q.View()) {
      assert Apart(p, q) && q in others && old(q.Valid());
      q.Undisturbed();
    }
  }

  /** A pool takes back a block; other pools are not concerned. */
  method DeallocBeside(p: CachedPool, thread: nat, block: FreeBlock, ghost others: set<CachedPool>)
    requires p.Valid() && p.Out(block) && forall q :: q in others ==> q.Valid() && Apart(p, q)
    modifies p, p.CacheOf(thread), p.global, p.blocks
    ensures p.Valid() && forall q :: q in others ==> q.Valid() && q.View() == old(q.View()) && q.caches == old(q.caches)
    ensures p.View() == CacheSpec.DeallocIn(p.batch, old(p.View()), thread, Some(block))
  {
    forall q, t | q in others && t in q.caches ensures q.caches[t] !in p.CacheOf(thread) {
      assert q.Own(q.caches[t]);
    }
    DeallocIn(p, thread, block);
    forall q | q in others ensures q.Valid() && q.View() == old(q.View()) && q.caches == old(q.caches) {
      q.Undisturbed();
    }
  }

  /** The memory of node `n`: one block at each block address of its region. */
  ghost predicate RegionOf(layout: Config, n: nat, memory: seq<FreeBlock>)
    requires n < |layout.bases|
  {
    |memory| == layout.count && forall i :: 0 <= i < |memory| ==> memory[i].address == BlocksOf(layout, n)[i]
  }

  lemma RegionOwned(layout: Config, n: nat, memory: seq<FreeBlock>)
    requires Sound(layout) && n < |layout.bases| && RegionOf(layout, n, memory)
    ensures Distinct(memory) && forall b :: b in memory ==> Numa.OwnerNode(layout, b.address) == n
  {
    forall i, j | 0 <= i < j < |memory| ensures memory[i] != memory[j] {
      BlocksDistinct(layout, n, i, j);
    }
    forall b | b in memory ensures Numa.OwnerNode(layout, b.address) == n {
      Numa.BlockOwner(layout, n, b.address);
    }
  }

  ghost function AllOf(memory: seq<seq<FreeBlock>>): set<FreeBlock> {
    set n, b | 0 <= n < |memory| && b in memory[n] :: b
  }

  /** A pool as its constructor leaves it. */
  ghost predicate Filled(pool: CachedPool, region: seq<FreeBlock>, batch: nat)
    reads pool, pool.global, pool.blocks, pool.caches.Values
  {
    && pool.Valid() && pool.batch == batch && pool.blocks == Elements(region)
    && pool.View() == CacheSpec.Pool(CacheSpec.Reverse(region), map[])
  }

  /** A new pool beside those already made. */
  method AddPool(region: seq<FreeBlock>, batch: nat, ghost made: seq<CachedPool>, ghost memory: seq<seq<FreeBlock>>)
    returns (pool: CachedPool)
    requires Distinct(region) && |made| <= |memory|
    requires forall k :: 0 <= k < |made| ==>
      Filled(made[k], memory[k], batch) && Elements(memory[k]) !! Elements(region)
    modifies region
    ensures Filled(pool, region, batch)
    ensures forall k :: 0 <= k < |made| ==>
      Filled(made[k], memory[k], batch) && Apart(pool, made[k]) && Apart(made[k], pool)
  {
    pool := new CachedPool(region, batch);
    forall k | 0 <= k < |made|
      ensures Filled(made[k], memory[k], batch) && Apart(pool, made[k]) && Apart(made[k], pool)
    {
      made[k].Undisturbed();
    }
  }

  lemma RegionsApart(layout: Config, memory: seq<seq<FreeBlock>>)
    requires Sound(layout) && |memory| >= |layout.bases|
    requires forall n :: 0 <= n < |layout.bases| ==> RegionOf(layout, n, memory[n])
    ensures forall n :: 0 <= n < |layout.bases| ==> Distinct(memory[n])
    ensures forall n, k :: 0 <= n < |layout.bases| && 0 <= k < |layout.bases| && n != k ==>
      Elements(memory[k]) !! Elements(memory[n])
  {
    forall n | 0 <= n < |layout.bases|
      ensures Distinct(memory[n]) && forall b :: b in memory[n] ==> Numa.OwnerNode(layout, b.address) == n
    {
      RegionOwned(layout, n, memory[n]);
    }
  }

  /** The pools of a layout, filled one after the other. */
  method BuildPools(layout: Config, memory: seq<seq<FreeBlock>>, batch: nat) returns (made: seq<CachedPool>)
    requires Sound(layout) && |memory| >= |layout.bases|
    requires forall n :: 0 <= n < |layout.bases| ==> RegionOf(layout, n, memory[n])
    modifies AllOf(memory)
    ensures |made| == |layout.bases| && forall n :: 0 <= n < |made| ==> Filled(made[n], memory[n], batch)
    ensures forall n, m :: 0 <= n < |made| && 0 <= m < |made| && n != m ==> Apart(made[n], made[m])
  {
    RegionsApart(layout, memory);
    made := [];
    for n := 0 to |layout.bases|
      invariant |made| == n && forall k :: 0 <= k < n ==> Filled(made[k], memory[k], batch)
      invariant forall k, m :: 0 <= k < n && 0 <= m < n && k != m ==> Apart(made[k], made[m])
    {
      assert forall b :: b in memory[n] ==> b in AllOf(memory);
      var pool := AddPool(memory[n], batch, made, memory);
      made := made + [pool];
    }
  }

  class NumaAllocator {
    const cfg: Config
    const batch: nat
    const pools: seq<CachedPool>
    ghost var nodes: NumaSpec.Nodes<FreeBlock>

    /** Pool `n` has blocks that node `n` owns by their address. */
    ghost predicate Home(n: nat)
      requires n < |pools|
    {
      pools[n].batch == batch && forall b :: b in pools[n].blocks ==> Numa.OwnerNode(cfg, b.address) == n
    }

    ghost predicate Laid() {
      && Sound(cfg) && |pools| == |cfg.bases| <= MAX_NODES
      && (forall n :: 0 <= n < |pools| ==> Home(n))
      && (forall n, m :: 0 <= n < |pools| && 0 <= m < |pools| && n != m ==> Apart(pools[n], pools[m]))
    }

    ghost function Globals(): set<FreelistAllocator> {
      set n | 0 <= n < |pools| :: pools[n].global
    }

    ghost function Blocks(): set<FreeBlock> {
      set n, b | 0 <= n < |pools| && b in pools[n].blocks :: b
    }

    ghost function Caches(): set<ThreadCache>
      reads pools
    {
      set n, c | 0 <= n < |pools| && c in pools[n].caches.Values :: c
    }

    ghost predicate Valid()
      reads this, pools, Globals(), Blocks(), Caches()
    {
      Laid() && |nodes| == |pools| && forall n :: 0 <= n < |pools| ==> pools[n].Valid() && nodes[n] == pools[n].View()
    }

    /** A client has the block: it is one of a pool, and in no list. */
    ghost predicate Lent(block: FreeBlock)
      reads pools, Globals()
    {
      exists n :: 0 <= n < |pools| && pools[n].Out(block)
    }

    ghost function Others(n: nat): set<CachedPool> {
      set m | 0 <= m < |pools| && m != n :: pools[m]
    }

    lemma OthersApart(n: nat)
      requires Laid() && n < |pools|
      ensures forall q :: q in Others(n) ==> Apart(pools[n], q)
      ensures forall m :: 0 <= m < |pools| && m != n ==> pools[m] in Others(n)
    {
    }

    /** The pools serve a thread at one node. */
    method AllocPools(thread: nat, node: nat, ghost vs: NumaSpec.Nodes<FreeBlock>) returns (block: FreeBlock?)
      requires Laid() && node < |pools| == |vs| && forall n :: 0 <= n < |pools| ==>
        pools[n].Valid() && vs[n] == pools[n].View()
      modifies pools[node], pools[node].CacheOf(thread), pools[node].global, pools[node].global.stack
      ensures forall m :: 0 <= m < |pools| && m != node ==> pools[m].caches == old(pools[m].caches)
      ensures var a := NumaSpec.AllocAt(batch, vs, thread, node);
        && (forall n :: 0 <= n < |pools| ==> pools[n].Valid() && a.nodes[n] == pools[n].View())
        && block == (if a.block.Some? then a.block.value else null)
    {
      assert Home(node);
      OthersApart(node);
      block := AllocBeside(pools[node], thread, Others(node));
    }

    /** Every pool is filled with the blocks of its region; node counts above
        `MAX_NODES` are cut down to it. `memory[n]` is what node `n` gave. */
    constructor (nodeCount: nat, regions: seq<nat>, memory: seq<seq<FreeBlock>>, size: nat, blocks: nat, batchSize: nat)
      requires nodeCount > 0
      requires var count := if nodeCount > MAX_NODES then MAX_NODES else nodeCount;
        && |regions| >= count && |memory| >= count
        && var layout := Config(regions[..count], Geometry.MaskUp(if size < 64 then 64 else size), blocks);
           Sound(layout) && forall n :: 0 <= n < count ==> RegionOf(layout, n, memory[n])
      modifies AllOf(memory)
      ensures Valid() && batch == batchSize
      ensures |cfg.bases| == (if nodeCount > MAX_NODES then MAX_NODES else nodeCount)
      ensures forall n :: 0 <= n < |nodes| ==> nodes[n] == CacheSpec.Pool(CacheSpec.Reverse(memory[n]), map[])
    {
      var count := if nodeCount > MAX_NODES then MAX_NODES else nodeCount;
      var layout := Config(regions[..count], Geometry.MaskUp(if size < 64 then 64 else size), blocks);
      var made := BuildPools(layout, memory, batchSize);
      forall n | 0 <= n < count ensures forall b :: b in made[n].blocks ==> Numa.OwnerNode(layout, b.address) == n {
        RegionOwned(layout, n, memory[n]);
      }
      cfg, batch, pools := layout, batchSize, made;
      nodes := seq(count, n requires 0 <= n < count => CacheSpec.Pool(CacheSpec.Reverse(memory[n]), map[]));
    }

    /** One attempt at a node: `get_cache(node).alloc()`. */
    method AllocAt(thread: nat, node: nat) returns (block: FreeBlock?)
      requires Valid() && node < |pools|
      modifies this, pools[node], pools[node].CacheOf(thread), pools[node].global, pools[node].global.stack
      ensures Valid() && forall m :: 0 <= m < |pools| && m != node ==> pools[m].caches == old(pools[m].caches)
      ensures var a := NumaSpec.AllocAt(batch, old(nodes), thread, node);
        nodes == a.nodes && block == (if a.block.Some? then a.block.value else null)
    {
      ghost var vs := nodes;
      nodes := NumaSpec.AllocAt(batch, vs, thread, node).nodes;
      block := AllocPools(thread, node, vs);
    }

    ghost function CachesBut(tried: nat): set<ThreadCache>
      reads pools
    {
      set n, c | 0 <= n < |pools| && n != tried && c in pools[n].caches.Values :: c
    }

    /** What an attempt at node `n` may write. */
    lemma FrameWithin(n: nat, thread: nat)
      requires Valid() && n < |pools|
      ensures pools[n].global in Globals()
      ensures forall b :: b in pools[n].global.stack ==> b in Blocks()
      ensures forall c :: c in pools[n].CacheOf(thread) ==> c in pools[n].caches.Values
    {
      assert pools[n].SharedValid();
    }

    /** The fallback loop over the other nodes. */
    method AllocElsewhere(thread: nat, tried: nat) returns (block: FreeBlock?)
      requires Valid()
      modifies this, pools, Globals(), Blocks(), CachesBut(tried)
      ensures Valid()
      ensures var a := NumaSpec.AllocFrom(batch, old(nodes), thread, tried, 0);
        nodes == a.nodes && block == (if a.block.Some? then a.block.value else null)
    {
      ghost var spec := NumaSpec.AllocFrom(batch, nodes, thread, tried, 0);
      for n := 0 to |pools|
        invariant Valid() && forall m :: n <= m < |pools| ==> pools[m].caches == old(pools[m].caches)
        invariant spec == NumaSpec.AllocFrom(batch, nodes, thread, tried, n)
      {
        if n != tried {
          FrameWithin(n, thread);
          block := AllocAt(thread, n);
          if block != null {
            return;
          }
        }
      }
      block := null;
    }

    /** What an `alloc` will return is a block of a pool, and in no list afterwards. */
    lemma AllocLends(thread: nat, current: nat) returns (n: nat)
      requires Valid()
      ensures var a := NumaSpec.AllocOn(batch, nodes, thread, current);
        a.block.Some? ==>
          n < |pools| == |a.nodes| && a.block.value in pools[n].blocks && CacheSpec.InNoList(a.nodes[n], a.block.value)
    {
      var a := NumaSpec.AllocOn(batch, nodes, thread, current);
      n := NumaSpec.AllocServed(batch, nodes, thread, current);
      if a.block.Some? {
        assert Home(n) && pools[n].Valid();
        pools[n].AllocGivesOut(thread);
        NumaSpec.SameNoList(a.nodes[n], NumaSpec.AllocAt(batch, nodes, thread, n).nodes[n], a.block.value);
      }
    }

    /** `current` is the node the thread runs on. */
    method Alloc(thread: nat, current: nat) returns (block: FreeBlock?)
      requires Valid()
      modifies this, pools, Globals(), Blocks(), Caches()
      ensures Valid() && (block != null ==> Lent(block))
      ensures var a := NumaSpec.AllocOn(batch, old(nodes), thread, current);
        nodes == a.nodes && block == (if a.block.Some? then a.block.value else null)
    {
      var node := if current < |pools| then current else 0;
      ghost var n := AllocLends(thread, current);
      FrameWithin(node, thread);
      block := AllocAt(thread, node);
      if block == null {
        block := AllocElsewhere(thread, node);
      }
      assert block != null ==> pools[n].Out(block);
    }

    /** The search loop of `owner_node`. */
    method OwnerNode(p: nat) returns (node: nat)
      requires Sound(cfg)
      ensures node == Numa.OwnerNode(cfg, p) && node < |cfg.bases|
    {
      for n := 0 to |cfg.bases|
        invariant FindRegion(cfg, p, 0) == FindRegion(cfg, p, n)
      {
        if cfg.bases[n] <= p < cfg.bases[n] + cfg.count * cfg.size {
          return n;
        }
      }
      return 0;
    }

    method DeallocPools(thread: nat, node: nat, block: FreeBlock, ghost vs: NumaSpec.Nodes<FreeBlock>)
      requires Laid() && node < |pools| == |vs| && forall n :: 0 <= n < |pools| ==>
        pools[n].Valid() && vs[n] == pools[n].View()
      requires pools[node].Out(block)
      modifies pools[node], pools[node].CacheOf(thread), pools[node].global, pools[node].blocks
      ensures var vs' := NumaSpec.DeallocAt(batch, vs, thread, node, Some(block));
        forall n :: 0 <= n < |pools| ==> pools[n].Valid() && vs'[n] == pools[n].View()
    {
      assert Home(node);
      OthersApart(node);
      DeallocBeside(pools[node], thread, block, Others(node));
    }

    /** A block that a client has goes to the pool of the node that owns it. */
    method DeallocBlock(thread: nat, block: FreeBlock)
      requires Valid() && Lent(block)
      modifies this, pools, Globals(), Blocks(), Caches()
      ensures Valid() && Numa.OwnerNode(cfg, block.address) < |pools|
      ensures nodes == NumaSpec.DeallocAt(batch, old(nodes), thread, Numa.OwnerNode(cfg, block.address), Some(block))
    {
      var node := OwnerNode(block.address);
      OutAtOwner(block);
      FrameWithin(node, thread);
      ghost var vs := nodes;
      nodes := NumaSpec.DeallocAt(batch, vs, thread, node, Some(block));
      DeallocPools(thread, node, block, vs);
    }

    /** No region contains address 0, so the search ends with node 0. */
    lemma NullOwner()
      requires Sound(cfg)
      ensures Numa.OwnerNode(cfg, 0) == 0
    {
      assert FindRegion(cfg, 0, 0).None?;
    }

    /** The free of null creates the thread's cache for the node that the search
        on null yields, and changes no list. */
    method DeallocNull(thread: nat)
      requires Valid()
      modifies this, pools
      ensures Valid() && Numa.OwnerNode(cfg, 0) == 0
      ensures nodes == NumaSpec.DeallocAt(batch, old(nodes), thread, 0, None)
    {
      var node := OwnerNode(0);
      NullOwner();
      ghost var vs := nodes;
      nodes := NumaSpec.DeallocAt(batch, vs, thread, node, None);
      NullPools(thread, node, vs);
    }

    method NullPools(thread: nat, node: nat, ghost vs: NumaSpec.Nodes<FreeBlock>)
      requires Laid() && node < |pools| == |vs|
      requires forall n :: 0 <= n < |pools| ==> pools[n].Valid() && vs[n] == pools[n].View()
      modifies pools[node]
      ensures var vs' := NumaSpec.DeallocAt(batch, vs, thread, node, None);
        forall n :: 0 <= n < |pools| ==> pools[n].Valid() && vs'[n] == pools[n].View()
    {
      assert Home(node);
      OthersApart(node);
      GetBeside(pools[node], thread, Others(node));
    }

    /** A block that a client has, or null. */
    method Dealloc(thread: nat, block: FreeBlock?)
      requires Valid() && (block != null ==> Lent(block))
      modifies this, pools, Globals(), Blocks(), Caches()
      ensures Valid()
      ensures block == null ==> nodes == NumaSpec.DeallocAt(batch, old(nodes), thread, 0, None)
      ensures block != null ==> (var b: FreeBlock := block;
        && Numa.OwnerNode(cfg, b.address) < |pools|
        && nodes == NumaSpec.DeallocAt(batch, old(nodes), thread, Numa.OwnerNode(cfg, b.address), Some(b)))
    {
      if block == null {
        DeallocNull(thread);
      } else {
        DeallocBlock(thread, block);
      }
    }

    /** A client's block is one of the pool that its address leads to. */
    lemma OutAtOwner(block: FreeBlock)
      requires Valid() && Lent(block)
      ensures Numa.OwnerNode(cfg, block.address) < |pools| && pools[Numa.OwnerNode(cfg, block.address)].Out(block)
    {
      var n :| 0 <= n < |pools| && pools[n].Out(block);
      assert Home(n);
    }

    /** Every block on a list of node `n` is owned by node `n`. */
    lemma ListsOwned(n: nat, thread: nat, b: FreeBlock)
      requires Valid() && n < |nodes| && (b in nodes[n].global || b in CacheSpec.Local(nodes[n], thread))
      ensures Numa.OwnerNode(cfg, b.address) == n
    {
      assert Home(n) && pools[n].SharedValid();
      LocalWithin(pools[n], thread);
    }
  }
}
