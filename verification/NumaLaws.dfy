/** What the calls of the NUMA allocator do, stated on the lists of the nodes before
    and after. */
module NumaLaws {
  import opened Options
  import opened CacheSpec
  import opened CacheLaws
  import opened NumaSpec

  lemma {:induction false} SameBlocks<T>(p: Pool<T>, q: Pool<T>, n: nat)
    requires SamePool(p, q)
    ensures Blocks(p, n) == Blocks(q, n)
  {
    if n > 0 {
      SameBlocks(p, q, n - 1);
      assert Local(p, n - 1) == Local(q, n - 1);
    }
  }

  /** One attempt takes the block it answers out of the lists of that node, and does
      not concern other nodes or the caches of other threads. */
  lemma AllocAtLaw<T>(batch: nat, nodes: Nodes<T>, thread: nat, n: nat, bound: nat)
    requires n < |nodes| && thread < bound
    ensures var a := AllocAt(batch, nodes, thread, n);
      && |a.nodes| == |nodes| && (forall k :: 0 <= k < |nodes| && k != n ==> a.nodes[k] == nodes[k])
      && OnlyThread(nodes[n], a.nodes[n], thread)
      && Blocks(nodes[n], bound) ==
           Blocks(a.nodes[n], bound) + (if a.block.Some? then multiset{a.block.value} else multiset{})
  {
    AllocInLaw(batch, nodes[n], thread, bound);
  }

  /** A free brings the block into the lists of the node that owns its address, and
      does not concern other nodes or the caches of other threads. */
  lemma DeallocAtLaw<T>(batch: nat, nodes: Nodes<T>, thread: nat, n: nat, b: T, bound: nat)
    requires n < |nodes| && thread < bound
    ensures var q := DeallocAt(batch, nodes, thread, n, Some(b));
      && |q| == |nodes| && (forall k :: 0 <= k < |nodes| && k != n ==> q[k] == nodes[k])
      && OnlyThread(nodes[n], q[n], thread)
      && Blocks(q[n], bound) == Blocks(nodes[n], bound) + multiset{b}
      && (|Local(nodes[n], thread)| + 1 <= 2 * batch ==>
            Local(q[n], thread) == [b] + Local(nodes[n], thread) && q[n].global == nodes[n].global)
      && (|Local(nodes[n], thread)| + 1 > 2 * batch ==> |Local(q[n], thread)| == batch)
  {
    DeallocInLaw(batch, nodes[n], thread, b, bound);
  }

  /** The free of null changes no list of any node. */
  lemma NullDeallocAtLaw<T>(batch: nat, nodes: Nodes<T>, thread: nat, n: nat)
    requires n < |nodes|
    ensures SameLists(nodes, DeallocAt(batch, nodes, thread, n, None))
  {
    NullDeallocLaw(batch, nodes[n], thread);
  }

  /** A whole `alloc`: the block it returns leaves the lists of one node; the lists
      of all other nodes, and those of all other threads, stay as they are. */
  lemma AllocOnLaw<T>(batch: nat, nodes: Nodes<T>, thread: nat, current: nat, bound: nat) returns (from: nat)
    requires |nodes| > 0 && thread < bound
    ensures var a := AllocOn(batch, nodes, thread, current);
      && |a.nodes| == |nodes|
      && (a.block.Some? ==> from < |nodes|)
      && (forall k :: 0 <= k < |nodes| && (a.block.Some? ==> k != from) ==> SamePool(nodes[k], a.nodes[k]))
      && (a.block.Some? ==> Blocks(nodes[from], bound) == Blocks(a.nodes[from], bound) + multiset{a.block.value})
      && (a.block.Some? ==> forall u :: u != thread ==> Local(a.nodes[from], u) == Local(nodes[from], u))
  {
    from := AllocServed(batch, nodes, thread, current);
    var a := AllocOn(batch, nodes, thread, current);
    if a.block.Some? {
      var one := AllocAt(batch, nodes, thread, from);
      AllocAtLaw(batch, nodes, thread, from, bound);
      SameSelf(nodes);
      forall k | 0 <= k < |nodes| && k != from ensures SamePool(nodes[k], a.nodes[k]) {
        assert SamePool(a.nodes[k], one.nodes[k]);
      }
      assert SamePool(a.nodes[from], one.nodes[from]);
      SameBlocks(a.nodes[from], one.nodes[from], bound);
      forall u | u != thread ensures Local(a.nodes[from], u) == Local(nodes[from], u) {
        assert Local(a.nodes[from], u) == Local(one.nodes[from], u);
      }
    }
  }
}
