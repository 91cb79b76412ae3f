/** What one call of the NUMA allocator does to the pools of all nodes, stated on
    values: node `n` has the shared list and the caches of `nodes[n]`. */
module NumaSpec {
  import opened Options
  import opened CacheSpec

  type Nodes<T> = seq<Pool<T>>

  datatype Answer<T> = Answer(block: Option<T>, nodes: Nodes<T>)

  /** `get_cache(n).alloc()` of a thread. */
  function AllocAt<T>(batch: nat, nodes: Nodes<T>, thread: nat, n: nat): Answer<T>
    requires n < |nodes|
  {
    var g := AllocIn(batch, nodes[n], thread);
    Answer(g.block, nodes[n := g.pool])
  }

  /** The fallback loop of `alloc` from node `n` on, skipping `tried`. */
  function AllocFrom<T>(batch: nat, nodes: Nodes<T>, thread: nat, tried: nat, n: nat): Answer<T>
    requires n <= |nodes|
    decreases |nodes| - n
  {
    if n == |nodes| then Answer(None, nodes)
    else if n == tried then AllocFrom(batch, nodes, thread, tried, n + 1)
    else
      var a := AllocAt(batch, nodes, thread, n);
      if a.block.Some? then a else AllocFrom(batch, a.nodes, thread, tried, n + 1)
  }

  function Chosen(count: nat, current: nat): nat { if current < count then current else 0 }

  /** `alloc` of a thread that runs on node `current`. */
  function AllocOn<T>(batch: nat, nodes: Nodes<T>, thread: nat, current: nat): Answer<T>
    requires |nodes| > 0
  {
    var node := Chosen(|nodes|, current);
    var a := AllocAt(batch, nodes, thread, node);
    if a.block.Some? then a else AllocFrom(batch, a.nodes, thread, node, 0)
  }

  /** `dealloc` of a block, or of null, at the node that owns its address. */
  function DeallocAt<T>(batch: nat, nodes: Nodes<T>, thread: nat, n: nat, block: Option<T>): Nodes<T>
    requires n < |nodes|
  {
    nodes[n := DeallocIn(batch, nodes[n], thread, block)]
  }

  // ------------------------------------------------------------------
  // Who serves a call
  // ------------------------------------------------------------------

  /** Neither the thread's cache for the node nor the shared list has a block. */
  predicate Nothing<T(==)>(nodes: Nodes<T>, thread: nat, n: nat)
    requires n < |nodes|
  {
    Local(nodes[n], thread) == [] && nodes[n].global == []
  }

  /** The lists of both pools are the same; caches may have come into being. */
  ghost predicate SamePool<T>(p: Pool<T>, q: Pool<T>) {
    p.global == q.global && forall t :: Local(p, t) == Local(q, t)
  }

  ghost predicate SameLists<T>(a: Nodes<T>, b: Nodes<T>) {
    |a| == |b| && forall n :: 0 <= n < |a| ==> SamePool(a[n], b[n])
  }

  /** The answer and the lists are those of an attempt at node `n`, which had a block. */
  ghost predicate ServedBy<T>(batch: nat, nodes: Nodes<T>, a: Answer<T>, thread: nat, n: nat) {
    && n < |nodes| && !Nothing(nodes, thread, n)
    && a.block.Some? && a.block == AllocAt(batch, nodes, thread, n).block
    && SameLists(a.nodes, AllocAt(batch, nodes, thread, n).nodes)
  }

  lemma PutSame<T>(p: Pool<T>, q: Pool<T>, thread: nat, st: Store<T>)
    requires SamePool(p, q)
    ensures SamePool(Put(p, thread, st), Put(q, thread, st))
    ensures st == StoreOf(p, thread) ==> SamePool(p, Put(p, thread, st))
  {
    forall t ensures Local(Put(p, thread, st), t) == Local(Put(q, thread, st), t) {
      assert Local(p, t) == Local(q, t);
    }
  }

  lemma SameSelf<T>(p: Nodes<T>)
    ensures SameLists(p, p)
  {
  }

  lemma FailedAt<T>(batch: nat, nodes: Nodes<T>, thread: nat, n: nat)
    requires n < |nodes| && AllocAt(batch, nodes, thread, n).block.None?
    ensures Nothing(nodes, thread, n) && SameLists(nodes, AllocAt(batch, nodes, thread, n).nodes)
  {
    var st := StoreOf(nodes[n], thread);
    AllocNull(batch, st);
    PutSame(nodes[n], nodes[n], thread, st);
    SameSelf(nodes);
  }

  lemma ServedAt<T>(batch: nat, nodes: Nodes<T>, thread: nat, n: nat)
    requires n < |nodes| && AllocAt(batch, nodes, thread, n).block.Some?
    ensures ServedBy(batch, nodes, AllocAt(batch, nodes, thread, n), thread, n)
  {
    AllocNull(batch, StoreOf(nodes[n], thread));
    SameSelf(AllocAt(batch, nodes, thread, n).nodes);
  }

  /** One attempt fails exactly when there is nothing at the node, and then the
      lists stay as they are. */
  lemma {:induction false} AllocAtEffect<T>(batch: nat, nodes: Nodes<T>, thread: nat, n: nat)
    requires n < |nodes|
    ensures var a := AllocAt(batch, nodes, thread, n);
      if a.block.None? then Nothing(nodes, thread, n) && SameLists(nodes, a.nodes)
        else ServedBy(batch, nodes, a, thread, n)
  {
    if AllocAt(batch, nodes, thread, n).block.None? {
      FailedAt(batch, nodes, thread, n);
    } else {
      ServedAt(batch, nodes, thread, n);
    }
  }

  lemma SameAttempt<T>(batch: nat, p: Nodes<T>, q: Nodes<T>, thread: nat, n: nat)
    requires SameLists(p, q) && n < |p|
    ensures AllocAt(batch, p, thread, n).block == AllocAt(batch, q, thread, n).block
    ensures SameLists(AllocAt(batch, p, thread, n).nodes, AllocAt(batch, q, thread, n).nodes)
    ensures Nothing(p, thread, n) <==> Nothing(q, thread, n)
  {
    assert SamePool(p[n], q[n]);
    assert Local(p[n], thread) == Local(q[n], thread);
    PutSame(p[n], q[n], thread, Alloc(batch, StoreOf(p[n], thread)).store);
  }

  lemma SameTrans<T>(a: Nodes<T>, b: Nodes<T>, c: Nodes<T>)
    requires SameLists(a, b) && SameLists(b, c)
    ensures SameLists(a, c) && SameLists(b, a)
  {
    forall n | 0 <= n < |a| ensures SamePool(a[n], c[n]) && SamePool(b[n], a[n]) {
      assert SamePool(a[n], b[n]) && SamePool(b[n], c[n]);
    }
  }

  lemma SameNoList<T>(p: Pool<T>, q: Pool<T>, b: T)
    requires SamePool(p, q) && InNoList(q, b)
    ensures InNoList(p, b)
  {
    forall t | t in p.caches ensures b !in p.caches[t] {
      assert Local(p, t) == Local(q, t);
    }
  }

  lemma SameServed<T>(batch: nat, p: Nodes<T>, q: Nodes<T>, a: Answer<T>, thread: nat, n: nat)
    requires SameLists(p, q) && ServedBy(batch, q, a, thread, n)
    ensures ServedBy(batch, p, a, thread, n)
  {
    SameTrans(p, q, q);
    SameAttempt(batch, q, p, thread, n);
    SameTrans(a.nodes, AllocAt(batch, q, thread, n).nodes, AllocAt(batch, p, thread, n).nodes);
  }

  /** Outcome `a` of the fallback loop from node `n`: nothing at the nodes before
      `m`, and `m` served it or is the end. */
  ghost predicate FromResult<T>(batch: nat, p: Nodes<T>, thread: nat, tried: nat, n: nat, m: nat, a: Answer<T>) {
    && n <= m <= |p|
    && (forall i :: n <= i < m && i != tried ==> Nothing(p, thread, i))
    && (if a.block.None? then m == |p| && SameLists(p, a.nodes)
        else m < |p| && m != tried && ServedBy(batch, p, a, thread, m))
  }

  lemma FromShift<T>(batch: nat, p: Nodes<T>, q: Nodes<T>, thread: nat, tried: nat, n: nat, m: nat, a: Answer<T>)
    requires n < |p| && SameLists(p, q) && FromResult(batch, q, thread, tried, n + 1, m, a)
    requires n == tried || Nothing(p, thread, n)
    ensures FromResult(batch, p, thread, tried, n, m, a)
  {
    forall i | n <= i < m && i != tried ensures Nothing(p, thread, i) {
      SameAttempt(batch, p, q, thread, i);
    }
    if a.block.Some? {
      SameServed(batch, p, q, a, thread, m);
    } else {
      SameTrans(p, q, a.nodes);
    }
  }

  /** A node with a block ends the loop. */
  lemma FromServed<T>(batch: nat, p: Nodes<T>, thread: nat, tried: nat, n: nat)
    requires n < |p| && n != tried && AllocAt(batch, p, thread, n).block.Some?
    ensures FromResult(batch, p, thread, tried, n, n, AllocAt(batch, p, thread, n))
  {
    AllocAtEffect(batch, p, thread, n);
  }

  /** A node without one leaves the lists alone, and the loop goes on. */
  lemma FromFailed<T>(batch: nat, p: Nodes<T>, thread: nat, tried: nat, n: nat, q: Nodes<T>, m: nat, a: Answer<T>)
    requires n < |p| && AllocAt(batch, p, thread, n) == Answer(None, q)
    requires FromResult(batch, q, thread, tried, n + 1, m, a)
    ensures FromResult(batch, p, thread, tried, n, m, a)
  {
    AllocAtEffect(batch, p, thread, n);
    FromShift(batch, p, q, thread, tried, n, m, a);
  }

  lemma {:induction false} AllocFromEffect<T>(batch: nat, p: Nodes<T>, thread: nat, tried: nat, n: nat) returns (m: nat)
    requires n <= |p|
    ensures FromResult(batch, p, thread, tried, n, m, AllocFrom(batch, p, thread, tried, n))
    decreases |p| - n
  {
    m := n;
    SameSelf(p);
    if n == |p| {
    } else if n == tried {
      m := AllocFromEffect(batch, p, thread, tried, n + 1);
      FromShift(batch, p, p, thread, tried, n, m, AllocFrom(batch, p, thread, tried, n + 1));
    } else {
      var a := AllocAt(batch, p, thread, n);
      if a.block.Some? {
        FromServed(batch, p, thread, tried, n);
      } else {
        m := AllocFromEffect(batch, a.nodes, thread, tried, n + 1);
        FromFailed(batch, p, thread, tried, n, a.nodes, m, AllocFrom(batch, a.nodes, thread, tried, n + 1));
      }
    }
  }

  lemma SomewhereElse<T>(batch: nat, p: Nodes<T>, q: Nodes<T>, thread: nat, tried: nat, m: nat, a: Answer<T>)
    requires SameLists(p, q) && FromResult(batch, q, thread, tried, 0, m, a)
    requires tried < |p| && Nothing(p, thread, tried)
    ensures m <= |p| && forall n :: 0 <= n < m ==> Nothing(p, thread, n)
    ensures if a.block.None? then m == |p| && SameLists(p, a.nodes) else ServedBy(batch, p, a, thread, m)
  {
    forall n | 0 <= n < m ensures Nothing(p, thread, n) {
      SameAttempt(batch, p, q, thread, n);
    }
    if a.block.Some? {
      SameServed(batch, p, q, a, thread, m);
    } else {
      SameTrans(p, q, a.nodes);
    }
  }

  /** `alloc` returns null exactly when the thread's caches and all shared lists
      are empty. Otherwise one node serves it: the one the thread runs on, or node
      0 if there is no such node, if it has a block, else the first that has. */
  lemma AllocServed<T>(batch: nat, p: Nodes<T>, thread: nat, current: nat) returns (from: nat)
    requires |p| > 0
    ensures var a := AllocOn(batch, p, thread, current);
      && (a.block.None? <==> forall n :: 0 <= n < |p| ==> Nothing(p, thread, n))
      && (a.block.None? ==> SameLists(p, a.nodes))
      && (a.block.Some? ==> ServedBy(batch, p, a, thread, from))
      && (current < |p| && !Nothing(p, thread, current) ==> from == current)
      && (current >= |p| && !Nothing(p, thread, 0) ==> from == 0)
      && (a.block.Some? && from != (if current < |p| then current else 0) ==>
            forall n :: 0 <= n < from ==> Nothing(p, thread, n))
  {
    var node := Chosen(|p|, current);
    AllocAtEffect(batch, p, thread, node);
    var a := AllocAt(batch, p, thread, node);
    from := node;
    if a.block.None? {
      from := AllocFromEffect(batch, a.nodes, thread, node, 0);
      SomewhereElse(batch, p, a.nodes, thread, node, from, AllocFrom(batch, a.nodes, thread, node, 0));
    }
  }
}
