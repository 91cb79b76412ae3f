/** What the bulk transfers and the thread cache do to the two free lists,
    stated on sequences: `local` is the cache, `global` the shared stack. */
module CacheSpec {
  import opened Options
  import opened Sequences

  datatype Store<T> = Store(local: seq<T>, global: seq<T>)

  datatype Grant<T> = Grant(block: Option<T>, store: Store<T>)

  function Min(a: nat, b: nat): nat { if a <= b then a else b }

  /** How many blocks `pop_bulk(n)` takes from a stack of length `len`: it
      always tries one, even for `n == 0`. */
  function Taken(n: nat, len: nat): nat { Min(if n == 0 then 1 else n, len) }

  function Reverse<T>(s: seq<T>): (r: seq<T>)
    ensures |r| == |s|
  {
    if s == [] then [] else Reverse(s[1..]) + [s[0]]
  }

  /** Position `k` of a reversed sequence is position `|s| - 1 - k` of the original. */
  lemma {:induction false} ReverseAt<T>(s: seq<T>, k: nat)
    requires k < |s|
    ensures Reverse(s)[k] == s[|s| - 1 - k]
  {
    if k < |s| - 1 {
      ReverseAt(s[1..], k);
    }
  }

  /** Pushing one more block puts it in front. */
  lemma {:induction false} ReverseSnoc<T>(s: seq<T>, x: T)
    ensures Reverse(s + [x]) == [x] + Reverse(s)
  {
    if s == [] {
    } else {
      assert (s + [x])[1..] == s[1..] + [x];
      ReverseSnoc(s[1..], x);
    }
  }

  lemma ReverseGrows<T>(s: seq<T>, k: nat, rest: seq<T>)
    requires k < |s|
    ensures [s[k]] + (Reverse(s[..k]) + rest) == Reverse(s[..k + 1]) + rest
  {
    ReverseSnoc(s[..k], s[k]);
    assert s[..k] + [s[k]] == s[..k + 1];
  }

  lemma {:induction false} ReverseMultiset<T>(s: seq<T>)
    ensures multiset(Reverse(s)) == multiset(s)
  {
    if s != [] {
      ReverseMultiset(s[1..]);
      assert s == [s[0]] + s[1..];
    }
  }

  lemma ReverseMember<T>(s: seq<T>)
    ensures forall x :: x in Reverse(s) <==> x in s
  {
    ReverseMultiset(s);
    forall x ensures x in Reverse(s) <==> x in s {
      assert x in Reverse(s) <==> x in multiset(Reverse(s));
      assert x in s <==> x in multiset(s);
    }
  }

  function Refill<T>(batch: nat, st: Store<T>): Store<T> {
    var k := Taken(batch, |st.global|);
    Store(st.global[..k] + st.local, st.global[k..])
  }

  function Flush<T>(excess: nat, st: Store<T>): Store<T> {
    var k := Min(excess, |st.local|);
    Store(st.local[k..], Reverse(st.local[..k]) + st.global)
  }

  function Alloc<T>(batch: nat, st: Store<T>): Grant<T> {
    var st' := if |st.local| <= batch / 2 then Refill(batch, st) else st;
    if st'.local == [] then Grant(None, st')
    else Grant(Some(st'.local[0]), st'.(local := st'.local[1..]))
  }

  /** Past the high watermark, all but one batch goes back to the shared list. */
  function Trim<T>(batch: nat, st: Store<T>): Store<T> {
    if |st.local| > 2 * batch then Flush(|st.local| - batch, st) else st
  }

  function Dealloc<T>(batch: nat, st: Store<T>, b: T): Store<T> {
    Trim(batch, st.(local := [b] + st.local))
  }

  function Contents<T>(st: Store<T>): multiset<T> { multiset(st.local) + multiset(st.global) }

  lemma Cut<T>(s: seq<T>, k: nat)
    requires k <= |s|
    ensures multiset(s[..k]) + multiset(s[k..]) == multiset(s)
  {
    assert s == s[..k] + s[k..];
  }

  lemma RefillConserves<T>(batch: nat, st: Store<T>)
    ensures Contents(Refill(batch, st)) == Contents(st)
  {
    Cut(st.global, Taken(batch, |st.global|));
  }

  lemma FlushConserves<T>(excess: nat, st: Store<T>)
    ensures Contents(Flush(excess, st)) == Contents(st)
  {
    var k := Min(excess, |st.local|);
    Cut(st.local, k);
    ReverseMultiset(st.local[..k]);
  }

  /** `alloc` yields nothing exactly when both lists are empty, and then leaves
      them alone. */
  lemma AllocNull<T>(batch: nat, st: Store<T>)
    ensures var g := Alloc(batch, st);
      && (g.block.None? <==> st.local == [] && st.global == [])
      && (g.block.None? ==> g.store == st)
  {
  }

  /** Otherwise it takes exactly the block it returns. */
  lemma AllocConserves<T>(batch: nat, st: Store<T>)
    ensures var g := Alloc(batch, st);
      Contents(st) == Contents(g.store) + (if g.block.Some? then multiset{g.block.value} else multiset{})
  {
    var st' := if |st.local| <= batch / 2 then Refill(batch, st) else st;
    RefillConserves(batch, st);
    if st'.local != [] {
      assert st'.local == [st'.local[0]] + st'.local[1..];
    }
  }

  lemma FrontContents<T>(st: Store<T>, b: T)
    ensures Contents(st.(local := [b] + st.local)) == Contents(st) + multiset{b}
  {
    assert multiset([b] + st.local) == multiset{b} + multiset(st.local);
  }

  lemma TrimConserves<T>(batch: nat, st: Store<T>)
    ensures Contents(Trim(batch, st)) == Contents(st)
  {
    if |st.local| > 2 * batch {
      FlushConserves(|st.local| - batch, st);
      assert Trim(batch, st) == Flush(|st.local| - batch, st);
    }
  }

  lemma DeallocConserves<T>(batch: nat, st: Store<T>, b: T)
    ensures Contents(Dealloc(batch, st, b)) == Contents(st) + multiset{b}
  {
    TrimConserves(batch, st.(local := [b] + st.local));
    FrontContents(st, b);
  }

  // ------------------------------------------------------------------
  // Where blocks come from
  // ------------------------------------------------------------------

  ghost predicate Has<T>(st: Store<T>, b: T) { b in st.local || b in st.global }

  /** None of the blocks is in the store. */
  ghost predicate Clear<T>(st: Store<T>, other: seq<T>) { forall b :: b in other ==> !Has(st, b) }

  lemma HasCounts<T>(st: Store<T>, b: T)
    ensures Has(st, b) <==> Contents(st)[b] > 0
  {
    assert b in st.local <==> b in multiset(st.local);
    assert b in st.global <==> b in multiset(st.global);
  }

  lemma AllocWithin<T>(batch: nat, st: Store<T>, b: T)
    ensures var g := Alloc(batch, st); Has(g.store, b) || g.block == Some(b) ==> Has(st, b)
  {
    AllocConserves(batch, st);
    HasCounts(st, b);
    HasCounts(Alloc(batch, st).store, b);
  }

  lemma DeallocWithin<T>(batch: nat, st: Store<T>, freed: T, b: T)
    ensures Has(Dealloc(batch, st, freed), b) <==> Has(st, b) || b == freed
  {
    DeallocConserves(batch, st, freed);
    HasCounts(st, b);
    HasCounts(Dealloc(batch, st, freed), b);
  }

  /** Blocks that neither list had are in neither list afterwards. */
  lemma AllocMisses<T>(batch: nat, st: Store<T>, other: seq<T>)
    requires Clear(st, other)
    ensures Clear(Alloc(batch, st).store, other)
  {
    forall b | b in other ensures !Has(Alloc(batch, st).store, b) {
      AllocWithin(batch, st, b);
    }
  }

  lemma DeallocMisses<T>(batch: nat, st: Store<T>, freed: T, other: seq<T>)
    requires freed !in other && Clear(st, other)
    ensures Clear(Dealloc(batch, st, freed), other)
  {
    forall b | b in other ensures !Has(Dealloc(batch, st, freed), b) {
      DeallocWithin(batch, st, freed, b);
    }
  }

  lemma {:induction false} DistinctCount<T>(s: seq<T>, b: T)
    requires Distinct(s)
    ensures multiset(s)[b] <= 1
  {
    if s != [] {
      DistinctCount(s[1..], b);
      assert s == [s[0]] + s[1..];
      if b == s[0] {
        assert b !in s[1..];
        assert b !in multiset(s[1..]);
      }
    }
  }

  /** No block occurs twice in the two lists. */
  ghost predicate Simple<T>(st: Store<T>) {
    Distinct(st.local) && Distinct(st.global) && forall b :: b in st.local ==> b !in st.global
  }

  lemma CountTwice<T>(s: seq<T>, k: nat, b: T)
    requires k <= |s| && b in s[..k] && b in s[k..]
    ensures multiset(s)[b] >= 2
  {
    Cut(s, k);
    assert b in multiset(s[..k]) && b in multiset(s[k..]);
    assert multiset(s)[b] == multiset(s[..k])[b] + multiset(s[k..])[b];
  }

  lemma CountDistinct<T>(s: seq<T>)
    requires forall b :: b in s ==> multiset(s)[b] <= 1
    ensures Distinct(s)
  {
    forall i, j | 0 <= i < j < |s| ensures s[i] != s[j] {
      assert s[i] in s && multiset(s)[s[i]] <= 1;
      if s[i] == s[j] {
        CountTwice(s, j, s[i]);
      }
    }
  }

  lemma CountOnce<T>(st: Store<T>, b: T)
    requires Simple(st)
    ensures Contents(st)[b] <= 1
  {
    DistinctCount(st.local, b);
    DistinctCount(st.global, b);
    assert b in st.local <==> b in multiset(st.local);
    assert b in st.global <==> b in multiset(st.global);
  }

  lemma OnceSimple<T>(st: Store<T>)
    requires forall b :: Has(st, b) ==> Contents(st)[b] <= 1
    ensures Simple(st)
  {
    forall b ensures Contents(st)[b] == multiset(st.local)[b] + multiset(st.global)[b] {
    }
    forall b | b in st.local ensures multiset(st.local)[b] <= 1 {
      assert Has(st, b);
    }
    forall b | b in st.global ensures multiset(st.global)[b] <= 1 {
      assert Has(st, b);
    }
    CountDistinct(st.local);
    CountDistinct(st.global);
    forall b | b in st.local ensures b !in st.global {
      assert Has(st, b) && b in multiset(st.local) && (b in st.global ==> b in multiset(st.global));
    }
  }

  lemma AllocSimple<T>(batch: nat, st: Store<T>)
    requires Simple(st)
    ensures Simple(Alloc(batch, st).store)
  {
    AllocConserves(batch, st);
    forall b | Has(Alloc(batch, st).store, b) ensures Contents(Alloc(batch, st).store)[b] <= 1 {
      CountOnce(st, b);
    }
    OnceSimple(Alloc(batch, st).store);
  }

  lemma DeallocSimple<T>(batch: nat, st: Store<T>, freed: T)
    requires Simple(st) && !Has(st, freed)
    ensures Simple(Dealloc(batch, st, freed))
  {
    DeallocConserves(batch, st, freed);
    HasCounts(st, freed);
    forall b | Has(Dealloc(batch, st, freed), b) ensures Contents(Dealloc(batch, st, freed))[b] <= 1 {
      CountOnce(st, b);
    }
    OnceSimple(Dealloc(batch, st, freed));
  }

  /** The block that `alloc` hands out is in neither list any more. */
  lemma AllocTakesOut<T>(batch: nat, st: Store<T>)
    requires Simple(st)
    ensures var g := Alloc(batch, st); g.block.Some? ==> !Has(g.store, g.block.value)
  {
    var g := Alloc(batch, st);
    if g.block.Some? {
      var b := g.block.value;
      AllocConserves(batch, st);
      HasCounts(g.store, b);
      DistinctCount(st.local, b);
      DistinctCount(st.global, b);
      assert b in st.local <==> b in multiset(st.local);
      assert b in st.global <==> b in multiset(st.global);
      assert Contents(st)[b] == multiset(st.local)[b] + multiset(st.global)[b];
    }
  }

  // ------------------------------------------------------------------
  // One shared list and the caches of all threads
  // ------------------------------------------------------------------

  datatype Pool<T> = Pool(global: seq<T>, caches: map<nat, seq<T>>)

  datatype PoolGrant<T> = PoolGrant(block: Option<T>, pool: Pool<T>)

  /** The local list of a thread; a cache that does not exist yet is empty. */
  function Local<T>(p: Pool<T>, thread: nat): seq<T> { if thread in p.caches then p.caches[thread] else [] }

  function StoreOf<T>(p: Pool<T>, thread: nat): Store<T> { Store(Local(p, thread), p.global) }

  /** Writes back a thread's cache, which comes into being on first use. */
  function Put<T>(p: Pool<T>, thread: nat, st: Store<T>): Pool<T> {
    Pool(st.global, p.caches[thread := st.local])
  }

  /** `get_cache().alloc()`. */
  function AllocIn<T>(batch: nat, p: Pool<T>, thread: nat): PoolGrant<T> {
    var g := Alloc(batch, StoreOf(p, thread));
    PoolGrant(g.block, Put(p, thread, g.store))
  }

  /** `get_cache().dealloc(ptr)`; null is ignored. */
  function DeallocIn<T>(batch: nat, p: Pool<T>, thread: nat, block: Option<T>): Pool<T> {
    match block
    case None => Put(p, thread, StoreOf(p, thread))
    case Some(b) => Put(p, thread, Dealloc(batch, StoreOf(p, thread), b))
  }

  predicate InNoList<T(==)>(p: Pool<T>, b: T) {
    b !in p.global && forall t :: t in p.caches ==> b !in p.caches[t]
  }

  /** No block occurs twice in the lists of a pool. */
  ghost predicate SimplePool<T>(p: Pool<T>) {
    && Distinct(p.global)
    && (forall t :: t in p.caches ==> Distinct(p.caches[t]) && forall b :: b in p.caches[t] ==> b !in p.global)
    && (forall t, u :: t in p.caches && u in p.caches && t != u ==> forall b :: b in p.caches[t] ==> b !in p.caches[u])
  }

  /** Replacing one cache and the shared list by lists that the others miss. */
  lemma PutSimple<T>(p: Pool<T>, thread: nat, st: Store<T>)
    requires SimplePool(p) && Simple(st)
    requires forall u :: u in p.caches && u != thread ==> Clear(st, p.caches[u])
    ensures SimplePool(Put(p, thread, st))
  {
    var q := Put(p, thread, st);
    forall t, u, b | t in q.caches && u in q.caches && t != u && b in q.caches[t]
      ensures b !in q.caches[u] && b !in q.global
    {
      if t != thread {
        assert Clear(st, p.caches[t]);
      } else {
        assert Clear(st, p.caches[u]);
      }
    }
    forall t | t in q.caches ensures Distinct(q.caches[t]) && forall b :: b in q.caches[t] ==> b !in q.global {
      assert t != thread ==> Clear(st, p.caches[t]);
    }
  }

  lemma OthersClear<T>(p: Pool<T>, thread: nat)
    requires SimplePool(p)
    ensures Simple(StoreOf(p, thread))
    ensures forall u :: u in p.caches && u != thread ==> Clear(StoreOf(p, thread), p.caches[u])
  {
  }

  lemma GetSimple<T>(p: Pool<T>, thread: nat)
    requires SimplePool(p)
    ensures SimplePool(Put(p, thread, StoreOf(p, thread)))
  {
    OthersClear(p, thread);
    PutSimple(p, thread, StoreOf(p, thread));
  }

  lemma AllocInSimple<T>(batch: nat, p: Pool<T>, thread: nat)
    requires SimplePool(p)
    ensures SimplePool(AllocIn(batch, p, thread).pool)
  {
    var st := StoreOf(p, thread);
    OthersClear(p, thread);
    forall u | u in p.caches && u != thread ensures Clear(Alloc(batch, st).store, p.caches[u]) {
      AllocMisses(batch, st, p.caches[u]);
    }
    AllocSimple(batch, st);
    PutSimple(p, thread, Alloc(batch, st).store);
  }

  lemma DeallocInSimple<T>(batch: nat, p: Pool<T>, thread: nat, freed: T)
    requires SimplePool(p) && InNoList(p, freed)
    ensures SimplePool(DeallocIn(batch, p, thread, Some(freed)))
  {
    var st := StoreOf(p, thread);
    OthersClear(p, thread);
    forall u | u in p.caches && u != thread ensures Clear(Dealloc(batch, st, freed), p.caches[u]) {
      DeallocMisses(batch, st, freed, p.caches[u]);
    }
    DeallocSimple(batch, st, freed);
    PutSimple(p, thread, Dealloc(batch, st, freed));
  }

  /** A block that is handed out is in no list any more. */
  lemma AllocInTakesOut<T>(batch: nat, p: Pool<T>, thread: nat)
    requires SimplePool(p)
    ensures var g := AllocIn(batch, p, thread); g.block.Some? ==> InNoList(g.pool, g.block.value)
  {
    var st := StoreOf(p, thread);
    var g := Alloc(batch, st);
    AllocTakesOut(batch, st);
    if g.block.Some? {
      AllocWithin(batch, st, g.block.value);
    }
  }

  /** Creating the cache first makes no difference. */
  lemma GetThenAlloc<T>(batch: nat, p: Pool<T>, thread: nat)
    ensures AllocIn(batch, Put(p, thread, StoreOf(p, thread)), thread) == AllocIn(batch, p, thread)
  {
  }

  lemma GetThenDealloc<T>(batch: nat, p: Pool<T>, thread: nat, b: T)
    ensures DeallocIn(batch, Put(p, thread, StoreOf(p, thread)), thread, Some(b)) ==
      DeallocIn(batch, p, thread, Some(b))
    ensures InNoList(p, b) ==> InNoList(Put(p, thread, StoreOf(p, thread)), b)
  {
  }
}
