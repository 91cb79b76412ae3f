/** What `alloc` and `dealloc` do, stated on their inputs and results alone: where
    every block of the lists goes, and how many move. */
module CacheLaws {
  import opened Options
  import opened CacheSpec

  /** `r` is `s` backwards. */
  ghost predicate Backwards<T>(s: seq<T>, r: seq<T>) {
    |r| == |s| && forall i :: 0 <= i < |s| ==> r[i] == s[|s| - 1 - i]
  }

  lemma ReverseBackwards<T>(s: seq<T>)
    ensures Backwards(s, Reverse(s))
  {
    forall i | 0 <= i < |s| ensures Reverse(s)[i] == s[|s| - 1 - i] {
      ReverseAt(s, i);
    }
  }

  /** A refill moves `moved` from the front of the shared list to the front of the
      local one; the first block of the result is handed out. It moves a batch,
      but at least one block, or all there are; and only up to the low watermark. */
  lemma AllocLaw<T>(batch: nat, st: Store<T>) returns (moved: seq<T>)
    ensures var g := Alloc(batch, st);
      && moved + g.store.global == st.global
      && (if g.block.Some? then [g.block.value] else []) + g.store.local == moved + st.local
      && (|st.local| > batch / 2 ==> moved == [])
      && (|st.local| <= batch / 2 ==>
            var most := if batch == 0 then 1 else batch;
            |moved| <= most && (|moved| < most ==> g.store.global == []))
  {
    var k := if |st.local| <= batch / 2 then Taken(batch, |st.global|) else 0;
    moved := st.global[..k];
    assert moved + st.global[k..] == st.global;
    var all := moved + st.local;
    assert k == 0 ==> all == st.local;
    if all != [] {
      assert all == [all[0]] + all[1..];
    }
  }

  /** A flush moves `gone` from the front of the local list, backwards, to the front
      of the shared one: as many blocks as asked for, or all there are. */
  lemma FlushLaw<T>(excess: nat, st: Store<T>) returns (gone: seq<T>)
    ensures var st' := Flush(excess, st);
      && gone + st'.local == st.local
      && |gone| <= |st'.global| && Backwards(gone, st'.global[..|gone|]) && st'.global[|gone|..] == st.global
      && |gone| <= excess && (|gone| < excess ==> st'.local == [])
  {
    var k := Min(excess, |st.local|);
    gone := st.local[..k];
    ReverseBackwards(gone);
    var r := Reverse(gone) + st.global;
    assert r[..k] == Reverse(gone) && r[k..] == st.global;
  }

  /** The freed block goes to the front. Up to twice the batch nothing else happens;
      past it a flush leaves exactly one batch. */
  lemma DeallocLaw<T>(batch: nat, st: Store<T>, b: T) returns (gone: seq<T>)
    ensures var st' := Dealloc(batch, st, b);
      && gone + st'.local == [b] + st.local
      && |gone| <= |st'.global| && Backwards(gone, st'.global[..|gone|]) && st'.global[|gone|..] == st.global
      && (|st.local| + 1 <= 2 * batch ==> gone == [])
      && (|st.local| + 1 > 2 * batch ==> |st'.local| == batch)
  {
    var front := st.(local := [b] + st.local);
    gone := [];
    if |front.local| > 2 * batch {
      gone := FlushLaw(|front.local| - batch, front);
    } else {
      assert gone + front.local == front.local;
    }
  }

  // ------------------------------------------------------------------
  // One shared list and the caches of all threads
  // ------------------------------------------------------------------

  /** All blocks on the shared list and in the caches of the threads below `n`. */
  function Blocks<T>(p: Pool<T>, n: nat): multiset<T> {
    if n == 0 then multiset(p.global) else Blocks(p, n - 1) + multiset(Local(p, n - 1))
  }

  /** Only thread `t` and the shared list differ. */
  ghost predicate OnlyThread<T>(p: Pool<T>, q: Pool<T>, t: nat) {
    t in q.caches && (forall u :: u != t ==> Local(q, u) == Local(p, u) && (u in q.caches <==> u in p.caches))
  }

  lemma {:induction false} BlocksBelow<T>(p: Pool<T>, q: Pool<T>, t: nat, n: nat)
    requires OnlyThread(p, q, t) && n <= t
    ensures Blocks(q, n) + multiset(p.global) == Blocks(p, n) + multiset(q.global)
  {
    if n > 0 {
      BlocksBelow(p, q, t, n - 1);
      assert Local(q, n - 1) == Local(p, n - 1);
      Both(Blocks(q, n - 1), multiset(p.global), Blocks(p, n - 1), multiset(q.global), multiset(Local(p, n - 1)));
    }
  }

  lemma {:induction false} BlocksDiffer<T>(p: Pool<T>, q: Pool<T>, t: nat, n: nat)
    requires OnlyThread(p, q, t) && t < n
    ensures Blocks(q, n) + Contents(StoreOf(p, t)) == Blocks(p, n) + Contents(StoreOf(q, t))
  {
    if n == t + 1 {
      BlocksBelow(p, q, t, t);
      Regroup(Blocks(q, t), multiset(p.global), Blocks(p, t), multiset(q.global),
              multiset(Local(q, t)), multiset(Local(p, t)));
    } else {
      BlocksDiffer(p, q, t, n - 1);
      assert Local(q, n - 1) == Local(p, n - 1);
      Both(Blocks(q, n - 1), Contents(StoreOf(p, t)), Blocks(p, n - 1), Contents(StoreOf(q, t)),
           multiset(Local(p, n - 1)));
    }
  }

  lemma Both<T>(a: multiset<T>, b: multiset<T>, c: multiset<T>, d: multiset<T>, x: multiset<T>)
    requires a + b == c + d
    ensures (a + x) + b == (c + x) + d
  {
    forall y ensures ((a + x) + b)[y] == ((c + x) + d)[y] {
      assert (a + b)[y] == (c + d)[y];
    }
  }

  lemma Regroup<T>(a: multiset<T>, b: multiset<T>, c: multiset<T>, d: multiset<T>, x: multiset<T>, y: multiset<T>)
    requires a + b == c + d
    ensures (a + x) + (y + b) == (c + y) + (x + d)
  {
    assert (a + x) + (y + b) == (a + b) + (x + y);
    assert (c + y) + (x + d) == (c + d) + (x + y);
  }

  /** `alloc` takes exactly the block it returns out of the lists of the pool, and
      leaves the caches of all other threads alone. */
  lemma AllocInLaw<T>(batch: nat, p: Pool<T>, thread: nat, n: nat)
    requires thread < n
    ensures var g := AllocIn(batch, p, thread);
      && OnlyThread(p, g.pool, thread)
      && Grant(g.block, StoreOf(g.pool, thread)) == Alloc(batch, StoreOf(p, thread))
      && Blocks(p, n) == Blocks(g.pool, n) + (if g.block.Some? then multiset{g.block.value} else multiset{})
  {
    var g := AllocIn(batch, p, thread);
    AllocConserves(batch, StoreOf(p, thread));
    BlocksDiffer(p, g.pool, thread, n);
    var out := if g.block.Some? then multiset{g.block.value} else multiset{};
    Shift(Blocks(g.pool, n), Contents(StoreOf(p, thread)), Blocks(p, n), Contents(StoreOf(g.pool, thread)), out);
  }

  lemma Shift<T>(a: multiset<T>, b: multiset<T>, c: multiset<T>, d: multiset<T>, x: multiset<T>)
    requires a + b == c + d && b == d + x
    ensures c == a + x
  {
    forall y ensures c[y] == (a + x)[y] {
      assert (a + b)[y] == (c + d)[y] && b[y] == (d + x)[y];
    }
  }

  /** `dealloc` brings exactly the freed block into the lists of the pool: to the
      front of the calling thread's cache, from which a flush leaves one batch. The
      caches of all other threads stay as they are. */
  lemma DeallocInLaw<T>(batch: nat, p: Pool<T>, thread: nat, b: T, n: nat)
    requires thread < n
    ensures var q := DeallocIn(batch, p, thread, Some(b));
      && OnlyThread(p, q, thread)
      && StoreOf(q, thread) == Dealloc(batch, StoreOf(p, thread), b)
      && Blocks(q, n) == Blocks(p, n) + multiset{b}
      && (|Local(p, thread)| + 1 <= 2 * batch ==>
            Local(q, thread) == [b] + Local(p, thread) && q.global == p.global)
      && (|Local(p, thread)| + 1 > 2 * batch ==> |Local(q, thread)| == batch)
  {
    var q := DeallocIn(batch, p, thread, Some(b));
    var gone := DeallocLaw(batch, StoreOf(p, thread), b);
    DeallocConserves(batch, StoreOf(p, thread), b);
    BlocksDiffer(p, q, thread, n);
    assert StoreOf(q, thread) == Dealloc(batch, StoreOf(p, thread), b);
    Shift(Blocks(p, n), Contents(StoreOf(q, thread)), Blocks(q, n), Contents(StoreOf(p, thread)), multiset{b});
  }

  /** The free of null changes no list. */
  lemma NullDeallocLaw<T>(batch: nat, p: Pool<T>, thread: nat)
    ensures var q := DeallocIn(batch, p, thread, None);
      OnlyThread(p, q, thread) && q.global == p.global && Local(q, thread) == Local(p, thread)
  {
  }
}
