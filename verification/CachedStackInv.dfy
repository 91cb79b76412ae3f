/** What every move of the caches over the stack keeps. */
module CachedStackInv {
  import opened Options
  import opened Sequences
  import opened TaggedStack
  import opened TaggedStackSteps
  import opened TaggedStackBulk
  import opened TaggedStackShared
  import opened CachedStack

  /** The blocks that a cache has in its own hands. */
  function Holdings(cache: Cache): seq<Block> {
    match cache.step
    case Splicing(chain) => chain + cache.local
    case Sealed(batch) => batch + cache.local
    case _ => cache.local
  }

  /** The local list is a chain in memory, and the step fits the stack operation. */
  ghost predicate CacheAt(batch: nat, m: Machine, l: Ledger, cache: Cache, t: nat) {
    && t < |m.threads| && t < |l.accounts| && Chain(m.mem, cache.local)
    && var idle, op := m.threads[t].task.Outside?, l.accounts[t].op;
       match cache.step
       case Ready => idle
       case Fetching => !idle && op == PopBulk(batch) && |cache.local| <= batch / 2
       case Splicing(chain) => idle && Chain(m.mem, chain) && |cache.local| <= batch / 2
       case Cutting => idle && |cache.local| > 2 * batch
       case Sealed(bs) => idle && |bs| > 0 && Linked(m.mem, bs)
       case Sending(bs) => !idle && op == PushBulk(bs)
  }

  /** All of `s` are blocks that a client owns, each once. */
  ghost predicate Owns(m: Machine, l: Ledger, s: seq<Block>) {
    Distinct(s) && forall b :: b in s ==> Has(m, l, b)
  }

  predicate Misses(s: seq<Block>, r: seq<Block>) { forall b :: b in s ==> b !in r }

  ghost predicate OwnInv(m: Machine, l: Ledger, caches: seq<Cache>, live: set<Block>) {
    && (forall t :: 0 <= t < |caches| ==> Owns(m, l, Holdings(caches[t])))
    && (forall t, u :: 0 <= t < |caches| && 0 <= u < |caches| && t != u ==>
         Misses(Holdings(caches[t]), Holdings(caches[u])))
    && (forall b :: b in live ==> Has(m, l, b))
    && (forall t, b :: 0 <= t < |caches| && b in Holdings(caches[t]) ==> b !in live)
  }

  ghost predicate CInv(c: State) {
    && BulkInv(c.m, c.l) && |c.caches| == |c.m.threads|
    && (forall t :: 0 <= t < |c.caches| ==> CacheAt(c.batch, c.m, c.l, c.caches[t], t))
    && OwnInv(c.m, c.l, c.caches, c.live)
  }

  // ------------------------------------------------------------------
  // Frames
  // ------------------------------------------------------------------

  lemma LinkedSame(mem: map<Block, Ptr>, mem': map<Block, Ptr>, s: seq<Block>)
    requires forall b :: b in s && b in mem ==> b in mem' && mem'[b] == mem[b]
    ensures Linked(mem, s) ==> Linked(mem', s)
    ensures Chain(mem, s) ==> Chain(mem', s)
  {
  }

  predicate ActedBy(a: Action, u: nat) { (a.Tick? || a.Invoke?) && a.t == u }

  lemma ActorOnly(m: Machine, l: Ledger, a: Action, u: nat)
    requires Enabled(m, l, a) && |m.threads| == |l.accounts| && u < |m.threads| && !ActedBy(a, u)
    ensures var o := Perform(m, a);
      && |o.m.threads| == |m.threads| == |Record(l, o.e).accounts|
      && o.m.threads[u] == m.threads[u] && Record(l, o.e).accounts[u] == l.accounts[u]
  {
  }

  /** A cache that a step of the machine does not concern. */
  lemma CacheKept(batch: nat, m: Machine, l: Ledger, m': Machine, l': Ledger, cache: Cache, u: nat)
    requires CacheAt(batch, m, l, cache, u) && Owns(m, l, Holdings(cache))
    requires u < |m'.threads| && u < |l'.accounts| && m'.threads[u] == m.threads[u] && l'.accounts[u] == l.accounts[u]
    requires forall b :: b in Holdings(cache) ==> KeptFor(m, l, m', l', b)
    ensures CacheAt(batch, m', l', cache, u) && Owns(m', l', Holdings(cache))
  {
    assert forall b :: b in cache.local ==> b in Holdings(cache);
    LinkedSame(m.mem, m'.mem, cache.local);
    match cache.step
    case Splicing(chain) =>
      assert forall b :: b in chain ==> b in Holdings(cache);
      LinkedSame(m.mem, m'.mem, chain);
    case Sealed(bs) =>
      assert forall b :: b in bs ==> b in Holdings(cache);
      LinkedSame(m.mem, m'.mem, bs);
    case _ =>
  }

  /** The caches of the other threads, and the blocks of clients, after an access
      that concerns only blocks of `s`. */
  lemma OthersKept(c: State, x: Action, t: nat, s: seq<Block>)
    requires CInv(c) && t < |c.caches| && Enabled(c.m, c.l, x) && NoWrap(c.m, c.l, x)
    requires forall u :: 0 <= u < |c.caches| && u != t ==> !ActedBy(x, u) && Misses(s, Holdings(c.caches[u]))
    requires forall b :: b in Touches(x) ==> b in s
    ensures var o := Perform(c.m, x); var l' := Record(c.l, o.e);
      && |o.m.threads| == |c.m.threads|
      && (forall u :: 0 <= u < |c.caches| && u != t ==>
            CacheAt(c.batch, o.m, l', c.caches[u], u) && Owns(o.m, l', Holdings(c.caches[u])))
      && (forall b :: b in c.live && b !in s ==> Has(o.m, l', b))
  {
    var o := Perform(c.m, x);
    var l' := Record(c.l, o.e);
    StepKeeps(c.m, c.l, x);
    SameThreads(c.m, c.l, x);
    forall u | 0 <= u < |c.caches| && u != t
      ensures CacheAt(c.batch, o.m, l', c.caches[u], u) && Owns(o.m, l', Holdings(c.caches[u]))
    {
      ActorOnly(c.m, c.l, x, u);
      forall b | b in Holdings(c.caches[u]) ensures KeptFor(c.m, c.l, o.m, l', b) {
        ClientKept(c.m, c.l, x, b);
      }
      CacheKept(c.batch, c.m, c.l, o.m, l', c.caches[u], u);
    }
    forall b | b in c.live && b !in s ensures Has(o.m, l', b) {
      ClientKept(c.m, c.l, x, b);
    }
  }

  lemma SameThreads(m: Machine, l: Ledger, a: Action)
    requires Enabled(m, l, a) && |m.threads| == |l.accounts|
    ensures var o := Perform(m, a); |o.m.threads| == |m.threads| == |Record(l, o.e).accounts|
  {
  }

  /** Putting the pieces together again: thread `t` has a new cache. */
  lemma Assemble(c: State, c': State, t: nat)
    requires CInv(c) && t < |c.caches| == |c'.caches| && c'.batch == c.batch && c'.caches == c.caches[t := c'.caches[t]]
    requires BulkInv(c'.m, c'.l) && |c'.m.threads| == |c.m.threads|
    requires CacheAt(c.batch, c'.m, c'.l, c'.caches[t], t) && Owns(c'.m, c'.l, Holdings(c'.caches[t]))
    requires forall u :: 0 <= u < |c.caches| && u != t ==>
      && CacheAt(c.batch, c'.m, c'.l, c.caches[u], u) && Owns(c'.m, c'.l, Holdings(c.caches[u]))
      && Misses(Holdings(c'.caches[t]), Holdings(c.caches[u])) && Misses(Holdings(c.caches[u]), Holdings(c'.caches[t]))
    requires forall b :: b in c'.live ==> Has(c'.m, c'.l, b)
    requires forall u, b :: 0 <= u < |c'.caches| && b in Holdings(c'.caches[u]) ==> b !in c'.live
    ensures CInv(c')
  {
  }

  lemma AccessBulk(m: Machine, l: Ledger, x: Action)
    requires BulkInv(m, l) && Enabled(m, l, x) && NoWrap(m, l, x) && BulkOnly(x)
    ensures var o := Perform(m, x); BulkInv(o.m, Record(l, o.e))
  {
    if Releases(m, x) {
      ReleaseTransfers(m, l, x);
    } else {
      SharedKept(m, l, x);
    }
  }

  // ------------------------------------------------------------------
  // Every move can be made
  // ------------------------------------------------------------------

  lemma SendPossible(c: State, t: nat)
    requires CInv(c) && Able(c, Send(t))
    ensures Possible(c, Send(t))
  {
    var cache := c.caches[t];
    var bs := cache.step.batch;
    assert CacheAt(c.batch, c.m, c.l, cache, t) && Owns(c.m, c.l, Holdings(cache));
    assert forall b :: b in bs ==> b in Holdings(cache);
    assert forall i :: 0 <= i < |bs| ==> Holdings(cache)[i] == bs[i];
  }

  lemma SplicePossible(c: State, t: nat)
    requires CInv(c) && Able(c, Splice(t))
    ensures Possible(c, Splice(t))
  {
    var chain := c.caches[t].step.chain;
    assert Owns(c.m, c.l, Holdings(c.caches[t]));
    if chain != [] {
      assert Holdings(c.caches[t])[|chain| - 1] == chain[|chain| - 1];
      assert chain[|chain| - 1] in Holdings(c.caches[t]);
    }
  }

  lemma CutPossible(c: State, t: nat)
    requires CInv(c) && Able(c, Cut(t))
    ensures Possible(c, Cut(t))
  {
    assert Owns(c.m, c.l, Holdings(c.caches[t]));
    assert forall i :: 0 <= i < |c.caches[t].local| ==> c.caches[t].local[i] in Holdings(c.caches[t]);
  }

  lemma AblePossible(c: State, a: Move)
    requires CInv(c) && Able(c, a)
    ensures Possible(c, a)
  {
    match a
    case Alloc(t) => assert CacheAt(c.batch, c.m, c.l, c.caches[t], t);
    case Splice(t) => SplicePossible(c, t);
    case Free(t, b) =>
    case Cut(t) => CutPossible(c, t);
    case Send(t) => SendPossible(c, t);
    case Run(t, _) => assert CacheAt(c.batch, c.m, c.l, c.caches[t], t);
    case Write(b, _) =>
  }

  // ------------------------------------------------------------------
  // Every move keeps the invariant
  // ------------------------------------------------------------------

  lemma AlreadyApart(c: State, t: nat, s: seq<Block>)
    requires CInv(c) && t < |c.caches| && forall b :: b in s ==> b in Holdings(c.caches[t])
    ensures forall u :: 0 <= u < |c.caches| && u != t ==>
      Misses(s, Holdings(c.caches[u])) && Misses(Holdings(c.caches[u]), s)
    ensures forall b :: b in s ==> b !in c.live
  {
    forall u | 0 <= u < |c.caches| && u != t
      ensures Misses(s, Holdings(c.caches[u])) && Misses(Holdings(c.caches[u]), s)
    {
      assert Misses(Holdings(c.caches[t]), Holdings(c.caches[u]))
        && Misses(Holdings(c.caches[u]), Holdings(c.caches[t]));
    }
  }

  /** An access of thread `t` that concerns its own holdings, after which it holds
      no more than before. */
  lemma OwnMove(c: State, x: Action, c': State, t: nat)
    requires CInv(c) && t < |c.caches| && Enabled(c.m, c.l, x) && NoWrap(c.m, c.l, x) && BulkOnly(x)
    requires forall u :: 0 <= u < |c.caches| && u != t ==> !ActedBy(x, u)
    requires forall b :: b in Touches(x) ==> b in Holdings(c.caches[t])
    requires c'.m == Perform(c.m, x).m && c'.l == Record(c.l, Perform(c.m, x).e) && c'.batch == c.batch
    requires |c'.caches| == |c.caches| && c'.caches == c.caches[t := c'.caches[t]]
    requires CacheAt(c.batch, c'.m, c'.l, c'.caches[t], t) && Owns(c'.m, c'.l, Holdings(c'.caches[t]))
    requires forall b :: b in Holdings(c'.caches[t]) ==> b in Holdings(c.caches[t])
    requires forall b :: b in c'.live ==> b in c.live || (b in Holdings(c.caches[t]) && Has(c'.m, c'.l, b))
    requires forall b :: b in Holdings(c'.caches[t]) ==> b !in c'.live
    ensures CInv(c')
  {
    var s := Holdings(c.caches[t]);
    AlreadyApart(c, t, s);
    AlreadyApart(c, t, Holdings(c'.caches[t]));
    OthersKept(c, x, t, s);
    AccessBulk(c.m, c.l, x);
    Assemble(c, c', t);
  }

  lemma OwnsKept(m: Machine, l: Ledger, x: Action, s: seq<Block>)
    requires Inv(m, l) && Enabled(m, l, x) && NoWrap(m, l, x) && Owns(m, l, s) && Misses(Touches(x), s)
    ensures var o := Perform(m, x);
      Owns(o.m, Record(l, o.e), s) && forall b :: b in s ==> o.m.mem[b] == m.mem[b]
  {
    forall b | b in s
      ensures Has(Perform(m, x).m, Record(l, Perform(m, x).e), b) && Perform(m, x).m.mem[b] == m.mem[b]
    {
      ClientKept(m, l, x, b);
    }
  }

  lemma ScribbleOwns(m: Machine, l: Ledger, b: Block, p: Ptr, s: seq<Block>)
    requires Enabled(m, l, Scribble(b, p)) && Owns(m, l, s)
    ensures var o := Perform(m, Scribble(b, p)); Owns(o.m, Record(l, o.e), s)
  {
  }

  // ----- the start of an alloc that refills

  lemma FetchKeeps(c: State, t: nat)
    requires CInv(c) && Able(c, Alloc(t)) && Possible(c, Alloc(t)) && NeedsRefill(c, t)
    ensures CInv(Do(c, Alloc(t)).c)
  {
    var x := Invoke(t, PopBulk(c.batch));
    assert CacheAt(c.batch, c.m, c.l, c.caches[t], t) && Owns(c.m, c.l, Holdings(c.caches[t]));
    OwnsKept(c.m, c.l, x, c.caches[t].local);
    OwnMove(c, x, Do(c, Alloc(t)).c, t);
  }

  // ----- handing out a block

  lemma TailChain(mem: map<Block, Ptr>, s: seq<Block>)
    requires Chain(mem, s) && s != [] && Distinct(s)
    ensures Chain(mem, s[1..]) && Distinct(s[1..]) && s[0] !in s[1..]
  {
  }

  // ----- the end of an alloc that refilled

  /** `last->next` is set to the next chain. */
  lemma JoinChain(mem: map<Block, Ptr>, s: seq<Block>, r: seq<Block>)
    requires Chain(mem, s) && Chain(mem, r) && s != [] && Distinct(s + r)
    ensures Chain(mem[s[|s| - 1] := First(r)], s + r)
  {
    var mem' := mem[s[|s| - 1] := First(r)];
    var all := s + r;
    forall i, j | 0 <= i < |all| && 0 <= j < |all| && j == i + 1 ensures all[i] in mem' && mem'[all[i]] == At(all[j]) {
      if i == |s| - 1 {
        assert all[j] == r[0];
      } else {
        assert all[i] != all[|s| - 1];
      }
    }
    if r != [] {
      assert all[|all| - 1] == r[|r| - 1] && all[|all| - 1] != all[|s| - 1];
    }
  }

  lemma SpliceChain(c: State, t: nat)
    requires Able(c, Splice(t)) && Possible(c, Splice(t))
    requires CacheAt(c.batch, c.m, c.l, c.caches[t], t) && Owns(c.m, c.l, Holdings(c.caches[t]))
    ensures var all, c1 := c.caches[t].step.chain + c.caches[t].local, Accessed(c, Splice(t));
      && Chain(c1.m.mem, all) && Owns(c1.m, c1.l, all) && c1.m.threads == c.m.threads && c1.l == c.l
  {
    var chain, local := c.caches[t].step.chain, c.caches[t].local;
    if chain == [] {
      assert chain + local == local;
    } else {
      SpliceWrite(c.m, c.l, chain, local);
    }
  }

  lemma SpliceWrite(m: Machine, l: Ledger, chain: seq<Block>, local: seq<Block>)
    requires chain != [] && Chain(m.mem, chain) && Chain(m.mem, local) && Owns(m, l, chain + local)
    requires Enabled(m, l, Scribble(chain[|chain| - 1], First(local)))
    ensures var o := Perform(m, Scribble(chain[|chain| - 1], First(local)));
      && Chain(o.m.mem, chain + local) && Owns(o.m, l, chain + local)
      && o.m.threads == m.threads && Record(l, o.e) == l
  {
    JoinChain(m.mem, chain, local);
    ScribbleOwns(m, l, chain[|chain| - 1], First(local), chain + local);
  }

  /** The cache that `HandOut` leaves. */
  lemma HandOutCache(c: State, t: nat, all: seq<Block>)
    requires t < |c.caches| && t < |c.m.threads| && t < |c.l.accounts| && c.m.threads[t].task.Outside?
    requires Chain(c.m.mem, all) && Owns(c.m, c.l, all) && forall b :: b in all ==> b !in c.live
    ensures var c' := HandOut(c, t, all).c;
      && |c'.caches| == |c.caches| && c'.caches == c.caches[t := c'.caches[t]] && c'.batch == c.batch
      && c'.m == c.m && c'.l == c.l
      && CacheAt(c.batch, c.m, c.l, c'.caches[t], t) && Owns(c.m, c.l, Holdings(c'.caches[t]))
      && (forall b :: b in Holdings(c'.caches[t]) ==> b in all && b !in c'.live)
      && (forall b :: b in c'.live ==> b in c.live || (b in all && Has(c.m, c.l, b)))
  {
    if all != [] {
      TailChain(c.m.mem, all);
      assert forall b :: b in all[1..] ==> b in all;
    }
  }

  /** A move without an access, after which the cache holds no more than before. */
  lemma RestMove(c: State, c': State, t: nat)
    requires CInv(c) && t < |c.caches| && c'.m == c.m && c'.l == c.l && c'.batch == c.batch
    requires |c'.caches| == |c.caches| && c'.caches == c.caches[t := c'.caches[t]]
    requires CacheAt(c.batch, c.m, c.l, c'.caches[t], t) && Owns(c.m, c.l, Holdings(c'.caches[t]))
    requires forall b :: b in Holdings(c'.caches[t]) ==> b in Holdings(c.caches[t]) && b !in c'.live
    requires forall b :: b in c'.live ==> b in c.live || (b in Holdings(c.caches[t]) && Has(c.m, c.l, b))
    ensures CInv(c')
  {
    AlreadyApart(c, t, Holdings(c.caches[t]));
    AlreadyApart(c, t, Holdings(c'.caches[t]));
    Assemble(c, c', t);
  }

  lemma LocalKeeps(c: State, t: nat)
    requires CInv(c) && Able(c, Alloc(t)) && Possible(c, Alloc(t)) && !NeedsRefill(c, t)
    ensures CInv(Do(c, Alloc(t)).c)
  {
    assert CacheAt(c.batch, c.m, c.l, c.caches[t], t) && Owns(c.m, c.l, Holdings(c.caches[t]));
    AlreadyApart(c, t, c.caches[t].local);
    HandOutCache(c, t, c.caches[t].local);
    RestMove(c, Do(c, Alloc(t)).c, t);
  }

  lemma SpliceKeeps(c: State, t: nat)
    requires CInv(c) && Able(c, Splice(t)) && Possible(c, Splice(t))
    ensures CInv(Do(c, Splice(t)).c)
  {
    var all, c1, c' := c.caches[t].step.chain + c.caches[t].local, Accessed(c, Splice(t)), Do(c, Splice(t)).c;
    assert CacheAt(c.batch, c.m, c.l, c.caches[t], t) && Owns(c.m, c.l, Holdings(c.caches[t]));
    SpliceChain(c, t);
    AlreadyApart(c, t, all);
    HandOutCache(c1, t, all);
    if Access(c, Splice(t)).None? {
      RestMove(c, c', t);
    } else {
      OwnMove(c, Access(c, Splice(t)).value, c', t);
    }
  }

  // ----- dealloc

  lemma FrontChain(mem: map<Block, Ptr>, b: Block, s: seq<Block>)
    requires Chain(mem, s) && b !in s
    ensures Chain(mem[b := First(s)], [b] + s)
  {
    LinkedSame(mem, mem[b := First(s)], s);
  }

  lemma FreeCache(c: State, t: nat, b: Block)
    requires CInv(c) && Able(c, Free(t, b)) && Possible(c, Free(t, b))
    ensures var c' := Do(c, Free(t, b)).c;
      && c'.caches == c.caches[t := c'.caches[t]] && c'.m == Perform(c.m, Scribble(b, First(c.caches[t].local))).m
      && c'.l == c.l && c'.live == c.live - {b}
      && CacheAt(c.batch, c'.m, c'.l, c'.caches[t], t)
      && Holdings(c'.caches[t]) == [b] + c.caches[t].local && Owns(c'.m, c'.l, Holdings(c'.caches[t]))
  {
    var local := c.caches[t].local;
    assert CacheAt(c.batch, c.m, c.l, c.caches[t], t) && Owns(c.m, c.l, Holdings(c.caches[t]));
    ScribbleOnly(c.m, c.l, b, First(local));
    FrontChain(c.m.mem, b, local);
    ScribbleOwns(c.m, c.l, b, First(local), [b] + local);
  }

  lemma FreeKeeps(c: State, t: nat, b: Block)
    requires CInv(c) && Able(c, Free(t, b)) && Possible(c, Free(t, b))
    ensures CInv(Do(c, Free(t, b)).c)
  {
    var local, x, c' := c.caches[t].local, Scribble(b, First(c.caches[t].local)), Do(c, Free(t, b)).c;
    FreeCache(c, t, b);
    ScribbleOnly(c.m, c.l, b, First(local));
    FreshApart(c, t, b);
    OthersKept(c, x, t, [b]);
    AccessBulk(c.m, c.l, x);
    Assemble(c, c', t);
  }

  /** A live block in front of a cache's own is still apart from the other caches. */
  lemma FreshApart(c: State, t: nat, b: Block)
    requires CInv(c) && t < |c.caches| && b in c.live && c.caches[t].step.Ready?
    ensures forall u :: 0 <= u < |c.caches| && u != t ==>
      && Misses([b] + c.caches[t].local, Holdings(c.caches[u]))
      && Misses(Holdings(c.caches[u]), [b] + c.caches[t].local)
      && Misses([b], Holdings(c.caches[u]))
    ensures forall x :: x in c.caches[t].local ==> x !in c.live
  {
    AlreadyApart(c, t, c.caches[t].local);
  }

  // ----- flushing

  /** `tail->next` is set to null. */
  lemma CutChain(mem: map<Block, Ptr>, s: seq<Block>, k: nat)
    requires Chain(mem, s) && Distinct(s) && 0 < k <= |s|
    ensures var mem' := mem[s[k - 1] := Null]; Linked(mem', s[..k]) && Chain(mem', s[k..])
  {
  }

  lemma CutCache(c: State, t: nat)
    requires Able(c, Cut(t)) && Possible(c, Cut(t))
    requires CacheAt(c.batch, c.m, c.l, c.caches[t], t) && Owns(c.m, c.l, Holdings(c.caches[t]))
    ensures var c', local, k := Do(c, Cut(t)).c, c.caches[t].local, Excess(c, t);
      && 0 < k <= |local| && Access(c, Cut(t)) == Some(Scribble(local[k - 1], Null))
      && CacheAt(c.batch, c'.m, c'.l, c'.caches[t], t)
      && Holdings(c'.caches[t]) == local && Owns(c'.m, c'.l, local)
  {
    var local, k := c.caches[t].local, Excess(c, t);
    ScribbleOnly(c.m, c.l, local[k - 1], Null);
    CutChain(c.m.mem, local, k);
    assert local[..k] + local[k..] == local;
    ScribbleOwns(c.m, c.l, local[k - 1], Null, local);
  }

  lemma CutKeeps(c: State, t: nat)
    requires CInv(c) && Able(c, Cut(t)) && Possible(c, Cut(t))
    ensures CInv(Do(c, Cut(t)).c)
  {
    assert CacheAt(c.batch, c.m, c.l, c.caches[t], t) && Owns(c.m, c.l, Holdings(c.caches[t]));
    CutCache(c, t);
    AlreadyApart(c, t, c.caches[t].local);
    OwnMove(c, Access(c, Cut(t)).value, Do(c, Cut(t)).c, t);
  }

  lemma SendCache(c: State, t: nat)
    requires Able(c, Send(t)) && Possible(c, Send(t)) && Inv(c.m, c.l)
    requires CacheAt(c.batch, c.m, c.l, c.caches[t], t) && Owns(c.m, c.l, Holdings(c.caches[t]))
    ensures var c' := Do(c, Send(t)).c;
      && CacheAt(c.batch, c'.m, c'.l, c'.caches[t], t) && Owns(c'.m, c'.l, c.caches[t].local)
      && (forall b :: b in c.caches[t].local ==> b in Holdings(c.caches[t]))
      && (forall b :: b in c.caches[t].step.batch ==> b in Holdings(c.caches[t]))
  {
    var local, bs := c.caches[t].local, c.caches[t].step.batch;
    OwnsParts(c.m, c.l, bs, local);
    OwnsKept(c.m, c.l, Invoke(t, PushBulk(bs)), local);
  }

  lemma OwnsParts(m: Machine, l: Ledger, s: seq<Block>, r: seq<Block>)
    requires Owns(m, l, s + r)
    ensures Owns(m, l, s) && Owns(m, l, r) && Misses(s, r)
    ensures forall b :: b in s || b in r ==> b in s + r
  {
    DistinctParts(s, r);
  }

  lemma SendKeeps(c: State, t: nat)
    requires CInv(c) && Able(c, Send(t)) && Possible(c, Send(t))
    ensures CInv(Do(c, Send(t)).c)
  {
    assert CacheAt(c.batch, c.m, c.l, c.caches[t], t) && Owns(c.m, c.l, Holdings(c.caches[t]));
    SendCache(c, t);
    AlreadyApart(c, t, c.caches[t].local);
    OwnMove(c, Invoke(t, PushBulk(c.caches[t].step.batch)), Do(c, Send(t)).c, t);
  }

  lemma DistinctParts(s: seq<Block>, r: seq<Block>)
    requires Distinct(s + r)
    ensures Distinct(s) && Distinct(r) && Misses(s, r)
  {
    var all := s + r;
    forall i, j | 0 <= i < j < |s| ensures s[i] != s[j] {
      assert all[i] == s[i] && all[j] == s[j];
    }
    forall i, j | 0 <= i < j < |r| ensures r[i] != r[j] {
      assert all[|s| + i] == r[i] && all[|s| + j] == r[j];
    }
    forall i, j | 0 <= i < |s| && 0 <= j < |r| ensures s[i] != r[j] {
      assert all[i] == s[i] && all[|s| + j] == r[j];
    }
  }

  // ----- the stack operation makes a step

  lemma TickStays(m: Machine, l: Ledger, t: nat, weak: bool)
    requires Enabled(m, l, Tick(t, weak)) && |m.threads| == |l.accounts|
    ensures var o := Perform(m, Tick(t, weak));
      && |o.m.threads| == |m.threads| == |Record(l, o.e).accounts|
      && Record(l, o.e).accounts[t].op == l.accounts[t].op
      && (o.m.threads[t].task.Outside? <==> o.e.Returned?)
  {
  }

  lemma StayKeeps(c: State, t: nat, weak: bool)
    requires CInv(c) && Able(c, Run(t, weak)) && Possible(c, Run(t, weak)) && Unwrapped(c, Run(t, weak))
    requires !Perform(c.m, Tick(t, weak)).e.Returned? || c.caches[t].step.Sending?
    ensures CInv(Do(c, Run(t, weak)).c)
  {
    var x, c' := Tick(t, weak), Do(c, Run(t, weak)).c;
    assert CacheAt(c.batch, c.m, c.l, c.caches[t], t) && Owns(c.m, c.l, Holdings(c.caches[t]));
    TickStays(c.m, c.l, t, weak);
    OwnsKept(c.m, c.l, x, c.caches[t].local);
    LinkedSame(c.m.mem, c'.m.mem, c.caches[t].local);
    AlreadyApart(c, t, c.caches[t].local);
    OwnMove(c, x, c', t);
  }

  lemma DistinctJoin(s: seq<Block>, r: seq<Block>)
    requires Distinct(s) && Distinct(r) && Misses(s, r)
    ensures Distinct(s + r)
  {
    forall i, j | 0 <= i < j < |s + r| ensures (s + r)[i] != (s + r)[j] {
      assert i < |s| ==> (s + r)[i] in s;
      assert j >= |s| ==> (s + r)[j] in r;
    }
  }

  /** Blocks in the hands of a stack operation are nobody's holdings. */
  lemma HeldApart(c: State, t: nat)
    requires CInv(c) && t < |c.caches|
    ensures forall u :: 0 <= u < |c.caches| ==>
      Misses(c.l.accounts[t].held, Holdings(c.caches[u])) && Misses(Holdings(c.caches[u]), c.l.accounts[t].held)
    ensures forall b :: b in c.l.accounts[t].held ==> b !in c.live
  {
    assert HandInv(c.l, t);
    forall u | 0 <= u < |c.caches|
      ensures Misses(c.l.accounts[t].held, Holdings(c.caches[u])) && Misses(Holdings(c.caches[u]), c.l.accounts[t].held)
    {
      assert Owns(c.m, c.l, Holdings(c.caches[u]));
    }
  }

  /** The chain that `pop_bulk` returned is in the cache's hands. */
  lemma ReturnCache(c: State, t: nat, weak: bool)
    requires CInv(c) && Able(c, Run(t, weak)) && Possible(c, Run(t, weak)) && Unwrapped(c, Run(t, weak))
    requires Perform(c.m, Tick(t, weak)).e.Returned? && c.caches[t].step.Fetching?
    ensures var c', held := Do(c, Run(t, weak)).c, c.l.accounts[t].held;
      && c'.caches[t] == Cache(c.caches[t].local, Splicing(held)) && c'.m.mem == c.m.mem
      && CacheAt(c.batch, c'.m, c'.l, c'.caches[t], t) && Owns(c'.m, c'.l, Holdings(c'.caches[t]))
      && Fulfilled(c.m.mem, c.l.accounts[t], c.m.threads[t].task.value)
  {
    var x, local, held, c' := Tick(t, weak), c.caches[t].local, c.l.accounts[t].held, Do(c, Run(t, weak)).c;
    assert CacheAt(c.batch, c.m, c.l, c.caches[t], t) && Owns(c.m, c.l, Holdings(c.caches[t]));
    TickStays(c.m, c.l, t, weak);
    ReturnHands(c.m, c.l, t, weak);
    OwnsKept(c.m, c.l, x, local);
    HeldApart(c, t);
    DistinctJoin(held, local);
  }

  lemma ReturnKeeps(c: State, t: nat, weak: bool)
    requires CInv(c) && Able(c, Run(t, weak)) && Possible(c, Run(t, weak)) && Unwrapped(c, Run(t, weak))
    requires Perform(c.m, Tick(t, weak)).e.Returned? && c.caches[t].step.Fetching?
    ensures CInv(Do(c, Run(t, weak)).c)
  {
    var x, c' := Tick(t, weak), Do(c, Run(t, weak)).c;
    ReturnCache(c, t, weak);
    HeldApart(c, t);
    AlreadyApart(c, t, c.caches[t].local);
    OthersKept(c, x, t, []);
    AccessBulk(c.m, c.l, x);
    Assemble(c, c', t);
  }

  // ----- a client writes into its block

  lemma WriteKeeps(c: State, b: Block, p: Ptr)
    requires CInv(c) && Able(c, Write(b, p)) && Possible(c, Write(b, p))
    ensures CInv(Do(c, Write(b, p)).c)
  {
    var x, c' := Scribble(b, p), Do(c, Write(b, p)).c;
    ScribbleOnly(c.m, c.l, b, p);
    AccessBulk(c.m, c.l, x);
    forall u | 0 <= u < |c.caches|
      ensures CacheAt(c.batch, c'.m, c'.l, c.caches[u], u) && Owns(c'.m, c'.l, Holdings(c.caches[u]))
    {
      assert b !in Holdings(c.caches[u]);
      CacheKept(c.batch, c.m, c.l, c'.m, c'.l, c.caches[u], u);
    }
  }

  /** Every move that the caches and the clients may make can be made, and keeps
      the invariant. */
  lemma MoveKeeps(c: State, a: Move)
    requires CInv(c) && Able(c, a) && Unwrapped(c, a)
    ensures Possible(c, a) && CInv(Do(c, a).c)
  {
    AblePossible(c, a);
    match a
    case Alloc(t) =>
      if NeedsRefill(c, t) {
        FetchKeeps(c, t);
      } else {
        LocalKeeps(c, t);
      }
    case Splice(t) => SpliceKeeps(c, t);
    case Free(t, b) => FreeKeeps(c, t, b);
    case Cut(t) => CutKeeps(c, t);
    case Send(t) => SendKeeps(c, t);
    case Run(t, weak) =>
      if Perform(c.m, Tick(t, weak)).e.Returned? && c.caches[t].step.Fetching? {
        ReturnKeeps(c, t, weak);
      } else {
        StayKeeps(c, t, weak);
      }
    case Write(b, p) => WriteKeeps(c, b, p);
  }
}
