/** Many thread caches over one shared free list. A bulk transfer holds
    `bulk_lock` and is one step; everything else interleaves freely. */
module TwoLevel {
  import opened Options
  import opened CacheSpec
  import opened Sequences

  type Block = nat

  /** A cache is in a refill between `pop_bulk` and the splice, and in a flush
      between cutting the batch off and the end of `push_bulk`. */
  datatype Phase =
    | Resting
    | Refilling(batch: seq<Block>)
    | Flushing(batch: seq<Block>)

  datatype Stats = Stats(
    allocs: nat, deallocs: nat, flushes: nat, refillBlocks: nat, flushBlocks: nat,
    ops: nat,          // calls of alloc and dealloc so far
    since: nat)        // of these, calls since the latest flush

  datatype Cache = Cache(local: seq<Block>, phase: Phase, stats: Stats)

  datatype State = State(batch: nat, global: seq<Block>, caches: seq<Cache>, live: set<Block>)

  datatype Action =
    | Spawn
    | AllocBegin(t: nat)
    | AllocEnd(t: nat)
    | DeallocBegin(t: nat, b: Block)
    | DeallocEnd(t: nat)

  datatype Result =
    | Internal
    | Granted(block: Option<Block>)
    | Freed(b: Block)

  datatype Outcome = Outcome(s: State, r: Result)

  predicate Enabled(s: State, a: Action) {
    match a
    case Spawn => true
    case AllocBegin(t) => t < |s.caches| && s.caches[t].phase.Resting?
    case AllocEnd(t) => t < |s.caches| && s.caches[t].phase.Refilling?
    case DeallocBegin(t, b) => t < |s.caches| && s.caches[t].phase.Resting? && b in s.live
    case DeallocEnd(t) => t < |s.caches| && s.caches[t].phase.Flushing?
  }

  const NO_STATS := Stats(0, 0, 0, 0, 0, 0, 0)

  function Called(st: Stats): Stats { st.(ops := st.ops + 1, since := st.since + 1) }

  /** The end of `alloc`: hand out the head of the local list, if there is one. */
  function TakeLocal(s: State, t: nat, c: Cache): Outcome
    requires t < |s.caches|
  {
    if c.local == [] then Outcome(s.(caches := s.caches[t := c]), Granted(None))
    else
      var c' := c.(local := c.local[1..], stats := c.stats.(allocs := c.stats.allocs + 1));
      Outcome(s.(caches := s.caches[t := c'], live := s.live + {c.local[0]}), Granted(Some(c.local[0])))
  }

  /** The end of `refill`: the popped batch goes in front of the local list. */
  function Splice(c: Cache): Cache
    requires c.phase.Refilling?
  {
    Cache(c.phase.batch + c.local, Resting,
          c.stats.(refillBlocks := c.stats.refillBlocks + |c.phase.batch|))
  }

  /** The start of `dealloc`: the block goes to the front; past the high
      watermark all but one batch is cut off. */
  function PutLocal(batch: nat, c: Cache, b: Block): Cache {
    var local := [b] + c.local;
    var stats := Called(c.stats).(deallocs := c.stats.deallocs + 1);
    if |local| > 2 * batch then
      var k := Min(|local| - batch, |local|);
      Cache(local[k..], Flushing(local[..k]), stats)
    else Cache(local, Resting, stats)
  }

  function Step(s: State, a: Action): Outcome
    requires Enabled(s, a)
  {
    match a
    case Spawn => Outcome(s.(caches := s.caches + [Cache([], Resting, NO_STATS)]), Internal)
    case AllocBegin(t) =>
      var c := s.caches[t].(stats := Called(s.caches[t].stats));
      if |c.local| <= s.batch / 2 then
        var k := Taken(s.batch, |s.global|);
        Outcome(s.(caches := s.caches[t := c.(phase := Refilling(s.global[..k]))], global := s.global[k..]), Internal)
      else
        TakeLocal(s, t, c)
    case AllocEnd(t) =>
      TakeLocal(s, t, Splice(s.caches[t]))
    case DeallocBegin(t, b) =>
      Outcome(s.(caches := s.caches[t := PutLocal(s.batch, s.caches[t], b)], live := s.live - {b}), Freed(b))
    case DeallocEnd(t) =>
      var c := s.caches[t];
      var gone := c.phase.batch;
      var stats := c.stats.(flushes := c.stats.flushes + 1, flushBlocks := c.stats.flushBlocks + |gone|, since := 0);
      Outcome(s.(caches := s.caches[t := Cache(c.local, Resting, stats)], global := Reverse(gone) + s.global), Internal)
  }

  /** A call that is not interleaved does what the heap-level cache does. */
  lemma AllocAtomic(s: State, t: nat)
    requires Enabled(s, AllocBegin(t))
    ensures var o := Step(s, AllocBegin(t));
      var o' := if o.s.caches[t].phase.Resting? then o else Step(o.s, AllocEnd(t));
      Alloc(s.batch, Store(s.caches[t].local, s.global))
        == Grant(o'.r.block, Store(o'.s.caches[t].local, o'.s.global))
  {
  }

  lemma DeallocAtomic(s: State, t: nat, b: Block)
    requires Enabled(s, DeallocBegin(t, b))
    ensures var o := Step(s, DeallocBegin(t, b));
      var s' := if o.s.caches[t].phase.Resting? then o.s else Step(o.s, DeallocEnd(t)).s;
      Dealloc(s.batch, Store(s.caches[t].local, s.global), b) == Store(s'.caches[t].local, s'.global)
  {
  }

  // ------------------------------------------------------------------
  // Conservation
  // ------------------------------------------------------------------

  function Transit(c: Cache): seq<Block> { if c.phase.Resting? then [] else c.phase.batch }

  function Hand(c: Cache): multiset<Block> { multiset(c.local) + multiset(Transit(c)) }

  function Held(cs: seq<Cache>): multiset<Block> {
    if cs == [] then multiset{} else Hand(cs[0]) + Held(cs[1..])
  }

  /** All blocks of the pool, wherever they are. */
  function Total(s: State): multiset<Block> {
    multiset(s.global) + Held(s.caches) + multiset(s.live)
  }

  /** Exchanging one summand for another. */
  lemma Exchange(a: multiset<Block>, h: multiset<Block>, x: multiset<Block>, h': multiset<Block>, y: multiset<Block>)
    requires h' + x == h + y
    ensures (a + h') + x == (a + h) + y
  {
    assert (a + h') + x == a + (h' + x);
  }

  lemma {:induction false} HeldUpdate(cs: seq<Cache>, t: nat, c: Cache)
    requires t < |cs|
    ensures Held(cs[t := c]) + Hand(cs[t]) == Held(cs) + Hand(c)
  {
    if t == 0 {
      assert cs[0 := c][1..] == cs[1..];
      assert Held(cs[0 := c]) == Hand(c) + Held(cs[1..]);
    } else {
      assert cs[t := c][1..] == cs[1..][t - 1 := c];
      HeldUpdate(cs[1..], t - 1, c);
      Exchange(Hand(cs[0]), Held(cs[1..]), Hand(cs[t]), Held(cs[1..][t - 1 := c]), Hand(c));
    }
  }

  lemma {:induction false} HeldConcat(cs: seq<Cache>, ds: seq<Cache>)
    ensures Held(cs + ds) == Held(cs) + Held(ds)
  {
    if cs == [] {
      assert cs + ds == ds;
    } else {
      assert (cs + ds)[1..] == cs[1..] + ds;
      HeldConcat(cs[1..], ds);
      assert Held(cs + ds) == Hand(cs[0]) + (Held(cs[1..]) + Held(ds));
    }
  }

  lemma Larger(a: multiset<Block>, b: multiset<Block>, c: multiset<Block>)
    requires a <= c
    ensures a <= b + c
  {
  }

  lemma {:induction false} HeldHas(cs: seq<Cache>, t: nat)
    requires t < |cs|
    ensures Hand(cs[t]) <= Held(cs)
  {
    if t > 0 {
      HeldHas(cs[1..], t - 1);
      Larger(Hand(cs[t]), Hand(cs[0]), Held(cs[1..]));
    }
  }

  /** Every block is in the pool exactly once. */
  ghost predicate Once(s: State, all: set<Block>) { Total(s) == multiset(all) }

  lemma LiveNotFree(s: State, all: set<Block>, t: nat, b: Block)
    requires Once(s, all) && t < |s.caches| && b in Hand(s.caches[t])
    ensures b !in s.live && b in all
  {
    HeldHas(s.caches, t);
    assert multiset(all)[b] <= 1;
    assert Held(s.caches)[b] >= 1;
    assert Total(s)[b] == multiset(s.global)[b] + Held(s.caches)[b] + multiset(s.live)[b];
  }

  /** A step that takes the blocks `x` out of cache `t` and brings in `y`. */
  lemma Moves(s: State, t: nat, s': State, x: multiset<Block>, y: multiset<Block>)
    requires t < |s.caches| && |s'.caches| == |s.caches| && s'.caches == s.caches[t := s'.caches[t]]
    requires Hand(s'.caches[t]) + x == Hand(s.caches[t]) + y
    requires multiset(s'.global) + multiset(s'.live) + y == multiset(s.global) + multiset(s.live) + x
    ensures Total(s') == Total(s)
  {
    HeldUpdate(s.caches, t, s'.caches[t]);
    Balance(Held(s'.caches), Held(s.caches), Hand(s'.caches[t]), Hand(s.caches[t]), x, y,
            multiset(s'.global) + multiset(s'.live), multiset(s.global) + multiset(s.live));
    assert Total(s') == multiset(s'.global) + multiset(s'.live) + Held(s'.caches);
    assert Total(s) == multiset(s.global) + multiset(s.live) + Held(s.caches);
  }

  lemma Balance(h': multiset<Block>, h: multiset<Block>, c': multiset<Block>, c: multiset<Block>,
                x: multiset<Block>, y: multiset<Block>, r': multiset<Block>, r: multiset<Block>)
    requires h' + c == h + c' && c' + x == c + y && r' + y == r + x
    ensures r' + h' == r + h
  {
    forall b: Block ensures (r' + h')[b] == (r + h)[b] {
      assert (h' + c)[b] == (h + c')[b] && (c' + x)[b] == (c + y)[b] && (r' + y)[b] == (r + x)[b];
    }
  }

  /** A step that brings the blocks `y` from elsewhere into cache `t`. */
  lemma MovesIn(s: State, t: nat, s': State, y: multiset<Block>)
    requires t < |s.caches| && |s'.caches| == |s.caches| && s'.caches == s.caches[t := s'.caches[t]]
    requires Hand(s'.caches[t]) == Hand(s.caches[t]) + y
    requires multiset(s.global) + multiset(s.live) == (multiset(s'.global) + multiset(s'.live)) + y
    ensures Total(s') == Total(s)
  {
    Moves(s, t, s', multiset{}, y);
  }

  lemma Rotate(a: multiset<Block>, b: multiset<Block>, c: multiset<Block>)
    ensures (a + b) + c == (b + c) + a
    ensures (a + b) + c == (a + c) + b
  {
  }

  lemma TakeLocalKeeps(s: State, all: set<Block>, t: nat, c: Cache)
    requires Once(s, all) && t < |s.caches| && Hand(c) == Hand(s.caches[t]) && c.phase.Resting?
    ensures var o := TakeLocal(s, t, c);
      && Once(o.s, all)
      && (c.local != [] ==> c.local[0] in all && c.local[0] !in s.live)
  {
    var o := TakeLocal(s, t, c);
    if c.local != [] {
      var b := c.local[0];
      assert c.local == [b] + c.local[1..];
      assert b in Hand(c);
      LiveNotFree(s, all, t, b);
      assert multiset(s.live + {b}) == multiset(s.live) + multiset{b};
      Moves(s, t, o.s, multiset{b}, multiset{});
    } else {
      Moves(s, t, o.s, multiset{}, multiset{});
    }
  }

  /** The specification: a set of live blocks. `alloc` hands out a block that
      is not live, or none; `dealloc` ends the life of exactly one block. */
  function PoolStep(all: set<Block>, live: set<Block>, r: Result): Option<set<Block>> {
    match r
    case Internal => Some(live)
    case Granted(None) => Some(live)
    case Granted(Some(b)) => if b in all && b !in live then Some(live + {b}) else None
    case Freed(b) => if b in live then Some(live - {b}) else None
  }

  lemma RefillHand(c: Cache, got: seq<Block>)
    requires c.phase.Resting?
    ensures Hand(c.(stats := Called(c.stats), phase := Refilling(got))) == Hand(c) + multiset(got)
  {
  }

  lemma AllocBeginConserves(s: State, all: set<Block>, t: nat)
    requires Once(s, all) && Enabled(s, AllocBegin(t))
    ensures var o := Step(s, AllocBegin(t)); Once(o.s, all) && PoolStep(all, s.live, o.r) == Some(o.s.live)
  {
    var o, c := Step(s, AllocBegin(t)), s.caches[t];
    if |c.local| <= s.batch / 2 {
      var k := Taken(s.batch, |s.global|);
      Cut(s.global, k);
      Rotate(multiset(s.global[..k]), multiset(s.global[k..]), multiset(s.live));
      RefillHand(c, s.global[..k]);
      MovesIn(s, t, o.s, multiset(s.global[..k]));
    } else {
      TakeLocalKeeps(s, all, t, c.(stats := Called(c.stats)));
    }
  }

  lemma AllocEndConserves(s: State, all: set<Block>, t: nat)
    requires Once(s, all) && Enabled(s, AllocEnd(t))
    ensures var o := Step(s, AllocEnd(t)); Once(o.s, all) && PoolStep(all, s.live, o.r) == Some(o.s.live)
  {
    SpliceHand(s.caches[t]);
    TakeLocalKeeps(s, all, t, Splice(s.caches[t]));
  }

  lemma SpliceHand(c: Cache)
    requires c.phase.Refilling?
    ensures Hand(Splice(c)) == Hand(c)
  {
  }

  lemma PutHand(batch: nat, c: Cache, b: Block)
    requires c.phase.Resting?
    ensures Hand(PutLocal(batch, c, b)) == Hand(c) + multiset{b}
  {
    var local := [b] + c.local;
    FrontHand(c.local, b);
    assert Hand(c) == multiset(c.local);
    if |local| > 2 * batch {
      var k := Min(|local| - batch, |local|);
      Cut(local, k);
      Commute(multiset(local[k..]), multiset(local[..k]));
    }
  }

  lemma FrontHand(local: seq<Block>, b: Block)
    ensures multiset([b] + local) == multiset(local) + multiset{b}
  {
  }

  lemma Commute(x: multiset<Block>, y: multiset<Block>)
    ensures x + y == y + x
  {
  }

  lemma FreeConserves(s: State, all: set<Block>, t: nat, b: Block)
    requires Once(s, all) && Enabled(s, DeallocBegin(t, b))
    ensures var o := Step(s, DeallocBegin(t, b)); Once(o.s, all) && PoolStep(all, s.live, o.r) == Some(o.s.live)
  {
    PutHand(s.batch, s.caches[t], b);
    assert multiset(s.live) == multiset(s.live - {b}) + multiset{b};
    Rotate(multiset(s.global), multiset(s.live - {b}), multiset{b});
    MovesIn(s, t, Step(s, DeallocBegin(t, b)).s, multiset{b});
  }

  /** No step loses or duplicates a block, and each is a step of the pool. */
  lemma StepConserves(s: State, all: set<Block>, a: Action)
    requires Once(s, all) && Enabled(s, a)
    ensures var o := Step(s, a); Once(o.s, all) && PoolStep(all, s.live, o.r) == Some(o.s.live)
  {
    match a
    case Spawn => HeldConcat(s.caches, [Cache([], Resting, NO_STATS)]);
    case AllocBegin(t) => AllocBeginConserves(s, all, t);
    case AllocEnd(t) => AllocEndConserves(s, all, t);
    case DeallocBegin(t, b) => FreeConserves(s, all, t, b);
    case DeallocEnd(t) =>
      var gone := s.caches[t].phase.batch;
      ReverseMultiset(gone);
      Moves(s, t, Step(s, a).s, multiset(gone), multiset{});
  }

  // ------------------------------------------------------------------
  // Cache sizes, statistics and flush hysteresis
  // ------------------------------------------------------------------

  function Distance(a: nat, b: nat): nat { if a <= b then b - a else a - b }

  /** Between operations a cache holds at most two batches; a refill starts
      from half a batch at most, and a flush leaves exactly one batch. */
  ghost predicate Watermarks(batch: nat, c: Cache) {
    match c.phase
    case Resting => |c.local| <= 2 * batch
    case Refilling(got) => |c.local| <= batch / 2 && |got| <= (if batch == 0 then 1 else batch)
    case Flushing(gone) => |c.local| == batch && |gone| == batch + 1
  }

  /** The counters of a thread explain the size of its cache. */
  ghost predicate Accounted(c: Cache) {
    var st := c.stats;
    var size := |c.local| + (if c.phase.Flushing? then |c.phase.batch| else 0);
    size == st.refillBlocks + st.deallocs - st.allocs - st.flushBlocks
  }

  /** Since its latest flush a cache has made at least as many calls as its
      size has moved away from one batch. */
  ghost predicate Hysteresis(batch: nat, c: Cache) {
    var st := c.stats;
    st.flushes > 0 ==>
      && (c.phase.Resting? ==> st.since >= Distance(|c.local|, batch))
      && (c.phase.Refilling? ==> st.since >= 1 + Distance(|c.local|, batch))
      && (c.phase.Flushing? ==> st.since >= batch + 1)
      && (st.flushes - 1) * (batch + 1) + st.since <= st.ops
  }

  ghost predicate CacheInv(batch: nat, c: Cache) {
    Watermarks(batch, c) && Accounted(c) && Hysteresis(batch, c)
  }

  ghost predicate CachesInv(s: State) {
    forall t :: 0 <= t < |s.caches| ==> CacheInv(s.batch, s.caches[t])
  }

  lemma StepShape(s: State, a: Action)
    requires Enabled(s, a) && !a.Spawn?
    ensures var o := Step(s, a);
      && o.s.batch == s.batch && |o.s.caches| == |s.caches|
      && o.s.caches == s.caches[a.t := o.s.caches[a.t]]
  {
  }

  lemma StepWatermarks(s: State, a: Action)
    requires Enabled(s, a) && !a.Spawn? && Watermarks(s.batch, s.caches[a.t])
    ensures Watermarks(s.batch, Step(s, a).s.caches[a.t])
  {
  }

  lemma StepAccounted(s: State, a: Action)
    requires Enabled(s, a) && !a.Spawn? && Accounted(s.caches[a.t])
    ensures Accounted(Step(s, a).s.caches[a.t])
  {
  }

  lemma StepHysteresis(s: State, a: Action)
    requires Enabled(s, a) && !a.Spawn?
    requires Watermarks(s.batch, s.caches[a.t]) && Hysteresis(s.batch, s.caches[a.t])
    ensures Hysteresis(s.batch, Step(s, a).s.caches[a.t])
  {
    var f := s.caches[a.t].stats.flushes;
    if a.DeallocEnd? {
      assert f > 0 ==> f * (s.batch + 1) == (f - 1) * (s.batch + 1) + (s.batch + 1);
    } else {
      assert Step(s, a).s.caches[a.t].stats.flushes == f;
    }
  }

  lemma StepCache(s: State, a: Action)
    requires Enabled(s, a) && !a.Spawn? && CacheInv(s.batch, s.caches[a.t])
    ensures CacheInv(s.batch, Step(s, a).s.caches[a.t])
  {
    StepWatermarks(s, a);
    StepAccounted(s, a);
    StepHysteresis(s, a);
  }

  lemma {:induction false} StepCaches(s: State, a: Action)
    requires Enabled(s, a) && CachesInv(s)
    ensures CachesInv(Step(s, a).s) && Step(s, a).s.batch == s.batch
  {
    if !a.Spawn? {
      StepShape(s, a);
      StepCache(s, a);
    }
  }

  // ------------------------------------------------------------------
  // Runs
  // ------------------------------------------------------------------

  predicate Runs(s: State, acts: seq<Action>)
    decreases |acts|
  {
    acts == [] || (Enabled(s, acts[0]) && Runs(Step(s, acts[0]).s, acts[1..]))
  }

  function After(s: State, acts: seq<Action>): State
    requires Runs(s, acts)
    decreases |acts|
  {
    if acts == [] then s else After(Step(s, acts[0]).s, acts[1..])
  }

  function Results(s: State, acts: seq<Action>): seq<Result>
    requires Runs(s, acts)
    decreases |acts|
  {
    if acts == [] then [] else [Step(s, acts[0]).r] + Results(Step(s, acts[0]).s, acts[1..])
  }

  function PoolRun(all: set<Block>, live: set<Block>, rs: seq<Result>): Option<set<Block>>
    decreases |rs|
  {
    if rs == [] then Some(live)
    else
      var next := PoolStep(all, live, rs[0]);
      if next.None? then None else PoolRun(all, next.value, rs[1..])
  }

  /** A new pool: all blocks on the shared list, no thread yet. */
  function Fresh(batch: nat, blocks: seq<Block>): State { State(batch, blocks, [], {}) }

  lemma {:induction false} DistinctOnce(s: seq<Block>)
    requires Distinct(s)
    ensures multiset(s) == multiset(Elements(s)) && |Elements(s)| == |s|
  {
    if s != [] {
      DistinctOnce(s[1..]);
      assert s == [s[0]] + s[1..];
      assert Elements(s) == {s[0]} + Elements(s[1..]) && s[0] !in Elements(s[1..]);
    }
  }

  lemma {:induction false} RunKeeps(s: State, all: set<Block>, acts: seq<Action>)
    requires Once(s, all) && CachesInv(s) && Runs(s, acts)
    ensures var s' := After(s, acts); Once(s', all) && CachesInv(s') && s'.batch == s.batch
    ensures PoolRun(all, s.live, Results(s, acts)) == Some(After(s, acts).live)
    decreases |acts|
  {
    if acts != [] {
      StepConserves(s, all, acts[0]);
      StepCaches(s, acts[0]);
      RunKeeps(Step(s, acts[0]).s, all, acts[1..]);
      assert Results(s, acts)[1..] == Results(Step(s, acts[0]).s, acts[1..]);
    }
  }

  /** Over every run of any number of threads, with blocks freed by any thread:
      shared list, local lists, batches in transit and live blocks are together
      the original blocks, each once, and the calls behave like a simple pool. */
  lemma RefinesPool(batch: nat, blocks: seq<Block>, acts: seq<Action>)
    requires Distinct(blocks) && Runs(Fresh(batch, blocks), acts)
    ensures var s := After(Fresh(batch, blocks), acts);
      && multiset(s.global) + Held(s.caches) + multiset(s.live) == multiset(blocks)
      && PoolRun(Elements(blocks), {}, Results(Fresh(batch, blocks), acts)) == Some(s.live)
  {
    DistinctOnce(blocks);
    RunKeeps(Fresh(batch, blocks), Elements(blocks), acts);
  }

  /** Watermarks, statistics and flush hysteresis hold in every reachable state. */
  lemma CacheTheorem(batch: nat, blocks: seq<Block>, acts: seq<Action>, t: nat)
    requires Distinct(blocks) && Runs(Fresh(batch, blocks), acts)
    requires t < |After(Fresh(batch, blocks), acts).caches|
    ensures var c := After(Fresh(batch, blocks), acts).caches[t];
      Watermarks(batch, c) && Accounted(c) && Hysteresis(batch, c)
  {
    DistinctOnce(blocks);
    RunKeeps(Fresh(batch, blocks), Elements(blocks), acts);
  }

  /** Two flushes of one cache are at least `batch + 1` calls apart. */
  lemma FlushesApart(batch: nat, blocks: seq<Block>, acts: seq<Action>, t: nat)
    requires Distinct(blocks) && Runs(Fresh(batch, blocks), acts)
    requires Enabled(After(Fresh(batch, blocks), acts), DeallocEnd(t))
    ensures var c := After(Fresh(batch, blocks), acts).caches[t];
      |c.local| == batch && (c.stats.flushes > 0 ==> c.stats.since >= batch + 1)
  {
    DistinctOnce(blocks);
    RunKeeps(Fresh(batch, blocks), Elements(blocks), acts);
  }

  // ------------------------------------------------------------------
  // Stranded blocks
  // ------------------------------------------------------------------

  /** `n` times `cap`, by addition. */
  function Times(n: nat, cap: nat): nat { if n == 0 then 0 else Times(n - 1, cap) + cap }

  lemma {:induction false} TimesIsProduct(n: nat, cap: nat)
    ensures Times(n, cap) == n * cap
  {
    if n > 0 {
      TimesIsProduct(n - 1, cap);
      assert n * cap == (n - 1) * cap + cap;
    }
  }

  function HeldCount(cs: seq<Cache>): nat {
    if cs == [] then 0 else |cs[0].local| + |Transit(cs[0])| + HeldCount(cs[1..])
  }

  lemma {:induction false} HeldIsCount(cs: seq<Cache>)
    ensures |Held(cs)| == HeldCount(cs)
  {
    if cs != [] {
      HeldIsCount(cs[1..]);
      assert |Hand(cs[0])| == |cs[0].local| + |Transit(cs[0])|;
    }
  }

  ghost predicate AllWithin(cs: seq<Cache>, cap: nat) {
    forall u :: 0 <= u < |cs| ==> |cs[u].local| + |Transit(cs[u])| <= cap
  }

  lemma {:induction false} HeldSize(cs: seq<Cache>, cap: nat)
    requires AllWithin(cs, cap)
    ensures HeldCount(cs) <= Times(|cs|, cap)
  {
    if cs != [] {
      assert AllWithin(cs[1..], cap);
      HeldSize(cs[1..], cap);
    }
  }

  lemma {:induction false} CountBound(cs: seq<Cache>, t: nat, cap: nat)
    requires t < |cs| && |cs[t].local| + |Transit(cs[t])| == 0 && AllWithin(cs, cap)
    ensures HeldCount(cs) <= Times(|cs| - 1, cap)
  {
    assert AllWithin(cs[1..], cap);
    if t == 0 {
      HeldSize(cs[1..], cap);
    } else {
      CountBound(cs[1..], t - 1, cap);
    }
  }

  /** A thread has come back from the shared list with nothing and has nothing. */
  predicate EmptyHanded(s: State, t: nat) {
    t < |s.caches| && s.caches[t].phase == Refilling([]) && s.caches[t].local == []
  }

  predicate AtRest(s: State) {
    forall u :: 0 <= u < |s.caches| ==> s.caches[u].phase.Resting?
  }

  lemma CacheCap(batch: nat, c: Cache)
    requires Watermarks(batch, c)
    ensures |c.local| + |Transit(c)| <= 2 * batch + (if c.phase.Resting? then 0 else 1)
  {
  }

  lemma Drained(s: State, all: set<Block>, t: nat, cap: nat)
    requires Once(s, all) && s.global == [] && t < |s.caches| && AllWithin(s.caches, cap)
    requires |s.caches[t].local| + |Transit(s.caches[t])| == 0
    ensures |s.live| >= |all| - (|s.caches| - 1) * cap
  {
    CountBound(s.caches, t, cap);
    TimesIsProduct(|s.caches| - 1, cap);
    HeldIsCount(s.caches);
    assert |Total(s)| == |Held(s.caches)| + |s.live|;
  }

  lemma FoundNothing(s: State, t: nat)
    requires Enabled(s, AllocBegin(t)) && EmptyHanded(Step(s, AllocBegin(t)).s, t)
    ensures s.global == [] && |s.caches[t].local| + |Transit(s.caches[t])| == 0
  {
  }

  /** At most this many blocks can sit in caches other than one's own. */
  function Strandable(s: State): int {
    (|s.caches| - 1) * (2 * s.batch + (if AtRest(s) then 0 else 1))
  }

  lemma StrandedNow(s: State, all: set<Block>, t: nat)
    requires Once(s, all) && CachesInv(s)
    requires Enabled(s, AllocBegin(t)) && EmptyHanded(Step(s, AllocBegin(t)).s, t)
    ensures |s.live| >= |all| - Strandable(s)
  {
    var cap := 2 * s.batch + (if AtRest(s) then 0 else 1);
    forall u | 0 <= u < |s.caches| ensures |s.caches[u].local| + |Transit(s.caches[u])| <= cap {
      assert CacheInv(s.batch, s.caches[u]);
      CacheCap(s.batch, s.caches[u]);
    }
    FoundNothing(s, t);
    Drained(s, all, t, cap);
  }

  /** When a thread finds nothing, all blocks are live but those stranded in the
      other caches: two batches each when no call is in progress elsewhere, one
      block more in general. */
  lemma Stranding(batch: nat, blocks: seq<Block>, acts: seq<Action>, t: nat)
    requires Distinct(blocks) && Runs(Fresh(batch, blocks), acts)
    requires var s := After(Fresh(batch, blocks), acts);
      Enabled(s, AllocBegin(t)) && EmptyHanded(Step(s, AllocBegin(t)).s, t)
    ensures var s := After(Fresh(batch, blocks), acts);
      s.batch == batch && |s.live| >= |blocks| - Strandable(s)
  {
    DistinctOnce(blocks);
    RunKeeps(Fresh(batch, blocks), Elements(blocks), acts);
    StrandedNow(After(Fresh(batch, blocks), acts), Elements(blocks), t);
  }

  // ------------------------------------------------------------------
  // Null answers
  // ------------------------------------------------------------------

  /** The call that the latest step of thread `t` belongs to began with action
      `k`, in a state in which shared and local list were empty. */
  ghost predicate BeganEmpty(s: State, acts: seq<Action>, t: nat, k: nat) {
    && k < |acts| && acts[k] == AllocBegin(t) && Quiet(acts[k + 1..], t)
    && Runs(s, acts[..k])
    && var u := After(s, acts[..k]);
       Enabled(u, AllocBegin(t)) && EmptyHanded(Step(u, AllocBegin(t)).s, t)
  }

  predicate Quiet(acts: seq<Action>, t: nat) {
    forall i :: 0 <= i < |acts| ==> acts[i].Spawn? || acts[i].t != t
  }

  /** A thread comes to be empty-handed by beginning a call, and stays so until
      its next step. */
  lemma BecomesEmptyHanded(s: State, a: Action, t: nat)
    requires Enabled(s, a) && EmptyHanded(Step(s, a).s, t)
    ensures a == AllocBegin(t) || (EmptyHanded(s, t) && (a.Spawn? || a.t != t))
  {
  }

  lemma {:induction false} EmptyHandedSince(s: State, acts: seq<Action>, t: nat)
    requires Runs(s, acts) && EmptyHanded(After(s, acts), t)
    ensures (EmptyHanded(s, t) && Quiet(acts, t)) || exists k :: BeganEmpty(s, acts, t, k)
    decreases |acts|
  {
    if acts != [] {
      var s' := Step(s, acts[0]).s;
      EmptyHandedSince(s', acts[1..], t);
      if EmptyHanded(s', t) && Quiet(acts[1..], t) {
        BecomesEmptyHanded(s, acts[0], t);
        if acts[0] == AllocBegin(t) {
          assert acts[..0] == [];
          assert BeganEmpty(s, acts, t, 0);
        } else {
          assert forall i :: 1 <= i < |acts| ==> acts[i] == acts[1..][i - 1];
        }
      } else {
        var k: nat :| BeganEmpty(s', acts[1..], t, k);
        assert acts[..k + 1][0] == acts[0] && acts[..k + 1][1..] == acts[1..][..k];
        assert acts[k + 1..][1..] == acts[1..][k + 1..];
        assert BeganEmpty(s, acts, t, k + 1);
      }
    }
  }

  lemma NullIsEmptyHanded(s: State, a: Action)
    requires Enabled(s, a) && Step(s, a).r == Granted(None)
    ensures a.AllocEnd? && EmptyHanded(s, a.t)
  {
  }

  /** In every run, a call that returns null began when the shared list and its
      own cache were empty, and at that moment all blocks were live but those
      stranded in the other caches. */
  lemma NullMeansStranded(batch: nat, blocks: seq<Block>, acts: seq<Action>, a: Action) returns (k: nat)
    requires Distinct(blocks) && Runs(Fresh(batch, blocks), acts)
    requires var s := After(Fresh(batch, blocks), acts); Enabled(s, a) && Step(s, a).r == Granted(None)
    ensures a.AllocEnd? && BeganEmpty(Fresh(batch, blocks), acts, a.t, k)
    ensures var u := After(Fresh(batch, blocks), acts[..k]);
      u.global == [] && u.caches[a.t].local == [] && |u.live| >= |blocks| - Strandable(u)
  {
    var s := Fresh(batch, blocks);
    NullIsEmptyHanded(After(s, acts), a);
    EmptyHandedSince(s, acts, a.t);
    k :| BeganEmpty(s, acts, a.t, k);
    Stranding(batch, blocks, acts[..k], a.t);
    FoundNothing(After(s, acts[..k]), a.t);
  }
}
