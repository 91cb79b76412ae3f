/** Every run of the cache code over the lock-free stack is a run of `TwoLevel`. */
module CachedStackRuns {
  import opened Options
  import opened Sequences
  import opened TaggedStack
  import opened TaggedStackSteps
  import opened TaggedStackBulk
  import opened TaggedStackShared
  import opened CachedStack
  import opened CachedStackInv
  import StackRuns = TaggedStackRuns
  import TwoLevel

  /** The bulk operation of `t` has released the lock and not yet returned. */
  predicate Released(c: State, t: nat) { t < |c.m.threads| && c.m.threads[t].task.Done? }

  function Held(c: State, t: nat): seq<Block> { if t < |c.l.accounts| then c.l.accounts[t].held else [] }

  function AbsLocal(c: State, t: nat): seq<Block>
    requires t < |c.caches|
  {
    if c.caches[t].step.Cutting? then c.caches[t].local[Excess(c, t)..] else c.caches[t].local
  }

  /** A refill has begun when `pop_bulk` has released the lock, and a flush has
      ended when `push_bulk` has. */
  function AbsPhase(c: State, t: nat): TwoLevel.Phase
    requires t < |c.caches|
  {
    match c.caches[t].step
    case Ready => TwoLevel.Resting
    case Fetching => if Released(c, t) then TwoLevel.Refilling(Held(c, t)) else TwoLevel.Resting
    case Splicing(chain) => TwoLevel.Refilling(chain)
    case Cutting => TwoLevel.Flushing(c.caches[t].local[..Excess(c, t)])
    case Sealed(batch) => TwoLevel.Flushing(batch)
    case Sending(batch) => if Released(c, t) then TwoLevel.Resting else TwoLevel.Flushing(batch)
  }

  ghost predicate CacheMatches(c: State, t: nat, cache: TwoLevel.Cache)
    requires t < |c.caches|
  {
    cache.local == AbsLocal(c, t) && cache.phase == AbsPhase(c, t)
  }

  ghost predicate Matches(c: State, a: TwoLevel.State) {
    && a.batch == c.batch && a.global == Shared(c.m, c.l) && a.live == c.live && |a.caches| == |c.caches|
    && (forall t :: 0 <= t < |c.caches| ==> CacheMatches(c, t, a.caches[t]))
  }

  /** The move is this step of the two-level pool, or none. */
  ghost predicate Simulated(c: State, x: Move, a: TwoLevel.State, step: Option<TwoLevel.Action>)
    requires Able(c, x) && Possible(c, x)
  {
    match step
    case None => Do(c, x).r == TwoLevel.Internal && Matches(Do(c, x).c, a)
    case Some(y) =>
      TwoLevel.Enabled(a, y) && TwoLevel.Step(a, y).r == Do(c, x).r && Matches(Do(c, x).c, TwoLevel.Step(a, y).s)
  }

  // ------------------------------------------------------------------
  // The other threads
  // ------------------------------------------------------------------

  /** Nothing that `AbsLocal` and `AbsPhase` of `u` depend on has changed. */
  ghost predicate SameFor(c: State, c': State, u: nat) {
    && u < |c.caches| == |c'.caches| && c'.caches[u] == c.caches[u] && c'.batch == c.batch
    && Released(c', u) == Released(c, u) && Held(c', u) == Held(c, u)
  }

  lemma SameMatches(c: State, c': State, u: nat, cache: TwoLevel.Cache)
    requires SameFor(c, c', u) && CacheMatches(c, u, cache)
    ensures CacheMatches(c', u, cache)
  {
  }

  predicate MoveOf(x: Move, u: nat) { !x.Write? && x.t == u }

  lemma OthersSame(c: State, x: Move, u: nat)
    requires CInv(c) && Able(c, x) && Possible(c, x) && u < |c.caches| && !MoveOf(x, u)
    ensures SameFor(c, Do(c, x).c, u)
  {
    var y := Access(c, x);
    if y.Some? {
      ActorOnly(c.m, c.l, y.value, u);
    }
  }

  /** What is left to show: the shared list, the live blocks and the cache of the
      thread that moves. */
  lemma OwnMatches(c: State, x: Move, a: TwoLevel.State, a': TwoLevel.State, t: nat)
    requires CInv(c) && Able(c, x) && Possible(c, x) && MoveOf(x, t) && t < |c.caches| && Matches(c, a)
    requires |a'.caches| == |a.caches| && a'.caches == a.caches[t := a'.caches[t]] && a'.batch == a.batch
    requires |Do(c, x).c.caches| == |c.caches| && Do(c, x).c.batch == c.batch
      && CacheMatches(Do(c, x).c, t, a'.caches[t])
    requires a'.global == Shared(Do(c, x).c.m, Do(c, x).c.l) && a'.live == Do(c, x).c.live
    ensures Matches(Do(c, x).c, a')
  {
    forall u | 0 <= u < |c.caches| ensures CacheMatches(Do(c, x).c, u, a'.caches[u]) {
      if u != t {
        OthersSame(c, x, u);
        SameMatches(c, Do(c, x).c, u, a.caches[u]);
      }
    }
  }

  /** An access that is not a release leaves the shared list. */
  lemma SharedSame(c: State, x: Move)
    requires CInv(c) && Able(c, x) && Possible(c, x) && Unwrapped(c, x)
    requires Access(c, x).Some? ==> !Releases(c.m, Access(c, x).value)
    ensures Shared(Do(c, x).c.m, Do(c, x).c.l) == Shared(c.m, c.l)
  {
    if Access(c, x).Some? {
      SharedKept(c.m, c.l, Access(c, x).value);
    }
  }

  // ------------------------------------------------------------------
  // Move by move
  // ------------------------------------------------------------------

  lemma FetchSimulated(c: State, a: TwoLevel.State, t: nat)
    requires CInv(c) && Able(c, Alloc(t)) && Possible(c, Alloc(t)) && Matches(c, a) && NeedsRefill(c, t)
    ensures Simulated(c, Alloc(t), a, None)
  {
    assert CacheMatches(c, t, a.caches[t]);
    SharedSame(c, Alloc(t));
    OwnMatches(c, Alloc(t), a, a, t);
  }

  lemma LocalSimulated(c: State, a: TwoLevel.State, t: nat)
    requires CInv(c) && Able(c, Alloc(t)) && Possible(c, Alloc(t)) && Matches(c, a) && !NeedsRefill(c, t)
    ensures Simulated(c, Alloc(t), a, Some(TwoLevel.AllocBegin(t)))
  {
    assert CacheMatches(c, t, a.caches[t]);
    OwnMatches(c, Alloc(t), a, TwoLevel.Step(a, TwoLevel.AllocBegin(t)).s, t);
  }

  lemma SpliceSimulated(c: State, a: TwoLevel.State, t: nat)
    requires CInv(c) && Able(c, Splice(t)) && Possible(c, Splice(t)) && Matches(c, a)
    ensures Simulated(c, Splice(t), a, Some(TwoLevel.AllocEnd(t)))
  {
    assert CacheMatches(c, t, a.caches[t]);
    SharedSame(c, Splice(t));
    OwnMatches(c, Splice(t), a, TwoLevel.Step(a, TwoLevel.AllocEnd(t)).s, t);
  }

  lemma FreeSimulated(c: State, a: TwoLevel.State, t: nat, b: Block)
    requires CInv(c) && Able(c, Free(t, b)) && Possible(c, Free(t, b)) && Matches(c, a)
    ensures Simulated(c, Free(t, b), a, Some(TwoLevel.DeallocBegin(t, b)))
  {
    assert CacheMatches(c, t, a.caches[t]);
    SharedSame(c, Free(t, b));
    OwnMatches(c, Free(t, b), a, TwoLevel.Step(a, TwoLevel.DeallocBegin(t, b)).s, t);
  }

  lemma CutSimulated(c: State, a: TwoLevel.State, t: nat)
    requires CInv(c) && Able(c, Cut(t)) && Possible(c, Cut(t)) && Matches(c, a)
    ensures Simulated(c, Cut(t), a, None)
  {
    assert CacheMatches(c, t, a.caches[t]);
    SharedSame(c, Cut(t));
    OwnMatches(c, Cut(t), a, a, t);
  }

  lemma SendSimulated(c: State, a: TwoLevel.State, t: nat)
    requires CInv(c) && Able(c, Send(t)) && Possible(c, Send(t)) && Matches(c, a)
    ensures Simulated(c, Send(t), a, None)
  {
    assert CacheMatches(c, t, a.caches[t]);
    SharedSame(c, Send(t));
    OwnMatches(c, Send(t), a, a, t);
  }

  lemma WriteSimulated(c: State, a: TwoLevel.State, b: Block, p: Ptr)
    requires CInv(c) && Able(c, Write(b, p)) && Possible(c, Write(b, p)) && Matches(c, a)
    ensures Simulated(c, Write(b, p), a, None)
  {
    SharedSame(c, Write(b, p));
    forall u | 0 <= u < |c.caches| ensures CacheMatches(Do(c, Write(b, p)).c, u, a.caches[u]) {
      OthersSame(c, Write(b, p), u);
      SameMatches(c, Do(c, Write(b, p)).c, u, a.caches[u]);
    }
  }

  /** A bulk operation comes to `Done` only by releasing the lock, and then returns. */
  lemma DoneOnly(m: Machine, l: Ledger, t: nat, weak: bool)
    requires t < |m.threads| && t < |l.accounts| && TaskInv(m.mem, l.accounts[t], m.threads[t])
    requires !Single(m.threads[t].task) && !m.threads[t].task.Outside? && !Releases(m, Tick(t, weak))
    ensures var o := Perform(m, Tick(t, weak));
      && t < |o.m.threads| && !o.m.threads[t].task.Done?
      && (m.threads[t].task.Done? <==> o.e.Returned?)
  {
  }

  /** A step of the stack operation inside, or its return. */
  lemma InsideSimulated(c: State, a: TwoLevel.State, t: nat, weak: bool)
    requires CInv(c) && Able(c, Run(t, weak)) && Possible(c, Run(t, weak)) && Unwrapped(c, Run(t, weak))
      && Matches(c, a)
    requires !Releases(c.m, Tick(t, weak))
    ensures Simulated(c, Run(t, weak), a, None)
  {
    InsideCache(c, t, weak, a.caches[t]);
    SharedSame(c, Run(t, weak));
    OwnMatches(c, Run(t, weak), a, a, t);
  }

  lemma InsideCache(c: State, t: nat, weak: bool, cache: TwoLevel.Cache)
    requires CInv(c) && Able(c, Run(t, weak)) && Possible(c, Run(t, weak)) && !Releases(c.m, Tick(t, weak))
    requires CacheMatches(c, t, cache)
    ensures var c' := Do(c, Run(t, weak)).c; |c'.caches| == |c.caches| && CacheMatches(c', t, cache)
  {
    assert CacheAt(c.batch, c.m, c.l, c.caches[t], t) && ThreadInv(c.m, c.l, t);
    DoneOnly(c.m, c.l, t, weak);
    RunShape(c, t, weak);
  }

  lemma RunShape(c: State, t: nat, weak: bool)
    requires Able(c, Run(t, weak)) && Possible(c, Run(t, weak)) && t < |c.l.accounts|
    ensures var c', o := Do(c, Run(t, weak)).c, Perform(c.m, Tick(t, weak));
      && |c'.caches| == |c.caches| && c'.m == o.m && c'.batch == c.batch
      && c'.caches[t] == Resume(c.caches[t], o.e, c.l.accounts[t].held)
  {
  }

  lemma ReleaseShape(c: State, t: nat, weak: bool)
    requires CInv(c) && Able(c, Run(t, weak)) && Possible(c, Run(t, weak)) && Unwrapped(c, Run(t, weak))
    requires Releases(c.m, Tick(t, weak))
    ensures var c' := Do(c, Run(t, weak)).c;
      && c'.caches == c.caches && c'.l == c.l && Released(c', t) && !Released(c, t) && c'.live == c.live
      && c'.batch == c.batch
      && t < |c.l.accounts| && Transferred(c.l.accounts[t], Shared(c.m, c.l), Shared(c'.m, c'.l))
  {
    ReleaseTransfers(c.m, c.l, Tick(t, weak));
    assert ThreadInv(c.m, c.l, t);
    LeaveQuietly(c.m, t, weak);
    assert c.caches[t := c.caches[t]] == c.caches;
  }

  lemma LeaveQuietly(m: Machine, t: nat, weak: bool)
    requires t < |m.threads| && m.threads[t].task.Leaving? && m.threads[t].pc.Between?
    ensures Perform(m, Tick(t, weak)).e == Silent
  {
  }

  /** The release of `pop_bulk` is the begin of a refill, that of `push_bulk` the
      end of a flush. */
  lemma ReleaseSimulated(c: State, a: TwoLevel.State, t: nat, weak: bool)
    requires CInv(c) && Able(c, Run(t, weak)) && Possible(c, Run(t, weak)) && Unwrapped(c, Run(t, weak))
      && Matches(c, a)
    requires Releases(c.m, Tick(t, weak))
    ensures Simulated(c, Run(t, weak), a,
      Some(if c.caches[t].step.Fetching? then TwoLevel.AllocBegin(t) else TwoLevel.DeallocEnd(t)))
  {
    assert CacheMatches(c, t, a.caches[t]) && CacheAt(c.batch, c.m, c.l, c.caches[t], t);
    ReleaseShape(c, t, weak);
    var y := if c.caches[t].step.Fetching? then TwoLevel.AllocBegin(t) else TwoLevel.DeallocEnd(t);
    OwnMatches(c, Run(t, weak), a, TwoLevel.Step(a, y).s, t);
  }

  lemma Simulates(c: State, x: Move, a: TwoLevel.State) returns (step: Option<TwoLevel.Action>)
    requires CInv(c) && Able(c, x) && Unwrapped(c, x) && Matches(c, a)
    ensures Possible(c, x) && Simulated(c, x, a, step)
  {
    AblePossible(c, x);
    match x
    case Alloc(t) =>
      if NeedsRefill(c, t) {
        FetchSimulated(c, a, t);
        step := None;
      } else {
        LocalSimulated(c, a, t);
        step := Some(TwoLevel.AllocBegin(t));
      }
    case Splice(t) =>
      SpliceSimulated(c, a, t);
      step := Some(TwoLevel.AllocEnd(t));
    case Free(t, b) =>
      FreeSimulated(c, a, t, b);
      step := Some(TwoLevel.DeallocBegin(t, b));
    case Cut(t) =>
      CutSimulated(c, a, t);
      step := None;
    case Send(t) =>
      SendSimulated(c, a, t);
      step := None;
    case Run(t, weak) =>
      if Releases(c.m, Tick(t, weak)) {
        ReleaseSimulated(c, a, t, weak);
        step := Some(if c.caches[t].step.Fetching? then TwoLevel.AllocBegin(t) else TwoLevel.DeallocEnd(t));
      } else {
        InsideSimulated(c, a, t, weak);
        step := None;
      }
    case Write(b, p) =>
      WriteSimulated(c, a, b, p);
      step := None;
  }

  // ------------------------------------------------------------------
  // Runs
  // ------------------------------------------------------------------

  predicate Runs(c: State, xs: seq<Move>)
    decreases |xs|
  {
    xs == [] || (Able(c, xs[0]) && Possible(c, xs[0]) && Unwrapped(c, xs[0]) && Runs(Do(c, xs[0]).c, xs[1..]))
  }

  function After(c: State, xs: seq<Move>): State
    requires Runs(c, xs)
    decreases |xs|
  {
    if xs == [] then c else After(Do(c, xs[0]).c, xs[1..])
  }

  function Results(c: State, xs: seq<Move>): seq<TwoLevel.Result>
    requires Runs(c, xs)
    decreases |xs|
  {
    if xs == [] then [] else [Do(c, xs[0]).r] + Results(Do(c, xs[0]).c, xs[1..])
  }

  /** What the clients see: the answers of `alloc` and the frees. */
  function External(rs: seq<TwoLevel.Result>): seq<TwoLevel.Result>
    decreases |rs|
  {
    if rs == [] then [] else (if rs[0].Internal? then [] else [rs[0]]) + External(rs[1..])
  }

  lemma {:induction false} RunSimulated(c: State, xs: seq<Move>, a: TwoLevel.State) returns (ys: seq<TwoLevel.Action>)
    requires CInv(c) && Matches(c, a) && Runs(c, xs)
    ensures CInv(After(c, xs)) && TwoLevel.Runs(a, ys) && Matches(After(c, xs), TwoLevel.After(a, ys))
    ensures External(Results(c, xs)) == External(TwoLevel.Results(a, ys))
    decreases |xs|
  {
    ys := [];
    if xs != [] {
      var c' := Do(c, xs[0]).c;
      var step := Simulates(c, xs[0], a);
      MoveKeeps(c, xs[0]);
      assert Results(c, xs)[1..] == Results(c', xs[1..]);
      if step.None? {
        ys := RunSimulated(c', xs[1..], a);
      } else {
        var zs := RunSimulated(c', xs[1..], TwoLevel.Step(a, step.value).s);
        ys := [step.value] + zs;
        StepFirst(a, step.value, zs);
      }
    }
  }

  lemma StepFirst(a: TwoLevel.State, y: TwoLevel.Action, zs: seq<TwoLevel.Action>)
    requires TwoLevel.Enabled(a, y) && TwoLevel.Runs(TwoLevel.Step(a, y).s, zs)
    ensures TwoLevel.Runs(a, [y] + zs)
    ensures TwoLevel.After(a, [y] + zs) == TwoLevel.After(TwoLevel.Step(a, y).s, zs)
    ensures TwoLevel.Results(a, [y] + zs) == [TwoLevel.Step(a, y).r] + TwoLevel.Results(TwoLevel.Step(a, y).s, zs)
  {
    assert ([y] + zs)[1..] == zs;
  }

  /** Caches without blocks over a stack on which no operation is in progress. */
  function Begin(batch: nat, m: Machine, l: Ledger): State {
    State(batch, m, l, seq(|m.threads|, _ => Cache([], Ready)), {})
  }

  predicate Quiescent(m: Machine) {
    m.lock.None? && forall t :: 0 <= t < |m.threads| ==> m.threads[t].task.Outside?
  }

  lemma BeginInv(batch: nat, m: Machine, l: Ledger)
    requires Inv(m, l) && Quiescent(m)
    ensures CInv(Begin(batch, m, l))
  {
  }

  /** A pool of the two-level model with `n` caches. */
  lemma {:induction false} Spawned(batch: nat, blocks: seq<Block>, n: nat) returns (ys: seq<TwoLevel.Action>)
    ensures var a := TwoLevel.Fresh(batch, blocks);
      && TwoLevel.Runs(a, ys) && External(TwoLevel.Results(a, ys)) == []
      && TwoLevel.After(a, ys) == a.(caches := seq(n, _ => TwoLevel.Cache([], TwoLevel.Resting, TwoLevel.NO_STATS)))
  {
    var a := TwoLevel.Fresh(batch, blocks);
    if n == 0 {
      ys := [];
    } else {
      ys := Spawned(batch, blocks, n - 1);
      var a', one := TwoLevel.After(a, ys), [TwoLevel.Spawn];
      assert one[1..] == [] && TwoLevel.Runs(a', one) && External(TwoLevel.Results(a', one)) == [];
      RunJoin(a, ys, one);
      ExternalJoin(TwoLevel.Results(a, ys), TwoLevel.Results(a', one));
      ys := ys + one;
    }
  }

  lemma {:induction false} RunJoin(a: TwoLevel.State, ys: seq<TwoLevel.Action>, zs: seq<TwoLevel.Action>)
    requires TwoLevel.Runs(a, ys) && TwoLevel.Runs(TwoLevel.After(a, ys), zs)
    ensures TwoLevel.Runs(a, ys + zs) && TwoLevel.After(a, ys + zs) == TwoLevel.After(TwoLevel.After(a, ys), zs)
    ensures TwoLevel.Results(a, ys + zs) == TwoLevel.Results(a, ys) + TwoLevel.Results(TwoLevel.After(a, ys), zs)
    decreases |ys|
  {
    if ys == [] {
      assert [] + zs == zs;
    } else {
      assert (ys + zs)[0] == ys[0] && (ys + zs)[1..] == ys[1..] + zs;
      RunJoin(TwoLevel.Step(a, ys[0]).s, ys[1..], zs);
    }
  }

  lemma {:induction false} ExternalJoin(rs: seq<TwoLevel.Result>, qs: seq<TwoLevel.Result>)
    ensures External(rs + qs) == External(rs) + External(qs)
    decreases |rs|
  {
    if rs == [] {
      assert rs + qs == qs;
    } else {
      assert (rs + qs)[1..] == rs[1..] + qs;
      ExternalJoin(rs[1..], qs);
    }
  }

  /** The cache code over the lock-free stack refines the two-level pool: for
      every run, from any reachable stack on which no operation is in progress,
      there is a run of the pool with the same answers and frees, and at its end
      the same shared list, local lists, batches in transit and live blocks. */
  lemma CachesOverStack(mem: map<Block, Ptr>, threads: nat, acts: seq<Action>, batch: nat, xs: seq<Move>)
    returns (ys: seq<TwoLevel.Action>)
    requires StackRuns.Runs(StackRuns.Fresh(mem, threads), acts)
      && StackRuns.Unwrapped(StackRuns.Fresh(mem, threads), acts)
    requires var s := StackRuns.After(StackRuns.Fresh(mem, threads), acts);
      Quiescent(s.m) && Runs(Begin(batch, s.m, s.l), xs)
    ensures var s := StackRuns.After(StackRuns.Fresh(mem, threads), acts);
      var c, a := Begin(batch, s.m, s.l), TwoLevel.Fresh(batch, s.l.stack);
      && Distinct(s.l.stack) && TwoLevel.Runs(a, ys)
      && Matches(After(c, xs), TwoLevel.After(a, ys))
      && External(Results(c, xs)) == External(TwoLevel.Results(a, ys))
  {
    StackRuns.FreshInv(mem, threads);
    StackRuns.RunKeeps(StackRuns.Fresh(mem, threads), acts);
    var s := StackRuns.After(StackRuns.Fresh(mem, threads), acts);
    var a := TwoLevel.Fresh(batch, s.l.stack);
    BeginInv(batch, s.m, s.l);
    var us := Spawned(batch, s.l.stack, |s.m.threads|);
    var zs := RunSimulated(Begin(batch, s.m, s.l), xs, TwoLevel.After(a, us));
    RunJoin(a, us, zs);
    ExternalJoin(TwoLevel.Results(a, us), TwoLevel.Results(TwoLevel.After(a, us), zs));
    ys := us + zs;
  }

  // ------------------------------------------------------------------
  // What the pool's theorems then say of the code
  // ------------------------------------------------------------------

  lemma {:induction false} PoolSeesExternal(all: set<Block>, live: set<Block>, rs: seq<TwoLevel.Result>)
    ensures TwoLevel.PoolRun(all, live, rs) == TwoLevel.PoolRun(all, live, External(rs))
    decreases |rs|
  {
    if rs != [] {
      var next := TwoLevel.PoolStep(all, live, rs[0]);
      if next.Some? {
        PoolSeesExternal(all, next.value, rs[1..]);
      }
      if rs[0].Internal? {
        assert External(rs) == External(rs[1..]);
      } else {
        assert External(rs) == [rs[0]] + External(rs[1..]);
        assert External(rs)[0] == rs[0] && External(rs)[1..] == External(rs[1..]);
      }
    }
  }

  /** Over the lock-free stack, with blocks freed by any thread: `alloc` hands out
      only blocks of the pool that are not live, `dealloc` ends the life of the
      freed block alone, and a cache at rest holds at most two batches. */
  lemma CodeRefinesPool(mem: map<Block, Ptr>, threads: nat, acts: seq<Action>, batch: nat, xs: seq<Move>)
    requires StackRuns.Runs(StackRuns.Fresh(mem, threads), acts)
      && StackRuns.Unwrapped(StackRuns.Fresh(mem, threads), acts)
    requires var s := StackRuns.After(StackRuns.Fresh(mem, threads), acts);
      Quiescent(s.m) && Runs(Begin(batch, s.m, s.l), xs)
    ensures var s := StackRuns.After(StackRuns.Fresh(mem, threads), acts);
      var c := Begin(batch, s.m, s.l);
      && TwoLevel.PoolRun(Elements(s.l.stack), {}, Results(c, xs)) == Some(After(c, xs).live)
      && forall t :: 0 <= t < |After(c, xs).caches| && After(c, xs).caches[t].step.Ready? ==>
           |After(c, xs).caches[t].local| <= 2 * batch
  {
    var s := StackRuns.After(StackRuns.Fresh(mem, threads), acts);
    var c, a := Begin(batch, s.m, s.l), TwoLevel.Fresh(batch, s.l.stack);
    var ys := CachesOverStack(mem, threads, acts, batch, xs);
    TwoLevel.RefinesPool(batch, s.l.stack, ys);
    PoolSeesExternal(Elements(s.l.stack), {}, Results(c, xs));
    PoolSeesExternal(Elements(s.l.stack), {}, TwoLevel.Results(a, ys));
    forall t | 0 <= t < |After(c, xs).caches| && After(c, xs).caches[t].step.Ready?
      ensures |After(c, xs).caches[t].local| <= 2 * batch
    {
      assert CacheMatches(After(c, xs), t, TwoLevel.After(a, ys).caches[t]);
      TwoLevel.CacheTheorem(batch, s.l.stack, ys, t);
    }
  }
}
