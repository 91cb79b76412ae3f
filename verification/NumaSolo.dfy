/** The interleaved calls of the NUMA allocator and the calls on values agree: a call
    whose steps are not interleaved with others does what `NumaSpec` says. */
module NumaSolo {
  import opened Options
  import opened Regions
  import opened NumaCalls
  import opened NumaCallRuns
  import CacheSpec
  import NumaSpec
  import TwoLevel
  import Numa
  import NumaAnswers

  /** The lists of node `n`: the shared one and those of the threads' caches. */
  function ViewAt(s: State, n: nat): CacheSpec.Pool<nat>
    requires n < |s.nodes|
  {
    CacheSpec.Pool(s.nodes[n].global, map t | 0 <= t < |s.threads| && HasCache(s, t, n) :: CacheAt(s, t, n).local)
  }

  function View(s: State): NumaSpec.Nodes<nat> { seq(|s.nodes|, n requires 0 <= n < |s.nodes| => ViewAt(s, n)) }

  // ------------------------------------------------------------------
  // Runs of one thread
  // ------------------------------------------------------------------

  predicate OnlyGo(acts: seq<Action>, t: nat) { forall i :: 0 <= i < |acts| ==> acts[i] == Go(t) }

  function Said(e: Event): seq<Event> { if e.Quiet? then [] else [e] }

  /** What the client is told in a run. */
  function Told(cfg: Config, s: State, acts: seq<Action>): seq<Event>
    requires Runs(cfg, s, acts)
    decreases |acts|
  {
    if acts == [] then []
    else
      Said(Step(cfg, s, acts[0]).e) + Told(cfg, Next(cfg, s, acts[0]), acts[1..])
  }

  ghost predicate Path(cfg: Config, s: State, t: nat, s': State, told: seq<Event>, acts: seq<Action>) {
    OnlyGo(acts, t) && Runs(cfg, s, acts) && After(cfg, s, acts) == s' && Told(cfg, s, acts) == told
  }

  /** Thread `t` alone takes `s` to `s'` and is told `told`. */
  ghost predicate Alone(cfg: Config, s: State, t: nat, s': State, told: seq<Event>) {
    exists acts :: Path(cfg, s, t, s', told, acts)
  }

  lemma AloneNone(cfg: Config, s: State, t: nat)
    ensures Alone(cfg, s, t, s, [])
  {
    assert Path(cfg, s, t, s, [], []);
  }

  lemma AloneStep(cfg: Config, s: State, t: nat, s': State, told: seq<Event>)
    requires Able(s, Go(t)) && Possible(cfg, s, Go(t)) && Alone(cfg, Next(cfg, s, Go(t)), t, s', told)
    ensures Alone(cfg, s, t, s', Said(Step(cfg, s, Go(t)).e) + told)
  {
    var s1 := Next(cfg, s, Go(t));
    var acts :| Path(cfg, s1, t, s', told, acts);
    var all := [Go(t)] + acts;
    assert all[0] == Go(t) && all[1..] == acts;
    assert OnlyGo(all, t) && Runs(cfg, s, all) && After(cfg, s, all) == s';
    assert Told(cfg, s, all) == Said(Step(cfg, s, Go(t)).e) + told;
    assert Path(cfg, s, t, s', Said(Step(cfg, s, Go(t)).e) + told, all);
  }

  /** As `Alone`, with at least one step. */
  ghost predicate Strictly(cfg: Config, s: State, t: nat, s': State, told: seq<Event>) {
    && Able(s, Go(t)) && Possible(cfg, s, Go(t))
    && exists rest :: Alone(cfg, Next(cfg, s, Go(t)), t, s', rest) && told == Said(Step(cfg, s, Go(t)).e) + rest
  }

  lemma StrictlyStep(cfg: Config, s: State, t: nat, s': State, rest: seq<Event>)
    requires Able(s, Go(t)) && Possible(cfg, s, Go(t)) && Alone(cfg, Next(cfg, s, Go(t)), t, s', rest)
    ensures Strictly(cfg, s, t, s', Said(Step(cfg, s, Go(t)).e) + rest)
    ensures rest == [] ==> Strictly(cfg, s, t, s', Said(Step(cfg, s, Go(t)).e))
    ensures Step(cfg, s, Go(t)).e == Quiet ==> Strictly(cfg, s, t, s', rest)
  {
    assert rest == [] ==> Said(Step(cfg, s, Go(t)).e) + rest == Said(Step(cfg, s, Go(t)).e);
    assert Step(cfg, s, Go(t)).e == Quiet ==> Said(Step(cfg, s, Go(t)).e) + rest == rest;
  }

  lemma StrictlyAlone(cfg: Config, s: State, t: nat, s': State, told: seq<Event>)
    requires Strictly(cfg, s, t, s', told)
    ensures Alone(cfg, s, t, s', told)
  {
    var rest :| Alone(cfg, Next(cfg, s, Go(t)), t, s', rest) && told == Said(Step(cfg, s, Go(t)).e) + rest;
    AloneStep(cfg, s, t, s', rest);
  }

  lemma {:induction false} RunsJoin(cfg: Config, s: State, xs: seq<Action>, ys: seq<Action>)
    requires Runs(cfg, s, xs) && Runs(cfg, After(cfg, s, xs), ys)
    ensures Runs(cfg, s, xs + ys)
    decreases |xs|
  {
    if xs == [] {
      assert xs + ys == ys;
    } else {
      assert (xs + ys)[0] == xs[0] && (xs + ys)[1..] == xs[1..] + ys;
      RunsJoin(cfg, Next(cfg, s, xs[0]), xs[1..], ys);
    }
  }

  lemma {:induction false} AfterJoin(cfg: Config, s: State, xs: seq<Action>, ys: seq<Action>)
    requires Runs(cfg, s, xs) && Runs(cfg, After(cfg, s, xs), ys) && Runs(cfg, s, xs + ys)
    ensures After(cfg, s, xs + ys) == After(cfg, After(cfg, s, xs), ys)
    decreases |xs|
  {
    if xs == [] {
      assert xs + ys == ys;
    } else {
      assert (xs + ys)[0] == xs[0] && (xs + ys)[1..] == xs[1..] + ys;
      AfterJoin(cfg, Next(cfg, s, xs[0]), xs[1..], ys);
    }
  }

  lemma {:induction false} ToldJoin(cfg: Config, s: State, xs: seq<Action>, ys: seq<Action>)
    requires Runs(cfg, s, xs) && Runs(cfg, After(cfg, s, xs), ys) && Runs(cfg, s, xs + ys)
    ensures Told(cfg, s, xs + ys) == Told(cfg, s, xs) + Told(cfg, After(cfg, s, xs), ys)
    decreases |xs|
  {
    if xs == [] {
      assert xs + ys == ys;
    } else {
      var s1 := Next(cfg, s, xs[0]);
      assert (xs + ys)[0] == xs[0] && (xs + ys)[1..] == xs[1..] + ys;
      ToldJoin(cfg, s1, xs[1..], ys);
      assert Told(cfg, s1, (xs + ys)[1..]) == Told(cfg, s1, xs[1..]) + Told(cfg, After(cfg, s, xs), ys);
    }
  }

  lemma AloneJoin(cfg: Config, s: State, t: nat, s1: State, s2: State, told1: seq<Event>, told2: seq<Event>)
    requires Alone(cfg, s, t, s1, told1) && Alone(cfg, s1, t, s2, told2)
    ensures Alone(cfg, s, t, s2, told1 + told2)
  {
    var xs :| Path(cfg, s, t, s1, told1, xs);
    var ys :| Path(cfg, s1, t, s2, told2, ys);
    RunsJoin(cfg, s, xs, ys);
    AfterJoin(cfg, s, xs, ys);
    ToldJoin(cfg, s, xs, ys);
    assert Path(cfg, s, t, s2, told1 + told2, xs + ys);
  }

  lemma AloneKeeps(cfg: Config, s: State, t: nat, s': State, told: seq<Event>)
    requires Inv(cfg, s) && Alone(cfg, s, t, s', told)
    ensures Inv(cfg, s')
  {
    var acts :| Path(cfg, s, t, s', told, acts);
    RunKeeps(cfg, s, acts);
  }

  // ------------------------------------------------------------------
  // Steps and views
  // ------------------------------------------------------------------

  /** Views with the same lists are the same. */
  lemma ViewIs(s: State, n: nat, p: CacheSpec.Pool<nat>)
    requires n < |s.nodes| && p.global == s.nodes[n].global
    requires forall u: nat :: u in p.caches <==> HasCache(s, u, n)
    requires forall u: nat :: HasCache(s, u, n) ==> p.caches[u] == CacheAt(s, u, n).local
    ensures ViewAt(s, n) == p
  {
    assert ViewAt(s, n).caches == p.caches;
  }

  /** Only the cache of thread `t` for node `n`, and the node's shared list, differ. */
  ghost predicate OnlyAt(s: State, s': State, t: nat, n: nat) {
    && |s'.nodes| == |s.nodes| && |s'.threads| == |s.threads| && n < |s.nodes|
    && (forall m :: 0 <= m < |s.nodes| && m != n ==> ViewAt(s', m) == ViewAt(s, m))
    && HasCache(s', t, n)
    && (forall u :: u != t ==> (HasCache(s', u, n) <==> HasCache(s, u, n)))
    && (forall u :: u != t && HasCache(s, u, n) ==> CacheAt(s', u, n).local == CacheAt(s, u, n).local)
  }

  lemma OnlyAtView(s: State, s': State, t: nat, n: nat)
    requires OnlyAt(s, s', t, n)
    ensures ViewAt(s', n) ==
      CacheSpec.Put(ViewAt(s, n), t, CacheSpec.Store(CacheAt(s', t, n).local, s'.nodes[n].global))
  {
    ViewIs(s', n, CacheSpec.Put(ViewAt(s, n), t, CacheSpec.Store(CacheAt(s', t, n).local, s'.nodes[n].global)));
  }

  lemma SameViewAt(s: State, s': State, m: nat)
    requires m < |s.nodes| == |s'.nodes| && s'.nodes[m].global == s.nodes[m].global
    requires forall u: nat :: HasCache(s', u, m) <==> HasCache(s, u, m)
    requires forall u: nat :: HasCache(s, u, m) ==> CacheAt(s', u, m).local == CacheAt(s, u, m).local
    ensures ViewAt(s', m) == ViewAt(s, m)
  {
    ViewIs(s', m, ViewAt(s, m));
  }

  lemma SpawnOnly(s: State, t: nat, n: nat)
    requires t < |s.threads| && n < |s.nodes| && n !in s.threads[t].slots
    requires forall u :: 0 <= u < |s.threads| ==> ThreadOk(s, u)
    ensures OnlyAt(s, GetCache(s, t, n), t, n)
  {
    var s' := GetCache(s, t, n);
    SpawnSame(s, t, n);
    forall u | 0 <= u < |s.threads| && u != t ensures HasCache(s', u, n) <==> HasCache(s, u, n) {
      assert ThreadOk(s, u);
    }
    forall m | 0 <= m < |s.nodes| && m != n ensures ViewAt(s', m) == ViewAt(s, m) {
      SameViewAt(s, s', m);
    }
  }

  lemma SpawnView(s: State, t: nat, n: nat)
    requires t < |s.threads| && n < |s.nodes| && n !in s.threads[t].slots
    ensures var s' := GetCache(s, t, n);
      && HasCache(s', t, n) && s'.nodes[n].global == s.nodes[n].global && s'.nodes[n].batch == s.nodes[n].batch
      && CacheAt(s', t, n).local == [] == CacheSpec.Local(ViewAt(s, n), t)
  {
  }

  lemma HadView(s: State, t: nat, n: nat)
    requires HasCache(s, t, n)
    ensures OnlyAt(s, s, t, n) && CacheAt(s, t, n).local == CacheSpec.Local(ViewAt(s, n), t)
  {
  }

  /** Getting a cache changes no list. */
  lemma GetCacheOnly(cfg: Config, s: State, t: nat, n: nat)
    requires Inv(cfg, s) && t < |s.threads| && n < |s.nodes|
    ensures var s' := GetCache(s, t, n);
      && OnlyAt(s, s', t, n) && s'.nodes[n].global == s.nodes[n].global && s'.nodes[n].batch == s.nodes[n].batch
      && CacheAt(s', t, n).local == CacheSpec.Local(ViewAt(s, n), t)
  {
    assert ThreadOk(s, t);
    if n !in s.threads[t].slots {
      SpawnOnly(s, t, n);
      SpawnView(s, t, n);
    } else {
      HadView(s, t, n);
    }
  }

  /** A step of thread `t` at its cache for node `n`. */
  lemma NodeOnly(cfg: Config, s: State, t: nat, n: nat, a: TwoLevel.Action, call: Call)
    requires Inv(cfg, s) && HasCache(s, t, n) && !a.Spawn? && a.t == s.threads[t].slots[n]
    requires TwoLevel.Enabled(s.nodes[n], a)
    ensures var s' := SetThread(s.(nodes := s.nodes[n := TwoLevel.Step(s.nodes[n], a).s]), t, call);
      && OnlyAt(s, s', t, n) && s'.nodes[n] == TwoLevel.Step(s.nodes[n], a).s
      && s'.threads[t] == Thread(call, s.threads[t].slots)
      && CacheAt(s', t, n) == TwoLevel.Step(s.nodes[n], a).s.caches[a.t]
  {
    var s' := SetThread(s.(nodes := s.nodes[n := TwoLevel.Step(s.nodes[n], a).s]), t, call);
    NodeSame(s, t, n, a, call);
    TwoLevel.StepShape(s.nodes[n], a);
    forall m | 0 <= m < |s.nodes| && m != n ensures ViewAt(s', m) == ViewAt(s, m) {
      SameViewAt(s, s', m);
    }
  }

  // ------------------------------------------------------------------
  // One attempt
  // ------------------------------------------------------------------

  /** What an attempt is told, and how the call goes on. */
  function ToldOf(t: nat, block: Option<nat>): seq<Event> {
    if block.Some? then [Answer(t, block)] else []
  }

  /** Thread `t` is about to begin an attempt at node `n`. */
  ghost predicate Attempting(cfg: Config, s: State, t: nat, n: nat) {
    && Inv(cfg, s) && t < |s.threads| && n < |s.nodes| && s.threads[t].call.Trying?
    && At(s.threads[t].call) == n && !Passing(s, s.threads[t].call)
    && (HasCache(s, t, n) ==> CacheAt(s, t, n).phase.Resting?)
  }

  /** Thread `t` is at an attempt with its cache for node `n`. */
  ghost predicate AtCache(cfg: Config, s: State, t: nat, n: nat) {
    && Inv(cfg, s) && HasCache(s, t, n) && s.threads[t].call.Trying?
    && At(s.threads[t].call) == n && !Passing(s, s.threads[t].call)
  }

  lemma NotFlushing(cfg: Config, s: State, t: nat, n: nat)
    requires AtCache(cfg, s, t, n)
    ensures !CacheAt(s, t, n).phase.Flushing?
  {
    assert ThreadOk(s, t);
  }

  lemma AttemptIsStep(cfg: Config, s: State, t: nat, n: nat)
    requires AtCache(cfg, s, t, n)
    ensures !CacheAt(s, t, n).phase.Flushing? && Able(s, Go(t)) && Possible(cfg, s, Go(t))
    ensures Step(cfg, s, Go(t)) == Attempt(s, t, n)
  {
    NotFlushing(cfg, s, t, n);
  }

  /** The node becomes `node`, the call `call`; nothing else changes. */
  ghost predicate Moved(s: State, s': State, t: nat, n: nat, node: TwoLevel.State, call: Call) {
    && OnlyAt(s, s', t, n) && s'.nodes[n] == node && t < |s.threads|
         && s'.threads[t] == Thread(call, s.threads[t].slots)
    && (forall m :: 0 <= m < |s.nodes| && m != n ==> s'.nodes[m] == s.nodes[m])
  }

  function AttemptAction(s: State, t: nat, n: nat): TwoLevel.Action
    requires HasCache(s, t, n)
  {
    var k := s.threads[t].slots[n];
    if CacheAt(s, t, n).phase.Resting? then TwoLevel.AllocBegin(k) else TwoLevel.AllocEnd(k)
  }

  lemma AttemptMoves(cfg: Config, s: State, t: nat, n: nat)
    requires AtCache(cfg, s, t, n)
    ensures TwoLevel.Enabled(s.nodes[n], AttemptAction(s, t, n))
    ensures var o := TwoLevel.Step(s.nodes[n], AttemptAction(s, t, n));
      && Able(s, Go(t)) && Possible(cfg, s, Go(t)) && Inv(cfg, Next(cfg, s, Go(t)))
      && Moved(s, Next(cfg, s, Go(t)), t, n, o.s, Continue(s.threads[t].call, o.r))
      && Said(Step(cfg, s, Go(t)).e) == (if o.r.Granted? then ToldOf(t, o.r.block) else [])
  {
    AttemptIsStep(cfg, s, t, n);
    var a := AttemptAction(s, t, n);
    NodeOnly(cfg, s, t, n, a, Continue(s.threads[t].call, TwoLevel.Step(s.nodes[n], a).r));
    AttemptKeeps(cfg, s, t, n);
    NumaAnswers.NotFreed(s.nodes[n], a);
  }

  lemma BeginShape(node: TwoLevel.State, k: nat)
    requires TwoLevel.Enabled(node, TwoLevel.AllocBegin(k))
    ensures var o := TwoLevel.Step(node, TwoLevel.AllocBegin(k));
      && k < |o.s.caches| && o.s.batch == node.batch
      && (if o.s.caches[k].phase.Resting? then o.r.Granted? && o.r.block.Some?
          else o.s.caches[k].phase.Refilling? && o.r.Internal?)
  {
  }

  lemma EndShape(node: TwoLevel.State, k: nat)
    requires TwoLevel.Enabled(node, TwoLevel.AllocEnd(k))
    ensures var o := TwoLevel.Step(node, TwoLevel.AllocEnd(k));
      k < |o.s.caches| && o.s.batch == node.batch && o.r.Granted? && o.s.caches[k].phase.Resting?
  {
  }

  /** The attempt has been made and took `block`, as on values. */
  ghost predicate Tried(s: State, s': State, t: nat, n: nat, block: Option<nat>) {
    && HasCache(s, t, n) && s.threads[t].call.Trying?
    && OnlyAt(s, s', t, n) && (forall m :: 0 <= m < |s.nodes| && m != n ==> s'.nodes[m] == s.nodes[m])
    && s'.nodes[n].batch == s.nodes[n].batch && CacheAt(s', t, n).phase.Resting?
    && s'.threads[t] == Thread(Continue(s.threads[t].call, TwoLevel.Granted(block)), s.threads[t].slots)
    && CacheSpec.Alloc(s.nodes[n].batch, CacheSpec.Store(CacheAt(s, t, n).local, s.nodes[n].global)) ==
         CacheSpec.Grant(block, CacheSpec.Store(CacheAt(s', t, n).local, s'.nodes[n].global))
  }

  lemma MovedTwice(s: State, s1: State, s2: State, t: nat, n: nat, x: TwoLevel.State, y: TwoLevel.State, c: Call,
    d: Call)
    requires Moved(s, s1, t, n, x, c) && Moved(s1, s2, t, n, y, d)
    ensures Moved(s, s2, t, n, y, d)
  {
  }

  lemma MovedTried(s: State, s': State, t: nat, n: nat, node: TwoLevel.State, block: Option<nat>)
    requires HasCache(s, t, n) && s.threads[t].call.Trying?
    requires Moved(s, s', t, n, node, Continue(s.threads[t].call, TwoLevel.Granted(block)))
    requires var k := s.threads[t].slots[n];
      && k < |node.caches| && node.caches[k].phase.Resting? && node.batch == s.nodes[n].batch
      && CacheSpec.Alloc(s.nodes[n].batch, CacheSpec.Store(s.nodes[n].caches[k].local, s.nodes[n].global)) ==
           CacheSpec.Grant(block, CacheSpec.Store(node.caches[k].local, node.global))
    ensures Tried(s, s', t, n, block)
  {
  }

  /** An attempt that needs no refill. */
  lemma DirectAlone(cfg: Config, s: State, t: nat, n: nat) returns (s': State, block: Option<nat>)
    requires AtCache(cfg, s, t, n) && CacheAt(s, t, n).phase.Resting?
    requires TwoLevel.Step(s.nodes[n], AttemptAction(s, t, n)).s.caches[s.threads[t].slots[n]].phase.Resting?
    ensures Strictly(cfg, s, t, s', ToldOf(t, block)) && Inv(cfg, s') && Tried(s, s', t, n, block)
  {
    var k := s.threads[t].slots[n];
    var o := TwoLevel.Step(s.nodes[n], TwoLevel.AllocBegin(k));
    AttemptMoves(cfg, s, t, n);
    BeginShape(s.nodes[n], k);
    TwoLevel.AllocAtomic(s.nodes[n], k);
    s', block := Next(cfg, s, Go(t)), o.r.block;
    MovedTried(s, s', t, n, o.s, block);
    AloneNone(cfg, s', t);
    StrictlyStep(cfg, s, t, s', []);
  }

  /** An attempt that refills. */
  lemma RefillAlone(cfg: Config, s: State, t: nat, n: nat) returns (s': State, block: Option<nat>)
    requires AtCache(cfg, s, t, n) && CacheAt(s, t, n).phase.Resting?
    requires !TwoLevel.Step(s.nodes[n], AttemptAction(s, t, n)).s.caches[s.threads[t].slots[n]].phase.Resting?
    ensures Strictly(cfg, s, t, s', ToldOf(t, block)) && Inv(cfg, s') && Tried(s, s', t, n, block)
  {
    var k, call := s.threads[t].slots[n], s.threads[t].call;
    var o := TwoLevel.Step(s.nodes[n], TwoLevel.AllocBegin(k));
    AttemptMoves(cfg, s, t, n);
    BeginShape(s.nodes[n], k);
    TwoLevel.AllocAtomic(s.nodes[n], k);
    var s1 := Next(cfg, s, Go(t));
    assert Moved(s, s1, t, n, o.s, call) && AtCache(cfg, s1, t, n);
    AttemptMoves(cfg, s1, t, n);
    EndShape(o.s, k);
    var o' := TwoLevel.Step(o.s, TwoLevel.AllocEnd(k));
    s', block := Next(cfg, s1, Go(t)), o'.r.block;
    MovedTwice(s, s1, s', t, n, o.s, o'.s, call, Continue(call, o'.r));
    MovedTried(s, s', t, n, o'.s, block);
    AloneNone(cfg, s', t);
    StrictlyStep(cfg, s1, t, s', []);
    StrictlyAlone(cfg, s1, t, s', ToldOf(t, block));
    StrictlyStep(cfg, s, t, s', ToldOf(t, block));
  }

  // ------------------------------------------------------------------
  // One attempt, with the cache got first
  // ------------------------------------------------------------------

  /** All caches of thread `t` are between operations. */
  ghost predicate AtRest(s: State, t: nat) {
    forall n: nat :: HasCache(s, t, n) ==> CacheAt(s, t, n).phase.Resting?
  }

  lemma GetCacheStep(cfg: Config, s: State, t: nat, n: nat)
    requires Attempting(cfg, s, t, n)
    ensures var s1 := GetCache(s, t, n);
      && AtCache(cfg, s1, t, n) && CacheAt(s1, t, n).phase.Resting? && s1.threads[t].call == s.threads[t].call
      && Able(s, Go(t)) && Possible(cfg, s, Go(t)) && Able(s1, Go(t)) && Possible(cfg, s1, Go(t))
      && Step(cfg, s, Go(t)) == Step(cfg, s1, Go(t))
  {
    assert ThreadOk(s, t);
    GetCacheHas(s, t, n);
    GetCacheKeeps(cfg, s, t, n);
    AttemptIsStep(cfg, GetCache(s, t, n), t, n);
  }

  lemma SameStart(cfg: Config, s: State, s1: State, t: nat, s': State, told: seq<Event>)
    requires Able(s, Go(t)) && Possible(cfg, s, Go(t)) && Able(s1, Go(t)) && Possible(cfg, s1, Go(t))
    requires Step(cfg, s, Go(t)) == Step(cfg, s1, Go(t)) && Strictly(cfg, s1, t, s', told)
    ensures Alone(cfg, s, t, s', told)
  {
    var rest :| Alone(cfg, Next(cfg, s1, Go(t)), t, s', rest) && told == Said(Step(cfg, s1, Go(t)).e) + rest;
    AloneStep(cfg, s, t, s', rest);
  }

  ghost predicate Batched(s: State, batch: nat) {
    forall n :: 0 <= n < |s.nodes| ==> s.nodes[n].batch == batch
  }

  lemma TriedView(s: State, s1: State, s': State, t: nat, n: nat, block: Option<nat>)
    requires OnlyAt(s, s1, t, n) && Tried(s1, s', t, n, block)
    requires CacheAt(s1, t, n).local == CacheSpec.Local(ViewAt(s, n), t) && s1.nodes[n].global == s.nodes[n].global
    ensures NumaSpec.AllocAt(s1.nodes[n].batch, View(s), t, n) == NumaSpec.Answer(block, View(s'))
  {
    var p, batch := ViewAt(s, n), s1.nodes[n].batch;
    OnlyAtView(s, s1, t, n);
    OnlyAtView(s1, s', t, n);
    CacheSpec.GetThenAlloc(batch, p, t);
    assert CacheSpec.AllocIn(batch, p, t) == CacheSpec.PoolGrant(block, ViewAt(s', n));
    assert View(s') == View(s)[n := ViewAt(s', n)];
  }

  lemma CachedAlone(cfg: Config, s: State, t: nat, n: nat) returns (s': State, block: Option<nat>)
    requires AtCache(cfg, s, t, n) && CacheAt(s, t, n).phase.Resting?
    ensures Strictly(cfg, s, t, s', ToldOf(t, block)) && Inv(cfg, s') && Tried(s, s', t, n, block)
  {
    BeginShape(s.nodes[n], s.threads[t].slots[n]);
    if TwoLevel.Step(s.nodes[n], AttemptAction(s, t, n)).s.caches[s.threads[t].slots[n]].phase.Resting? {
      s', block := DirectAlone(cfg, s, t, n);
    } else {
      s', block := RefillAlone(cfg, s, t, n);
    }
  }

  /** An attempt at node `n` by a thread that runs alone. */
  lemma AttemptAlone(cfg: Config, s: State, t: nat, n: nat) returns (s': State, block: Option<nat>)
    requires Attempting(cfg, s, t, n)
    ensures Alone(cfg, s, t, s', ToldOf(t, block)) && Inv(cfg, s') && Tried(GetCache(s, t, n), s', t, n, block)
    ensures NumaSpec.AllocAt(s.nodes[n].batch, View(s), t, n) == NumaSpec.Answer(block, View(s'))
  {
    var s1 := GetCache(s, t, n);
    GetCacheStep(cfg, s, t, n);
    GetCacheOnly(cfg, s, t, n);
    s', block := CachedAlone(cfg, s1, t, n);
    SameStart(cfg, s, s1, t, s', ToldOf(t, block));
    TriedView(s, s1, s', t, n, block);
  }

  lemma TriedRests(s: State, t: nat, n: nat, s': State, block: Option<nat>, batch: nat)
    requires t < |s.threads| && n < |s.nodes| && (n in s.threads[t].slots ==> HasCache(s, t, n))
    requires AtRest(s, t) && Batched(s, batch) && Tried(GetCache(s, t, n), s', t, n, block)
    ensures s.threads[t].call.Trying? && AtRest(s', t) && Batched(s', batch) && |s'.nodes| == |s.nodes|
    ensures t < |s'.threads| && s'.threads[t].call == Continue(s.threads[t].call, TwoLevel.Granted(block))
  {
    GetCacheHas(s, t, n);
    var s1 := GetCache(s, t, n);
    forall m: nat | HasCache(s', t, m) ensures CacheAt(s', t, m).phase.Resting? {
      if m != n {
        assert HasCache(s1, t, m) && HasCache(s, t, m) && CacheAt(s', t, m) == CacheAt(s, t, m);
      }
    }
  }

  // ------------------------------------------------------------------
  // Whole calls
  // ------------------------------------------------------------------

  lemma CallOnlyView(s: State, t: nat, call: Call)
    requires t < |s.threads|
    ensures View(SetThread(s, t, call)) == View(s)
  {
    var s' := SetThread(s, t, call);
    forall m | 0 <= m < |s.nodes| ensures ViewAt(s', m) == ViewAt(s, m) {
      SameViewAt(s, s', m);
    }
  }

  /** Thread `t` is in the fallback loop at node `k`, alone. */
  ghost predicate Looping(s: State, t: nat, batch: nat, chosen: nat, k: nat) {
    && t < |s.threads| && s.threads[t].call == Trying(chosen, Some(k)) && k <= |s.nodes|
    && AtRest(s, t) && Batched(s, batch)
  }

  /** The call has ended with the answer and the lists of `a`. */
  ghost predicate Ended(cfg: Config, s: State, s': State, t: nat, a: NumaSpec.Answer<nat>) {
    && Alone(cfg, s, t, s', [Answer(t, a.block)])
    && View(s') == a.nodes && t < |s'.threads| && s'.threads[t].call.Idle?
  }

  lemma LoopEnds(cfg: Config, s: State, t: nat, batch: nat, chosen: nat) returns (s': State)
    requires Inv(cfg, s) && Looping(s, t, batch, chosen, |s.nodes|)
    ensures Ended(cfg, s, s', t, NumaSpec.Answer(None, View(s)))
  {
    s' := Next(cfg, s, Go(t));
    StepKeeps(cfg, s, Go(t));
    CallOnlyView(s, t, Idle);
    AloneNone(cfg, s', t);
    AloneStep(cfg, s, t, s', []);
    assert Said(Answer(t, None)) + [] == [Answer(t, None)];
  }

  lemma LoopSkips(cfg: Config, s: State, t: nat, batch: nat, chosen: nat, a: NumaSpec.Answer<nat>) returns (s': State)
    requires Inv(cfg, s) && Looping(s, t, batch, chosen, chosen) && chosen < |s.nodes|
    requires a == NumaSpec.AllocFrom(batch, View(s), t, chosen, chosen)
    ensures Turned(cfg, s, s', t, batch, chosen, chosen + 1, a, false)
  {
    Skip(batch, View(s), t, chosen);
    s' := Next(cfg, s, Go(t));
    StepKeeps(cfg, s, Go(t));
    SkipStep(cfg, s, t, chosen);
    CallOnlyView(s, t, Trying(chosen, Some(chosen + 1)));
    CallOnlyRests(s, t, Trying(chosen, Some(chosen + 1)));
  }

  lemma SkipStep(cfg: Config, s: State, t: nat, chosen: nat)
    requires Able(s, Go(t)) && Possible(cfg, s, Go(t)) && s.threads[t].call == Trying(chosen, Some(chosen))
    requires chosen < |s.nodes|
    ensures Step(cfg, s, Go(t)) == Outcome(SetThread(s, t, Trying(chosen, Some(chosen + 1))), Quiet)
    ensures Alone(cfg, s, t, Next(cfg, s, Go(t)), [])
  {
    AloneNone(cfg, Next(cfg, s, Go(t)), t);
    AloneStep(cfg, s, t, Next(cfg, s, Go(t)), []);
  }

  lemma CallOnlyRests(s: State, t: nat, call: Call)
    requires t < |s.threads| && AtRest(s, t)
    ensures AtRest(SetThread(s, t, call), t)
  {
    var s' := SetThread(s, t, call);
    assert forall n: nat :: HasCache(s', t, n) ==> HasCache(s, t, n) && CacheAt(s', t, n) == CacheAt(s, t, n);
  }

  lemma EndedLater(cfg: Config, s: State, s1: State, s': State, t: nat, a: NumaSpec.Answer<nat>)
    requires Alone(cfg, s, t, s1, []) && Ended(cfg, s1, s', t, a)
    ensures Ended(cfg, s, s', t, a)
  {
    AloneJoin(cfg, s, t, s1, s', [], [Answer(t, a.block)]);
    assert [] + [Answer(t, a.block)] == [Answer(t, a.block)];
  }

  lemma LoopAttempts(cfg: Config, s: State, t: nat, batch: nat, chosen: nat, k: nat)
    requires Inv(cfg, s) && Looping(s, t, batch, chosen, k) && k != chosen && k < |s.nodes|
    ensures Attempting(cfg, s, t, k) && AtRest(s, t) && Batched(s, batch)
    ensures Continue(s.threads[t].call, TwoLevel.Granted(None)) == Trying(chosen, Some(k + 1))
  {
  }

  lemma Skip(batch: nat, nodes: NumaSpec.Nodes<nat>, t: nat, chosen: nat)
    requires chosen < |nodes|
    ensures NumaSpec.AllocFrom(batch, nodes, t, chosen, chosen) ==
      NumaSpec.AllocFrom(batch, nodes, t, chosen, chosen + 1)
  {
  }

  lemma Turn(batch: nat, nodes: NumaSpec.Nodes<nat>, t: nat, chosen: nat, k: nat)
    requires k < |nodes| && k != chosen
    ensures var a := NumaSpec.AllocAt(batch, nodes, t, k);
      && |a.nodes| == |nodes|
      && NumaSpec.AllocFrom(batch, nodes, t, chosen, k) ==
           (if a.block.Some? then a else NumaSpec.AllocFrom(batch, a.nodes, t, chosen, k + 1))
  {
  }

  /** The fallback loop. */
  lemma {:induction false} LoopAlone(cfg: Config, s: State, t: nat, batch: nat, chosen: nat, k: nat,
                                     a: NumaSpec.Answer<nat>) returns (s': State)
    requires Inv(cfg, s) && Looping(s, t, batch, chosen, k) && a == NumaSpec.AllocFrom(batch, View(s), t, chosen, k)
    ensures Ended(cfg, s, s', t, a)
    decreases |s.nodes| - k
  {
    if k == |s.nodes| {
      s' := LoopEnds(cfg, s, t, batch, chosen);
    } else {
      var s1, ended := LoopTurn(cfg, s, t, batch, chosen, k, a);
      if ended {
        s' := s1;
      } else {
        AloneKeeps(cfg, s, t, s1, []);
        s' := LoopAlone(cfg, s1, t, batch, chosen, k + 1, a);
        EndedLater(cfg, s, s1, s', t, a);
      }
    }
  }

  /** After one turn of the loop the call has ended with `a`, or `a` is still to come. */
  ghost predicate Turned(cfg: Config, s: State, s': State, t: nat, batch: nat, chosen: nat, next: nat,
                         a: NumaSpec.Answer<nat>, ended: bool) {
    if ended then Ended(cfg, s, s', t, a)
    else
      && Alone(cfg, s, t, s', []) && |s'.nodes| == |s.nodes| && Looping(s', t, batch, chosen, next)
      && a == NumaSpec.AllocFrom(batch, View(s'), t, chosen, next)
  }

  lemma LoopTurn(cfg: Config, s: State, t: nat, batch: nat, chosen: nat, k: nat, a: NumaSpec.Answer<nat>)
    returns (s': State, ended: bool)
    requires Inv(cfg, s) && Looping(s, t, batch, chosen, k) && k < |s.nodes|
    requires a == NumaSpec.AllocFrom(batch, View(s), t, chosen, k)
    ensures Turned(cfg, s, s', t, batch, chosen, k + 1, a, ended)
  {
    if k == chosen {
      ended := false;
      s' := LoopSkips(cfg, s, t, batch, chosen, a);
    } else {
      s', ended := LoopTries(cfg, s, t, batch, chosen, k, a);
    }
  }

  lemma LoopTries(cfg: Config, s: State, t: nat, batch: nat, chosen: nat, k: nat, a: NumaSpec.Answer<nat>)
    returns (s': State, ended: bool)
    requires Inv(cfg, s) && Looping(s, t, batch, chosen, k) && k != chosen && k < |s.nodes|
    requires a == NumaSpec.AllocFrom(batch, View(s), t, chosen, k)
    ensures Turned(cfg, s, s', t, batch, chosen, k + 1, a, ended)
  {
    LoopAttempts(cfg, s, t, batch, chosen, k);
    Turn(batch, View(s), t, chosen, k);
    var block;
    s', block := TryAlone(cfg, s, t, batch, k, chosen, k + 1);
    ended := block.Some?;
  }

  /** The attempt at node `n` has been made; its result is `block`. */
  ghost predicate Went(cfg: Config, s: State, s': State, t: nat, batch: nat, n: nat, block: Option<nat>) {
    && t < |s.threads| && n < |s.nodes| && s.threads[t].call.Trying?
    && Alone(cfg, s, t, s', ToldOf(t, block)) && AtRest(s', t) && Batched(s', batch)
    && |s'.nodes| == |s.nodes| && t < |s'.threads|
    && s'.threads[t].call == Continue(s.threads[t].call, TwoLevel.Granted(block))
    && NumaSpec.AllocAt(batch, View(s), t, n) == NumaSpec.Answer(block, View(s'))
  }

  lemma WentWell(cfg: Config, s: State, s': State, t: nat, batch: nat, n: nat, block: Option<nat>)
    requires Went(cfg, s, s', t, batch, n, block) && block.Some?
    ensures Ended(cfg, s, s', t, NumaSpec.AllocAt(batch, View(s), t, n))
  {
    assert ToldOf(t, block) == [Answer(t, block)] && Alone(cfg, s, t, s', [Answer(t, block)]);
  }

  lemma WentOn(cfg: Config, s: State, s': State, t: nat, batch: nat, n: nat, chosen: nat, next: nat)
    requires Went(cfg, s, s', t, batch, n, None) && next <= |s.nodes|
    requires Continue(s.threads[t].call, TwoLevel.Granted(None)) == Trying(chosen, Some(next))
    ensures Alone(cfg, s, t, s', []) && |s'.nodes| == |s.nodes| && Looping(s', t, batch, chosen, next)
    ensures NumaSpec.AllocAt(batch, View(s), t, n) == NumaSpec.Answer(None, View(s'))
  {
    assert ToldOf(t, None) == [] && Alone(cfg, s, t, s', []);
  }

  lemma GoOnce(cfg: Config, s: State, t: nat, batch: nat, n: nat) returns (s': State, block: Option<nat>)
    requires Attempting(cfg, s, t, n) && AtRest(s, t) && Batched(s, batch)
    ensures Went(cfg, s, s', t, batch, n, block)
  {
    s', block := AttemptAlone(cfg, s, t, n);
    assert ThreadOk(s, t);
    TriedRests(s, t, n, s', block, batch);
  }

  /** An attempt, after which the call has ended or is in the loop at `next`. */
  lemma TryAlone(cfg: Config, s: State, t: nat, batch: nat, n: nat, chosen: nat, next: nat)
    returns (s': State, block: Option<nat>)
    requires Attempting(cfg, s, t, n) && AtRest(s, t) && Batched(s, batch) && next <= |s.nodes|
    requires Continue(s.threads[t].call, TwoLevel.Granted(None)) == Trying(chosen, Some(next))
    ensures NumaSpec.AllocAt(batch, View(s), t, n) == NumaSpec.Answer(block, View(s'))
    ensures block.Some? ==> Ended(cfg, s, s', t, NumaSpec.AllocAt(batch, View(s), t, n))
    ensures block.None? ==>
      Alone(cfg, s, t, s', []) && |s'.nodes| == |s.nodes| && Looping(s', t, batch, chosen, next)
  {
    s', block := GoOnce(cfg, s, t, batch, n);
    if block.Some? {
      WentWell(cfg, s, s', t, batch, n, block);
    } else {
      WentOn(cfg, s, s', t, batch, n, chosen, next);
    }
  }

  lemma IdleRests(cfg: Config, s: State, t: nat, current: nat)
    requires Inv(cfg, s) && Able(s, CallAlloc(t, current))
    ensures var s1, n := Next(cfg, s, CallAlloc(t, current)), NumaSpec.Chosen(|s.nodes|, current);
      && Possible(cfg, s, CallAlloc(t, current))
      && AtRest(s1, t) && Attempting(cfg, s1, t, n) && |s1.nodes| == |s.nodes| && View(s1) == View(s)
      && s1.nodes == s.nodes && s1.threads[t].call == Trying(n, None)
  {
    StepKeeps(cfg, s, CallAlloc(t, current));
    var n := NumaSpec.Chosen(|s.nodes|, current);
    CallOnlyView(s, t, Trying(n, None));
    assert ThreadOk(s, t);
  }

  /** `alloc` on a thread that runs on node `current`, from its start to its answer. */
  lemma AllocAlone(cfg: Config, s: State, t: nat, batch: nat, current: nat) returns (s': State)
    requires Inv(cfg, s) && Able(s, CallAlloc(t, current)) && Batched(s, batch)
    ensures Possible(cfg, s, CallAlloc(t, current))
    ensures Ended(cfg, Next(cfg, s, CallAlloc(t, current)), s', t, NumaSpec.AllocOn(batch, View(s), t, current))
  {
    var n := NumaSpec.Chosen(|s.nodes|, current);
    IdleRests(cfg, s, t, current);
    var s1 := Next(cfg, s, CallAlloc(t, current));
    var s2, block := TryAlone(cfg, s1, t, batch, n, n, 0);
    if block.Some? {
      s' := s2;
    } else {
      AloneKeeps(cfg, s1, t, s2, []);
      s' := LoopAlone(cfg, s2, t, batch, n, 0, NumaSpec.AllocFrom(batch, View(s2), t, n, 0));
      EndedLater(cfg, s1, s2, s', t, NumaSpec.AllocFrom(batch, View(s2), t, n, 0));
    }
  }

  // ------------------------------------------------------------------
  // Frees
  // ------------------------------------------------------------------

  /** The call that a free leaves: the batch is to be flushed, or it has ended. */
  function FreeCall(n: nat, node: TwoLevel.State, k: nat): Call
    requires k < |node.caches|
  {
    if node.caches[k].phase.Flushing? then Flushing(n) else Idle
  }

  lemma FreeReady(cfg: Config, s: State, t: nat, b: nat)
    requires Inv(cfg, s) && Able(s, Free(t, b)) && Possible(cfg, s, Free(t, b))
    ensures var n := Numa.OwnerNode(cfg, b);
      && n < |s.nodes| && Inv(cfg, GetCache(s, t, n)) && HasCache(GetCache(s, t, n), t, n)
      && CacheAt(GetCache(s, t, n), t, n).phase.Resting? && b in GetCache(s, t, n).nodes[n].live
  {
    var n := Numa.OwnerNode(cfg, b);
    GetCacheHas(s, t, n);
    GetCacheKeeps(cfg, s, t, n);
  }

  /** The step of a free in two parts: the cache is got, and the block put into it. */
  lemma FreeStep(cfg: Config, s: State, t: nat, b: nat, n: nat, s1: State, k: nat)
    requires Able(s, Free(t, b)) && Possible(cfg, s, Free(t, b)) && n == Numa.OwnerNode(cfg, b)
    requires s1 == GetCache(s, t, n) && HasCache(s1, t, n) && k == s1.threads[t].slots[n]
    requires TwoLevel.Enabled(s1.nodes[n], TwoLevel.DeallocBegin(k, b))
    ensures var node := TwoLevel.Step(s1.nodes[n], TwoLevel.DeallocBegin(k, b)).s;
      && k < |node.caches|
      && Next(cfg, s, Free(t, b)) == SetThread(s1.(nodes := s1.nodes[n := node]), t, FreeCall(n, node, k))
  {
  }

  lemma FreeNode(cfg: Config, s: State, t: nat, n: nat, b: nat)
    requires Inv(cfg, s) && HasCache(s, t, n) && CacheAt(s, t, n).phase.Resting? && b in s.nodes[n].live
    ensures var k := s.threads[t].slots[n];
      var node := TwoLevel.Step(s.nodes[n], TwoLevel.DeallocBegin(k, b)).s;
      && k < |node.caches|
      && Moved(s, SetThread(s.(nodes := s.nodes[n := node]), t, FreeCall(n, node, k)), t, n, node, FreeCall(n, node, k))
  {
    var k := s.threads[t].slots[n];
    FreeShape(s.nodes[n], k, b);
    NodeOnly(cfg, s, t, n, TwoLevel.DeallocBegin(k, b),
             FreeCall(n, TwoLevel.Step(s.nodes[n], TwoLevel.DeallocBegin(k, b)).s, k));
  }

  lemma FreeShape(node: TwoLevel.State, k: nat, b: nat)
    requires TwoLevel.Enabled(node, TwoLevel.DeallocBegin(k, b))
    ensures var node' := TwoLevel.Step(node, TwoLevel.DeallocBegin(k, b)).s;
      k < |node'.caches| && node'.batch == node.batch && !node'.caches[k].phase.Refilling?
  {
  }

  lemma FlushMoves(cfg: Config, s: State, t: nat, n: nat)
    requires Inv(cfg, s) && t < |s.threads| && s.threads[t].call == Flushing(n)
    ensures HasCache(s, t, n) && TwoLevel.Enabled(s.nodes[n], TwoLevel.DeallocEnd(s.threads[t].slots[n]))
    ensures Able(s, Go(t)) && Possible(cfg, s, Go(t)) && Inv(cfg, Next(cfg, s, Go(t)))
    ensures var node := TwoLevel.Step(s.nodes[n], TwoLevel.DeallocEnd(s.threads[t].slots[n])).s;
      Moved(s, Next(cfg, s, Go(t)), t, n, node, Idle) && Alone(cfg, s, t, Next(cfg, s, Go(t)), [])
  {
    StepKeeps(cfg, s, Go(t));
    NodeOnly(cfg, s, t, n, TwoLevel.DeallocEnd(s.threads[t].slots[n]), Idle);
    AloneNone(cfg, Next(cfg, s, Go(t)), t);
    AloneStep(cfg, s, t, Next(cfg, s, Go(t)), []);
  }

  lemma FreeMoves(cfg: Config, s: State, t: nat, b: nat)
    requires Inv(cfg, s) && Able(s, Free(t, b))
    ensures Possible(cfg, s, Free(t, b)) && Inv(cfg, Next(cfg, s, Free(t, b)))
    ensures var n := Numa.OwnerNode(cfg, b);
      && n < |s.nodes|
      && var s1 := GetCache(s, t, n);
      && HasCache(s1, t, n) && TwoLevel.Enabled(s1.nodes[n], TwoLevel.DeallocBegin(s1.threads[t].slots[n], b))
      && var node := TwoLevel.Step(s1.nodes[n], TwoLevel.DeallocBegin(s1.threads[t].slots[n], b)).s;
      && s1.threads[t].slots[n] < |node.caches|
      && Moved(s1, Next(cfg, s, Free(t, b)), t, n, node, FreeCall(n, node, s1.threads[t].slots[n]))
  {
    StepKeeps(cfg, s, Free(t, b));
    FreeReady(cfg, s, t, b);
    var n := Numa.OwnerNode(cfg, b);
    var s1 := GetCache(s, t, n);
    FreeNode(cfg, s1, t, n, b);
    FreeStep(cfg, s, t, b, n, s1, s1.threads[t].slots[n]);
  }

  /** The lists of node `n` are those after a `dealloc` on values. */
  lemma FreedView(s: State, s1: State, s': State, t: nat, n: nat, b: nat, node: TwoLevel.State, call: Call)
    requires OnlyAt(s, s1, t, n) && Moved(s1, s', t, n, node, call)
    requires CacheAt(s1, t, n).local == CacheSpec.Local(ViewAt(s, n), t) && s1.nodes[n].global == s.nodes[n].global
    requires var k := s1.threads[t].slots[n];
      && k < |node.caches|
      && CacheSpec.Dealloc(s1.nodes[n].batch, CacheSpec.Store(s1.nodes[n].caches[k].local, s1.nodes[n].global), b)
         == CacheSpec.Store(node.caches[k].local, node.global)
    ensures View(s') == NumaSpec.DeallocAt(s1.nodes[n].batch, View(s), t, n, Some(b))
  {
    var p, batch := ViewAt(s, n), s1.nodes[n].batch;
    OnlyAtView(s, s1, t, n);
    OnlyAtView(s1, s', t, n);
    CacheSpec.GetThenDealloc(batch, p, t, b);
    assert ViewAt(s', n) == CacheSpec.DeallocIn(batch, p, t, Some(b));
    assert View(s') == View(s)[n := ViewAt(s', n)];
  }

  /** `dealloc`, from its start to its end. */
  lemma DeallocAlone(cfg: Config, s: State, t: nat, batch: nat, b: nat) returns (s': State)
    requires Inv(cfg, s) && Able(s, Free(t, b)) && Batched(s, batch)
    ensures Possible(cfg, s, Free(t, b)) && Alone(cfg, Next(cfg, s, Free(t, b)), t, s', []) && Inv(cfg, s')
    ensures var n := Numa.OwnerNode(cfg, b);
      n < |s.nodes| && View(s') == NumaSpec.DeallocAt(batch, View(s), t, n, Some(b))
    ensures t < |s'.threads| && s'.threads[t].call.Idle?
  {
    FreeMoves(cfg, s, t, b);
    var n := Numa.OwnerNode(cfg, b);
    GetCacheOnly(cfg, s, t, n);
    var s1 := GetCache(s, t, n);
    var k, s2 := s1.threads[t].slots[n], Next(cfg, s, Free(t, b));
    var node := TwoLevel.Step(s1.nodes[n], TwoLevel.DeallocBegin(k, b)).s;
    TwoLevel.DeallocAtomic(s1.nodes[n], k, b);
    FreeShape(s1.nodes[n], k, b);
    if FreeCall(n, node, k).Idle? {
      s' := s2;
      AloneNone(cfg, s', t);
      FreedView(s, s1, s', t, n, b, node, Idle);
    } else {
      FlushMoves(cfg, s2, t, n);
      s' := Next(cfg, s2, Go(t));
      var node' := TwoLevel.Step(node, TwoLevel.DeallocEnd(k)).s;
      MovedTwice(s1, s2, s', t, n, node, node', Flushing(n), Idle);
      FreedView(s, s1, s', t, n, b, node', Idle);
    }
  }
}
