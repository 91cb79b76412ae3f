/** What the clients of the NUMA allocator see over every run: the blocks that calls
    answer and the blocks that are freed. */
module NumaAnswers {
  import opened Options
  import opened Sequences
  import opened Regions
  import opened NumaCalls
  import opened NumaCallRuns
  import TwoLevel
  import Numa

  /** The blocks that are live at some node. */
  function AllLive(s: State): set<nat> {
    set n, b | 0 <= n < |s.nodes| && b in s.nodes[n].live :: b
  }

  predicate IsBlock(cfg: Config, b: nat) {
    exists n :: 0 <= n < |cfg.bases| && b in BlocksOf(cfg, n)
  }

  /** The client's view: an answered block is one of the regions and was not live;
      a freed block was. */
  function ObserveOne(cfg: Config, live: set<nat>, a: Action, e: Event): Option<set<nat>> {
    if a.Free? then (if a.b in live && e.Quiet? then Some(live - {a.b}) else None)
    else
      match e
      case Answer(t, Some(b)) => if t == a.t && IsBlock(cfg, b) && b !in live then Some(live + {b}) else None
      case _ => Some(live)
  }

  function Observe(cfg: Config, s: State, acts: seq<Action>, live: set<nat>): Option<set<nat>>
    requires Runs(cfg, s, acts)
    decreases |acts|
  {
    if acts == [] then Some(live)
    else
      var next := ObserveOne(cfg, live, acts[0], Step(cfg, s, acts[0]).e);
      if next.None? then None else Observe(cfg, Next(cfg, s, acts[0]), acts[1..], next.value)
  }

  // ------------------------------------------------------------------
  // Live blocks, node by node
  // ------------------------------------------------------------------

  /** A live block is live at the node that owns it, and is one of its region. */
  lemma LiveOnce(cfg: Config, s: State, n: nat, b: nat)
    requires Inv(cfg, s) && n < |s.nodes| && b in s.nodes[n].live
    ensures Numa.OwnerNode(cfg, b) == n && n < |cfg.bases| && b in BlocksOf(cfg, n)
  {
    var nodes := Numa.State(s.nodes);
    Numa.LiveAtOwner(cfg, nodes, n, b);
    Numa.OnceMember(s.nodes[n], Elements(BlocksOf(cfg, n)), b);
  }

  /** The live blocks of node `n` become `live`, those of the others stay. */
  ghost predicate LiveAt(s: State, s': State, n: nat, live: set<nat>) {
    && n < |s.nodes| == |s'.nodes| && s'.nodes[n].live == live
    && forall m :: 0 <= m < |s.nodes| && m != n ==> s'.nodes[m].live == s.nodes[m].live
  }

  lemma LiveSets(s: State, s': State, n: nat, b: nat)
    requires n < |s.nodes| && LiveAt(s, s', n, s.nodes[n].live + {b})
    ensures AllLive(s') == AllLive(s) + {b}
  {
    forall x ensures x in AllLive(s') <==> x in AllLive(s) || x == b {
      if x in AllLive(s) {
        var m :| 0 <= m < |s.nodes| && x in s.nodes[m].live;
        assert x in s'.nodes[m].live;
      }
      if x in AllLive(s') {
        var m :| 0 <= m < |s'.nodes| && x in s'.nodes[m].live;
        assert m != n ==> x in s.nodes[m].live;
      }
      assert b in s'.nodes[n].live;
    }
  }

  lemma LiveGrows(cfg: Config, s: State, s': State, n: nat, b: nat)
    requires Inv(cfg, s) && Inv(cfg, s') && n < |s.nodes| && LiveAt(s, s', n, s.nodes[n].live + {b})
    requires b !in s.nodes[n].live
    ensures AllLive(s') == AllLive(s) + {b} && b !in AllLive(s) && IsBlock(cfg, b)
  {
    LiveOnce(cfg, s', n, b);
    LiveSets(s, s', n, b);
    forall m | 0 <= m < |s.nodes| ensures b !in s.nodes[m].live {
      if b in s.nodes[m].live {
        LiveOnce(cfg, s, m, b);
      }
    }
  }

  lemma LiveShrinks(cfg: Config, s: State, s': State, n: nat, b: nat)
    requires Inv(cfg, s) && n < |s.nodes| && LiveAt(s, s', n, s.nodes[n].live - {b}) && b in s.nodes[n].live
    ensures AllLive(s') == AllLive(s) - {b} && b in AllLive(s)
  {
    forall x ensures x in AllLive(s') <==> x in AllLive(s) && x != b {
      if x in AllLive(s) && x != b {
        var m :| 0 <= m < |s.nodes| && x in s.nodes[m].live;
        assert x in s'.nodes[m].live;
      }
      if x in AllLive(s') {
        var m :| 0 <= m < |s'.nodes| && x in s'.nodes[m].live;
        assert x in s.nodes[m].live;
        LiveOnce(cfg, s, m, x);
        LiveOnce(cfg, s, n, b);
      }
    }
  }

  lemma LiveSame(s: State, s': State)
    requires |s'.nodes| == |s.nodes| && forall m :: 0 <= m < |s.nodes| ==> s'.nodes[m].live == s.nodes[m].live
    ensures AllLive(s') == AllLive(s)
  {
    forall x ensures x in AllLive(s') <==> x in AllLive(s) {
      if x in AllLive(s) {
        var m :| 0 <= m < |s.nodes| && x in s.nodes[m].live;
        assert x in s'.nodes[m].live;
      }
      if x in AllLive(s') {
        var m :| 0 <= m < |s'.nodes| && x in s'.nodes[m].live;
        assert x in s.nodes[m].live;
      }
    }
  }

  // ------------------------------------------------------------------
  // Steps
  // ------------------------------------------------------------------

  lemma GetCacheLive(s: State, t: nat, n: nat)
    requires t < |s.threads| && n < |s.nodes|
    ensures var s' := GetCache(s, t, n);
      && |s'.nodes| == |s.nodes| && |s'.threads| == |s.threads|
      && (forall m :: 0 <= m < |s.nodes| ==> s'.nodes[m].live == s.nodes[m].live)
      && (forall m :: 0 <= m < |s.nodes| && m != n ==> s'.nodes[m] == s.nodes[m])
  {
  }

  /** A free ends the life of the block at the node that owns its address and
      concerns no other node; the block is in the cache of the thread there. */
  lemma {:induction false} FreeEffect(cfg: Config, s: State, t: nat, b: nat)
    requires Inv(cfg, s) && Able(s, Free(t, b)) && Possible(cfg, s, Free(t, b))
    ensures var s', n := Next(cfg, s, Free(t, b)), Numa.OwnerNode(cfg, b);
      && n < |s.nodes| && Step(cfg, s, Free(t, b)).e == Quiet && b in s.nodes[n].live
      && LiveAt(s, s', n, s.nodes[n].live - {b})
      && (forall m :: 0 <= m < |s.nodes| && m != n ==> s'.nodes[m] == s.nodes[m])
      && HasCache(s', t, n)
      && (b in CacheAt(s', t, n).local || b in TwoLevel.Transit(CacheAt(s', t, n)))
  {
    var n := Numa.OwnerNode(cfg, b);
    GetCacheHas(s, t, n);
    GetCacheLive(s, t, n);
    var s1 := GetCache(s, t, n);
    TwoLevelFree(s1.nodes[n], s1.threads[t].slots[n], b);
  }

  lemma TwoLevelFree(node: TwoLevel.State, k: nat, b: nat)
    requires TwoLevel.Enabled(node, TwoLevel.DeallocBegin(k, b))
    ensures var node' := TwoLevel.Step(node, TwoLevel.DeallocBegin(k, b)).s;
      && node'.live == node.live - {b} && k < |node'.caches|
      && (b in node'.caches[k].local || b in TwoLevel.Transit(node'.caches[k]))
  {
    var local := [b] + node.caches[k].local;
    assert local[0] == b;
    var j := if |local| > node.batch then |local| - node.batch else 0;
    assert local == local[..j] + local[j..];
  }

  /** One step at a cache of a node: the pool's step, with the blocks of the node. */
  lemma NodeLive(cfg: Config, s: State, n: nat, a: TwoLevel.Action)
    requires Inv(cfg, s) && n < |s.nodes| && TwoLevel.Enabled(s.nodes[n], a)
    ensures n < |cfg.bases|
    ensures var o := TwoLevel.Step(s.nodes[n], a);
      TwoLevel.PoolStep(Elements(BlocksOf(cfg, n)), s.nodes[n].live, o.r) == Some(o.s.live)
  {
    TwoLevel.StepConserves(s.nodes[n], Elements(BlocksOf(cfg, n)), a);
  }

  /** An attempt answers a block exactly when it takes one out of the lists of its
      node, and that block was not live. */
  lemma AttemptLive(cfg: Config, s: State, t: nat, n: nat)
    requires Inv(cfg, s) && HasCache(s, t, n) && s.threads[t].call.Trying? && !CacheAt(s, t, n).phase.Flushing?
    ensures var o := Attempt(s, t, n);
      && |o.s.nodes| == |s.nodes|
      && match o.e
         case Answer(u, Some(b)) => u == t && b !in s.nodes[n].live && LiveAt(s, o.s, n, s.nodes[n].live + {b})
         case Answer(_, None) => false
         case Quiet => LiveAt(s, o.s, n, s.nodes[n].live)
  {
    var k := s.threads[t].slots[n];
    var a := if CacheAt(s, t, n).phase.Resting? then TwoLevel.AllocBegin(k) else TwoLevel.AllocEnd(k);
    NodeLive(cfg, s, n, a);
    NotFreed(s.nodes[n], a);
  }

  lemma NotFreed(node: TwoLevel.State, a: TwoLevel.Action)
    requires TwoLevel.Enabled(node, a) && !a.DeallocBegin?
    ensures !TwoLevel.Step(node, a).r.Freed?
  {
  }

  lemma FlushLive(node: TwoLevel.State, k: nat)
    requires TwoLevel.Enabled(node, TwoLevel.DeallocEnd(k))
    ensures TwoLevel.Step(node, TwoLevel.DeallocEnd(k)).s.live == node.live
  {
  }

  lemma TryObserved(cfg: Config, s: State, t: nat)
    requires Inv(cfg, s) && Able(s, Go(t)) && Possible(cfg, s, Go(t))
    requires s.threads[t].call.Trying? && !Passing(s, s.threads[t].call)
    ensures ObserveOne(cfg, AllLive(s), Go(t), Step(cfg, s, Go(t)).e) == Some(AllLive(Next(cfg, s, Go(t))))
  {
    var n, s' := At(s.threads[t].call), Next(cfg, s, Go(t));
    StepKeeps(cfg, s, Go(t));
    GetCacheHas(s, t, n);
    GetCacheLive(s, t, n);
    GetCacheKeeps(cfg, s, t, n);
    var s1 := GetCache(s, t, n);
    LiveSame(s, s1);
    AttemptLive(cfg, s1, t, n);
    match Step(cfg, s, Go(t)).e
    case Answer(_, Some(b)) => LiveGrows(cfg, s1, s', n, b);
    case _ => LiveSame(s1, s');
  }

  lemma GoObserved(cfg: Config, s: State, t: nat)
    requires Inv(cfg, s) && Able(s, Go(t)) && Possible(cfg, s, Go(t))
    ensures ObserveOne(cfg, AllLive(s), Go(t), Step(cfg, s, Go(t)).e) == Some(AllLive(Next(cfg, s, Go(t))))
  {
    var call := s.threads[t].call;
    if call.Flushing? {
      FlushLive(s.nodes[call.n], s.threads[t].slots[call.n]);
      LiveSame(s, Next(cfg, s, Go(t)));
    } else if Passing(s, call) {
      LiveSame(s, Next(cfg, s, Go(t)));
    } else {
      TryObserved(cfg, s, t);
    }
  }

  lemma StepObserved(cfg: Config, s: State, a: Action)
    requires Inv(cfg, s) && Able(s, a) && Possible(cfg, s, a)
    ensures ObserveOne(cfg, AllLive(s), a, Step(cfg, s, a).e) == Some(AllLive(Next(cfg, s, a)))
  {
    match a
    case CallAlloc(t, _) => LiveSame(s, Next(cfg, s, a));
    case Free(t, b) =>
      FreeEffect(cfg, s, t, b);
      LiveShrinks(cfg, s, Next(cfg, s, a), Numa.OwnerNode(cfg, b), b);
    case Go(t) => GoObserved(cfg, s, t);
  }

  lemma {:induction false} RunObserved(cfg: Config, s: State, acts: seq<Action>)
    requires Inv(cfg, s) && Runs(cfg, s, acts)
    ensures Observe(cfg, s, acts, AllLive(s)) == Some(AllLive(After(cfg, s, acts)))
    decreases |acts|
  {
    if acts != [] {
      StepKeeps(cfg, s, acts[0]);
      StepObserved(cfg, s, acts[0]);
      RunObserved(cfg, Next(cfg, s, acts[0]), acts[1..]);
    }
  }

  /** In every run, judged by answered and freed blocks alone: a call answers a block
      of the regions that is not live, a freed block was live, and the blocks that
      are then live are those that are live at the nodes. */
  lemma AnswersNeverTwice(cfg: Config, batch: nat, threads: nat, acts: seq<Action>)
    requires Sound(cfg) && Runs(cfg, Fresh(cfg, batch, threads), acts)
    ensures var s := Fresh(cfg, batch, threads);
      Observe(cfg, s, acts, {}) == Some(AllLive(After(cfg, s, acts)))
  {
    var s := Fresh(cfg, batch, threads);
    FreshInv(cfg, batch, threads);
    assert AllLive(s) == {};
    RunObserved(cfg, s, acts);
  }

  /** In every run, the lists and transfers of node `n` and its live blocks are
      together the blocks of its region, each once. */
  lemma NodesConserve(cfg: Config, batch: nat, threads: nat, acts: seq<Action>, n: nat)
    requires Sound(cfg) && Runs(cfg, Fresh(cfg, batch, threads), acts) && n < |cfg.bases|
    ensures var s := After(cfg, Fresh(cfg, batch, threads), acts);
      && |s.nodes| == |cfg.bases|
      && multiset(s.nodes[n].global) + TwoLevel.Held(s.nodes[n].caches) + multiset(s.nodes[n].live)
           == multiset(Elements(BlocksOf(cfg, n)))
  {
    FreshInv(cfg, batch, threads);
    RunKeeps(cfg, Fresh(cfg, batch, threads), acts);
  }
}
