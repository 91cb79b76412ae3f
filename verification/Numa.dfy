/** One pool per NUMA node: routing of frees by address, and what it means for
    every run that each node's lists only ever hold that node's blocks. */
module Numa {
  import opened Options
  import opened Regions
  import opened Sequences
  import CacheSpec
  import TwoLevel

  /** `owner_node`: the node whose region contains the pointer, else node 0. */
  function OwnerNode(cfg: Config, p: nat): nat {
    match FindRegion(cfg, p, 0)
    case None => 0
    case Some(r) => r
  }

  lemma BlockOwner(cfg: Config, n: nat, b: nat)
    requires Sound(cfg) && n < |cfg.bases| && b in BlocksOf(cfg, n)
    ensures OwnerNode(cfg, b) == n
  {
    var i :| 0 <= i < cfg.count && BlocksOf(cfg, n)[i] == b;
    BlockInside(cfg, n, i);
    FindRegionUnique(cfg, b, n);
  }

  // ------------------------------------------------------------------
  // All interleavings: every node is a two-level pool of its own
  // ------------------------------------------------------------------

  datatype State = State(nodes: seq<TwoLevel.State>)

  /** A step of an allocation or of the end of a free at a node the thread
      chose, or the start of a free, which goes where the address says. */
  datatype Action =
    | At(n: nat, a: TwoLevel.Action)
    | Free(t: nat, b: nat)

  predicate Owned(s: State, b: nat) {
    exists n :: 0 <= n < |s.nodes| && b in s.nodes[n].live
  }

  function Target(cfg: Config, a: Action): nat {
    match a
    case At(n, _) => n
    case Free(_, b) => OwnerNode(cfg, b)
  }

  function Local(a: Action): TwoLevel.Action {
    match a
    case At(_, x) => x
    case Free(t, b) => TwoLevel.DeallocBegin(t, b)
  }

  /** A client frees a block it owns, at whatever node it lives. */
  predicate Allowed(cfg: Config, s: State, a: Action) {
    match a
    case At(n, x) => n < |s.nodes| && !x.DeallocBegin? && TwoLevel.Enabled(s.nodes[n], x)
    case Free(t, b) =>
      var n := OwnerNode(cfg, b);
      Owned(s, b) && (n < |s.nodes| ==> t < |s.nodes[n].caches| && s.nodes[n].caches[t].phase.Resting?)
  }

  /** The step can be carried out at its target node. */
  predicate Feasible(cfg: Config, s: State, a: Action) {
    Target(cfg, a) < |s.nodes| && TwoLevel.Enabled(s.nodes[Target(cfg, a)], Local(a))
  }

  function Next(cfg: Config, s: State, a: Action): State
    requires Feasible(cfg, s, a)
  {
    var n := Target(cfg, a);
    State(s.nodes[n := TwoLevel.Step(s.nodes[n], Local(a)).s])
  }

  predicate Runs(cfg: Config, s: State, acts: seq<Action>)
    decreases |acts|
  {
    acts == [] || (Allowed(cfg, s, acts[0]) && Feasible(cfg, s, acts[0]) && Runs(cfg, Next(cfg, s, acts[0]), acts[1..]))
  }

  function After(cfg: Config, s: State, acts: seq<Action>): State
    requires Runs(cfg, s, acts)
    decreases |acts|
  {
    if acts == [] then s else After(cfg, Next(cfg, s, acts[0]), acts[1..])
  }

  function Fresh(cfg: Config, batch: nat): State {
    State(seq(|cfg.bases|, n requires 0 <= n < |cfg.bases| =>
                TwoLevel.Fresh(batch, CacheSpec.Reverse(BlocksOf(cfg, n)))))
  }

  /** Every node holds the blocks of its region, each once, and nothing else. */
  ghost predicate Homed(cfg: Config, s: State) {
    && |s.nodes| == |cfg.bases|
    && (forall n :: 0 <= n < |s.nodes| ==>
          TwoLevel.Once(s.nodes[n], Elements(BlocksOf(cfg, n))) && TwoLevel.CachesInv(s.nodes[n]))
  }

  lemma OnceMember(s: TwoLevel.State, all: set<nat>, b: nat)
    requires TwoLevel.Once(s, all) && b in s.live
    ensures b in all
  {
    assert TwoLevel.Total(s)[b] >= multiset(s.live)[b] >= 1;
  }

  /** A live block lives at the node that owns its address. */
  lemma LiveAtOwner(cfg: Config, s: State, n: nat, b: nat)
    requires Sound(cfg) && Homed(cfg, s) && n < |s.nodes| && b in s.nodes[n].live
    ensures OwnerNode(cfg, b) == n
  {
    OnceMember(s.nodes[n], Elements(BlocksOf(cfg, n)), b);
    BlockOwner(cfg, n, b);
  }

  lemma OwnedAtOwner(cfg: Config, s: State, b: nat)
    requires Sound(cfg) && Homed(cfg, s) && Owned(s, b)
    ensures OwnerNode(cfg, b) < |s.nodes| && b in s.nodes[OwnerNode(cfg, b)].live
  {
    var n :| 0 <= n < |s.nodes| && b in s.nodes[n].live;
    LiveAtOwner(cfg, s, n, b);
  }

  /** A free is always routed to the pool the block came from. */
  lemma FreeIsRouted(cfg: Config, s: State, a: Action)
    requires Sound(cfg) && Homed(cfg, s) && Allowed(cfg, s, a)
    ensures Feasible(cfg, s, a)
  {
    if a.Free? {
      OwnedAtOwner(cfg, s, a.b);
      LiveIsFeasible(cfg, s, a.t, a.b);
    }
  }

  lemma LiveIsFeasible(cfg: Config, s: State, t: nat, b: nat)
    requires Allowed(cfg, s, Free(t, b))
    requires OwnerNode(cfg, b) < |s.nodes| && b in s.nodes[OwnerNode(cfg, b)].live
    ensures Feasible(cfg, s, Free(t, b))
  {
  }

  lemma StepKeeps(cfg: Config, s: State, a: Action)
    requires Sound(cfg) && Homed(cfg, s) && Feasible(cfg, s, a)
    ensures Homed(cfg, Next(cfg, s, a))
  {
    var n := Target(cfg, a);
    TwoLevel.StepConserves(s.nodes[n], Elements(BlocksOf(cfg, n)), Local(a));
    TwoLevel.StepCaches(s.nodes[n], Local(a));
  }

  lemma FreshHomed(cfg: Config, batch: nat)
    requires Sound(cfg)
    ensures Homed(cfg, Fresh(cfg, batch))
  {
    forall n | 0 <= n < |cfg.bases|
      ensures TwoLevel.Once(Fresh(cfg, batch).nodes[n], Elements(BlocksOf(cfg, n)))
    {
      var blocks := BlocksOf(cfg, n);
      forall i, j | 0 <= i < j < |blocks| ensures blocks[i] != blocks[j] {
        BlocksDistinct(cfg, n, i, j);
      }
      TwoLevel.DistinctOnce(blocks);
      CacheSpec.ReverseMultiset(blocks);
    }
  }

  lemma {:induction false} RunKeeps(cfg: Config, s: State, acts: seq<Action>)
    requires Sound(cfg) && Homed(cfg, s) && Runs(cfg, s, acts)
    ensures Homed(cfg, After(cfg, s, acts))
    decreases |acts|
  {
    if acts != [] {
      StepKeeps(cfg, s, acts[0]);
      RunKeeps(cfg, Next(cfg, s, acts[0]), acts[1..]);
    }
  }

  /** In every run, node `n`'s shared list, caches, transfers and live blocks
      are together the blocks of region `n`, each once; and any client free is
      carried out at the node of the block's region. */
  lemma NodesKeepTheirBlocks(cfg: Config, batch: nat, acts: seq<Action>, n: nat, a: Action)
    requires Sound(cfg) && Runs(cfg, Fresh(cfg, batch), acts) && n < |cfg.bases|
    ensures var s := After(cfg, Fresh(cfg, batch), acts);
      && |s.nodes| == |cfg.bases|
      && TwoLevel.Total(s.nodes[n]) == multiset(BlocksOf(cfg, n))
      && (Allowed(cfg, s, a) ==> Feasible(cfg, s, a))
  {
    FreshHomed(cfg, batch);
    RunKeeps(cfg, Fresh(cfg, batch), acts);
    var s := After(cfg, Fresh(cfg, batch), acts);
    var blocks := BlocksOf(cfg, n);
    forall i, j | 0 <= i < j < |blocks| ensures blocks[i] != blocks[j] {
      BlocksDistinct(cfg, n, i, j);
    }
    TwoLevel.DistinctOnce(blocks);
    if Allowed(cfg, s, a) {
      FreeIsRouted(cfg, s, a);
    }
  }
}
