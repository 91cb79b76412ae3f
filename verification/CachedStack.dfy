/** The code of the thread caches running on the lock-free stack: every step is one
    access to shared memory or to the cache's own blocks. */
module CachedStack {
  import opened Options
  import opened Sequences
  import opened TaggedStack
  import TaggedStackBulk
  import CacheSpec
  import TwoLevel

  /** Where a cache stands inside `alloc` or `dealloc`. */
  datatype Step =
    | Ready
    | Fetching                      // in `pop_bulk`
    | Splicing(chain: seq<Block>)   // `pop_bulk` has returned this chain
    | Cutting                       // past the high watermark, the batch still in front
    | Sealed(batch: seq<Block>)     // the batch is cut off
    | Sending(batch: seq<Block>)    // in `push_bulk`

  datatype Cache = Cache(local: seq<Block>, step: Step)

  datatype State = State(batch: nat, m: Machine, l: Ledger, caches: seq<Cache>, live: set<Block>)

  datatype Move =
    | Alloc(t: nat)
    | Splice(t: nat)
    | Free(t: nat, b: Block)
    | Cut(t: nat)
    | Send(t: nat)
    | Run(t: nat, weak: bool)       // one step of the stack operation in progress
    | Write(b: Block, p: Ptr)       // a client writes into its block

  datatype Moved = Moved(c: State, r: TwoLevel.Result)

  predicate NeedsRefill(c: State, t: nat)
    requires t < |c.caches|
  {
    |c.caches[t].local| <= c.batch / 2
  }

  /** How many blocks a flush cuts off. */
  function Excess(c: State, t: nat): nat
    requires t < |c.caches|
  {
    if |c.caches[t].local| > c.batch then |c.caches[t].local| - c.batch else 0
  }

  /** The caller's side of a move: what the cache and the clients may do. */
  predicate Able(c: State, a: Move) {
    match a
    case Alloc(t) => t < |c.caches| && c.caches[t].step.Ready?
    case Splice(t) => t < |c.caches| && c.caches[t].step.Splicing?
    case Free(t, b) => t < |c.caches| && c.caches[t].step.Ready? && b in c.live
    case Cut(t) => t < |c.caches| && c.caches[t].step.Cutting?
    case Send(t) => t < |c.caches| && c.caches[t].step.Sealed?
    case Run(t, _) => t < |c.caches| && (c.caches[t].step.Fetching? || c.caches[t].step.Sending?)
    case Write(b, _) => b in c.live
  }

  /** The access to shared memory that a move makes, if any. */
  function Access(c: State, a: Move): Option<Action>
    requires Able(c, a)
  {
    match a
    case Alloc(t) => if NeedsRefill(c, t) then Some(Invoke(t, PopBulk(c.batch))) else None
    case Splice(t) =>
      var chain := c.caches[t].step.chain;
      if chain == [] then None else Some(Scribble(chain[|chain| - 1], First(c.caches[t].local)))
    case Free(t, b) => Some(Scribble(b, First(c.caches[t].local)))
    case Cut(t) => if Excess(c, t) == 0 then None else Some(Scribble(c.caches[t].local[Excess(c, t) - 1], Null))
    case Send(t) => Some(Invoke(t, PushBulk(c.caches[t].step.batch)))
    case Run(t, weak) => Some(Tick(t, weak))
    case Write(b, p) => Some(Scribble(b, p))
  }

  /** The stack machine can make the access. */
  predicate Possible(c: State, a: Move)
    requires Able(c, a)
  {
    Access(c, a).Some? ==> Enabled(c.m, c.l, Access(c, a).value)
  }

  /** Fewer than 2^64 head changes, as for the stack alone. */
  predicate Unwrapped(c: State, a: Move)
    requires Able(c, a)
  {
    Access(c, a).Some? ==> NoWrap(c.m, c.l, Access(c, a).value)
  }

  function Accessed(c: State, a: Move): State
    requires Able(c, a) && Possible(c, a)
  {
    match Access(c, a)
    case None => c
    case Some(x) => var o := Perform(c.m, x); c.(m := o.m, l := Record(c.l, o.e))
  }

  function SetCache(c: State, t: nat, cache: Cache): State
    requires t < |c.caches|
  {
    c.(caches := c.caches[t := cache])
  }

  /** The end of `alloc`: hand out the head of `all`, if there is one. */
  function HandOut(c: State, t: nat, all: seq<Block>): Moved
    requires t < |c.caches|
  {
    if all == [] then Moved(SetCache(c, t, Cache([], Ready)), TwoLevel.Granted(None))
    else Moved(SetCache(c, t, Cache(all[1..], Ready)).(live := c.live + {all[0]}), TwoLevel.Granted(Some(all[0])))
  }

  /** What the cache does when the stack operation makes a step: it goes on when
      the operation returns, with the chain that it returned. */
  function Resume(cache: Cache, e: Event, held: seq<Block>): Cache {
    if !e.Returned? then cache
    else if cache.step.Fetching? then cache.(step := Splicing(held))
    else cache.(step := Ready)
  }

  function Do(c: State, a: Move): Moved
    requires Able(c, a) && Possible(c, a)
  {
    var c' := Accessed(c, a);
    match a
    case Alloc(t) =>
      if NeedsRefill(c, t) then Moved(SetCache(c', t, c.caches[t].(step := Fetching)), TwoLevel.Internal)
      else HandOut(c', t, c.caches[t].local)
    case Splice(t) => HandOut(c', t, c.caches[t].step.chain + c.caches[t].local)
    case Free(t, b) =>
      var local := [b] + c.caches[t].local;
      Moved(SetCache(c', t, Cache(local, if |local| > 2 * c.batch then Cutting else Ready)).(live := c.live - {b}),
              TwoLevel.Freed(b))
    case Cut(t) =>
      var local, k := c.caches[t].local, Excess(c, t);
      Moved(SetCache(c', t, Cache(local[k..], Sealed(local[..k]))), TwoLevel.Internal)
    case Send(t) =>
      Moved(SetCache(c', t, c.caches[t].(step := Sending(c.caches[t].step.batch))), TwoLevel.Internal)
    case Run(t, weak) =>
      var held := if t < |c.l.accounts| then c.l.accounts[t].held else [];
      Moved(SetCache(c', t, Resume(c.caches[t], Perform(c.m, Tick(t, weak)).e, held)), TwoLevel.Internal)
    case Write(_, _) => Moved(c', TwoLevel.Internal)
  }
}
