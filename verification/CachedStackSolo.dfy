/** A thread that runs alone finishes its `alloc` or `dealloc` over the lock-free
    stack, and a whole call so run does what `CacheSpec` says. */
module CachedStackSolo {
  import opened Options
  import opened Sequences
  import opened TaggedStack
  import opened TaggedStackBulk
  import opened TaggedStackShared
  import opened CachedStack
  import opened CachedStackInv
  import opened CachedStackRuns
  import StackRuns = TaggedStackRuns
  import StackSolo = TaggedStackSolo
  import CacheSpec
  import TwoLevel

  /** A move of thread `t` in its call; compare-exchanges do not fail spuriously. */
  predicate Own(x: Move, t: nat) {
    x == Splice(t) || x == Cut(t) || x == Send(t) || x == Run(t, false)
  }

  predicate OnlyOwn(xs: seq<Move>, t: nat) { forall i :: 0 <= i < |xs| ==> Own(xs[i], t) }

  ghost predicate Path(c: State, t: nat, c': State, told: seq<TwoLevel.Result>, xs: seq<Move>) {
    OnlyOwn(xs, t) && Runs(c, xs) && After(c, xs) == c' && External(Results(c, xs)) == told
  }

  /** Thread `t` alone takes `c` to `c'`; `told` is what the client sees. */
  ghost predicate Alone(c: State, t: nat, c': State, told: seq<TwoLevel.Result>) {
    exists xs :: Path(c, t, c', told, xs)
  }

  function Said(r: TwoLevel.Result): seq<TwoLevel.Result> { if r.Internal? then [] else [r] }

  lemma AloneNone(c: State, t: nat)
    ensures Alone(c, t, c, [])
  {
    assert Path(c, t, c, [], []);
  }

  lemma PathStep(c: State, t: nat, x: Move, c': State, told: seq<TwoLevel.Result>, xs: seq<Move>)
    requires Own(x, t) && Able(c, x) && Possible(c, x) && Unwrapped(c, x) && Path(Do(c, x).c, t, c', told, xs)
    ensures Path(c, t, c', Said(Do(c, x).r) + told, [x] + xs)
  {
    var all := [x] + xs;
    assert all[0] == x && all[1..] == xs;
    assert Results(c, all)[1..] == Results(Do(c, x).c, xs);
  }

  lemma AloneStep(c: State, t: nat, x: Move, c': State, told: seq<TwoLevel.Result>)
    requires Own(x, t) && Able(c, x) && Possible(c, x) && Unwrapped(c, x) && Alone(Do(c, x).c, t, c', told)
    ensures Alone(c, t, c', Said(Do(c, x).r) + told)
  {
    var xs :| Path(Do(c, x).c, t, c', told, xs);
    PathStep(c, t, x, c', told, xs);
  }

  lemma AloneQuietly(c: State, t: nat, x: Move, c': State, told: seq<TwoLevel.Result>)
    requires Own(x, t) && Able(c, x) && Possible(c, x) && Unwrapped(c, x) && Alone(Do(c, x).c, t, c', told)
    requires Do(c, x).r.Internal?
    ensures Alone(c, t, c', told)
  {
    AloneStep(c, t, x, c', told);
    assert Said(Do(c, x).r) + told == told;
  }

  lemma AloneLast(c: State, t: nat, x: Move)
    requires Own(x, t) && Able(c, x) && Possible(c, x) && Unwrapped(c, x)
    ensures Alone(c, t, Do(c, x).c, Said(Do(c, x).r))
  {
    AloneNone(Do(c, x).c, t);
    AloneStep(c, t, x, Do(c, x).c, []);
    assert Said(Do(c, x).r) + [] == Said(Do(c, x).r);
  }

  // ------------------------------------------------------------------
  // What is left of a call
  // ------------------------------------------------------------------

  predicate InStack(step: Step) { step.Fetching? || step.Sending? }

  /** Thread `t` is in a call and no other thread holds the lock. */
  ghost predicate Busy(c: State, t: nat) {
    && CInv(c) && t < |c.caches| && StackSolo.Without(c.m.lock, t) == None
    && (InStack(c.caches[t].step) ==> StackSolo.Going(StackRuns.State(c.m, c.l), t))
  }

  /** The rest of an `alloc` of cache `t`. */
  function RestOfAlloc(a: TwoLevel.State, t: nat): TwoLevel.Outcome
    requires t < |a.caches| && !a.caches[t].phase.Flushing?
  {
    if a.caches[t].phase.Refilling? then TwoLevel.Step(a, TwoLevel.AllocEnd(t))
    else
      var o := TwoLevel.Step(a, TwoLevel.AllocBegin(t));
      if o.s.caches[t].phase.Refilling? then TwoLevel.Step(o.s, TwoLevel.AllocEnd(t)) else o
  }

  /** The rest of a `dealloc`. */
  function RestOfFree(a: TwoLevel.State, t: nat): TwoLevel.State
    requires t < |a.caches|
  {
    if a.caches[t].phase.Flushing? then TwoLevel.Step(a, TwoLevel.DeallocEnd(t)).s else a
  }

  /** A step inside the stack operation. */
  lemma RunOnward(c: State, t: nat)
    requires Busy(c, t) && InStack(c.caches[t].step) && !Released(c, t)
    ensures var x := Run(t, false);
      && Able(c, x) && Possible(c, x) && Unwrapped(c, x) && Do(c, x).r.Internal?
      && Busy(Do(c, x).c, t) && Do(c, x).c.caches == c.caches && Do(c, x).c.batch == c.batch
      && t < |c.l.accounts| && t < |Do(c, x).c.l.accounts|
      && StackSolo.Nearer(c.l.accounts[t], c.m.threads[t], c.m.head,
           Do(c, x).c.l.accounts[t], Do(c, x).c.m.threads[t], Do(c, x).c.m.head)
  {
    StackSolo.TickOnward(StackRuns.State(c.m, c.l), t);
    MoveKeeps(c, Run(t, false));
    RunAccess(c, t);
  }

  /** The stack machine makes its step; the cache waits for the return. */
  lemma RunAccess(c: State, t: nat)
    requires Able(c, Run(t, false)) && Possible(c, Run(t, false)) && !Perform(c.m, Tick(t, false)).e.Returned?
    ensures var o := Perform(c.m, Tick(t, false));
      Do(c, Run(t, false)) == Moved(c.(m := o.m, l := Record(c.l, o.e)), TwoLevel.Internal)
  {
    assert c.caches[t := c.caches[t]] == c.caches;
  }

  /** The return of the stack operation. */
  lemma RunReturns(c: State, t: nat)
    requires Busy(c, t) && InStack(c.caches[t].step) && Released(c, t)
    ensures var x := Run(t, false);
      && Able(c, x) && Possible(c, x) && Unwrapped(c, x) && Do(c, x).r.Internal?
      && Busy(Do(c, x).c, t) && Do(c, x).c.caches == c.caches[t := Do(c, x).c.caches[t]] && Do(c, x).c.batch == c.batch
      && (c.caches[t].step.Fetching? ==> Do(c, x).c.caches[t].step.Splicing?)
      && (c.caches[t].step.Sending? ==> Do(c, x).c.caches[t].step.Ready?)
  {
    var x := Run(t, false);
    assert ThreadInv(c.m, c.l, t);
    MoveKeeps(c, x);
  }

  /** What is left of the call of cache `t` is the same at `a` and `a'`. */
  ghost predicate SameRest(a: TwoLevel.State, a': TwoLevel.State, t: nat, fetching: bool) {
    && t < |a.caches| == |a'.caches|
    && if fetching
       then !a.caches[t].phase.Flushing? && !a'.caches[t].phase.Flushing? && RestOfAlloc(a, t) == RestOfAlloc(a', t)
       else RestOfFree(a, t) == RestOfFree(a', t)
  }

  lemma ReleaseRest(a: TwoLevel.State, t: nat, fetching: bool)
    requires t < |a.caches|
    requires if fetching then a.caches[t].phase.Resting? && |a.caches[t].local| <= a.batch / 2
      else a.caches[t].phase.Flushing?
    ensures var a' := TwoLevel.Step(a, if fetching then TwoLevel.AllocBegin(t) else TwoLevel.DeallocEnd(t)).s;
      SameRest(a, a', t, fetching)
  {
  }

  /** A step inside the stack operation, as a step of the two-level pool or none. */
  lemma RunSimulatedBy(c: State, a: TwoLevel.State, t: nat) returns (a': TwoLevel.State)
    requires Busy(c, t) && InStack(c.caches[t].step) && Matches(c, a)
    requires Able(c, Run(t, false)) && Possible(c, Run(t, false)) && Unwrapped(c, Run(t, false))
    ensures Matches(Do(c, Run(t, false)).c, a') && SameRest(a, a', t, c.caches[t].step.Fetching?)
  {
    assert CacheMatches(c, t, a.caches[t]) && CacheAt(c.batch, c.m, c.l, c.caches[t], t);
    a' := a;
    if Releases(c.m, Tick(t, false)) {
      var fetching := c.caches[t].step.Fetching?;
      ReleaseSimulated(c, a, t, false);
      ReleaseRest(a, t, fetching);
      a' := TwoLevel.Step(a, if fetching then TwoLevel.AllocBegin(t) else TwoLevel.DeallocEnd(t)).s;
    } else {
      InsideSimulated(c, a, t, false);
    }
  }

  lemma SameRestTrans(a: TwoLevel.State, a1: TwoLevel.State, a2: TwoLevel.State, t: nat, fetching: bool)
    requires SameRest(a, a1, t, fetching) && SameRest(a1, a2, t, fetching)
    ensures SameRest(a, a2, t, fetching)
  {
  }

  /** The stack operation inside a call, to its return. */
  lemma {:induction false} StackAlone(c: State, a: TwoLevel.State, t: nat) returns (c': State, a': TwoLevel.State)
    requires Busy(c, t) && InStack(c.caches[t].step) && Matches(c, a)
    ensures Alone(c, t, c', []) && Busy(c', t) && Matches(c', a') && SameRest(a, a', t, c.caches[t].step.Fetching?)
    ensures |c'.caches| == |c.caches| && c'.caches == c.caches[t := c'.caches[t]] && c'.batch == c.batch
    ensures if c.caches[t].step.Fetching? then c'.caches[t].step.Splicing? else c'.caches[t].step.Ready?
    decreases StackSolo.Work(c.l.accounts[t]), StackSolo.Stage(c.m.threads[t].task),
      StackSolo.Turns(c.m.threads[t].pc, c.m.head)
  {
    var x := Run(t, false);
    if Released(c, t) {
      RunReturns(c, t);
      a' := RunSimulatedBy(c, a, t);
      c' := Do(c, x).c;
      AloneNone(c', t);
    } else {
      RunOnward(c, t);
      var a1 := RunSimulatedBy(c, a, t);
      var c1 := Do(c, x).c;
      c', a' := StackAlone(c1, a1, t);
      SameRestTrans(a, a1, a', t, c.caches[t].step.Fetching?);
    }
    AloneQuietly(c, t, x, c', []);
  }

  // ------------------------------------------------------------------
  // Whole calls
  // ------------------------------------------------------------------

  /** Thread `t` has made its call `x`; it then ends, having told the client `told`. */
  ghost predicate Called(c: State, t: nat, x: Move, c': State, told: seq<TwoLevel.Result>) {
    && Able(c, x) && Possible(c, x) && Unwrapped(c, x)
    && (exists rest :: Alone(Do(c, x).c, t, c', rest) && Said(Do(c, x).r) + rest == told)
  }

  /** Only the cache of thread `t` differs, and it is between operations. */
  ghost predicate OnlyCache(c: State, c': State, t: nat) {
    && t < |c.caches| == |c'.caches| && c'.batch == c.batch
    && c'.caches == c.caches[t := c'.caches[t]] && c'.caches[t].step.Ready? && c'.m.lock == None
  }

  lemma CalledBy(c: State, t: nat, x: Move, c': State, rest: seq<TwoLevel.Result>)
    requires Able(c, x) && Possible(c, x) && Unwrapped(c, x) && Alone(Do(c, x).c, t, c', rest)
    ensures Called(c, t, x, c', Said(Do(c, x).r) + rest)
    ensures rest == [] ==> Called(c, t, x, c', Said(Do(c, x).r))
    ensures Do(c, x).r.Internal? ==> Called(c, t, x, c', rest)
  {
    var r := Do(c, x).r;
    assert rest == [] ==> Said(r) + rest == Said(r);
    assert r.Internal? ==> Said(r) + rest == rest;
  }

  /** The access of a call or a move outside the stack operation leaves the lock. */
  lemma MoveLock(c: State, x: Move)
    requires Able(c, x) && Possible(c, x) && !x.Run?
    ensures Do(c, x).c.m.lock == c.m.lock && Do(c, x).c.batch == c.batch
    ensures !x.Write? ==>
      |Do(c, x).c.caches| == |c.caches| && Do(c, x).c.caches == c.caches[x.t := Do(c, x).c.caches[x.t]]
  {
  }

  /** A thread outside the stack operation does not hold the lock. */
  lemma NoLock(c: State, t: nat)
    requires CInv(c) && t < |c.caches| && !InStack(c.caches[t].step)
    requires StackSolo.Without(c.m.lock, t) == None
    ensures c.m.lock == None
  {
    assert CacheAt(c.batch, c.m, c.l, c.caches[t], t);
  }

  /** The call of the stack operation. */
  lemma InvokeGoing(c: State, t: nat, x: Move, op: Op)
    requires Able(c, x) && Possible(c, x) && !x.Write? && x.t == t && Access(c, x) == Some(Invoke(t, op))
    requires CInv(Do(c, x).c) && c.m.lock == None && (op.PopBulk? || op.PushBulk?)
    ensures StackSolo.Going(StackRuns.State(Do(c, x).c.m, Do(c, x).c.l), t)
  {
    var c' := Do(c, x).c;
    assert c'.m.threads[t] == Start(op) && c'.m.lock == None;
    StackSolo.StartGoing(StackRuns.State(c'.m, c'.l), t, op);
  }

  lemma SpliceAlone(c: State, a: TwoLevel.State, t: nat) returns (c': State)
    requires Busy(c, t) && c.caches[t].step.Splicing? && Matches(c, a)
    ensures t < |a.caches| && a.caches[t].phase.Refilling?
    ensures Alone(c, t, c', [RestOfAlloc(a, t).r]) && OnlyCache(c, c', t) && Matches(c', RestOfAlloc(a, t).s)
  {
    var x := Splice(t);
    MoveKeeps(c, x);
    MoveLock(c, x);
    NoLock(c, t);
    assert CacheMatches(c, t, a.caches[t]);
    SpliceSimulated(c, a, t);
    c' := Do(c, x).c;
    AloneLast(c, t, x);
  }

  /** `alloc`, as what is left of it at the begin. */
  lemma AllocCall(c: State, a: TwoLevel.State, t: nat) returns (c': State)
    requires CInv(c) && Able(c, Alloc(t)) && Matches(c, a) && c.m.lock == None
    ensures t < |a.caches| && a.caches[t].phase.Resting?
    ensures Called(c, t, Alloc(t), c', [RestOfAlloc(a, t).r]) && OnlyCache(c, c', t)
    ensures Matches(c', RestOfAlloc(a, t).s)
  {
    var x := Alloc(t);
    MoveKeeps(c, x);
    MoveLock(c, x);
    assert CacheMatches(c, t, a.caches[t]);
    var c1 := Do(c, x).c;
    if NeedsRefill(c, t) {
      c' := RefillCall(c, a, t);
    } else {
      LocalSimulated(c, a, t);
      c' := c1;
      AloneNone(c', t);
      CalledBy(c, t, x, c', []);
    }
  }

  /** The call of `pop_bulk`. */
  lemma RefillBegins(c: State, a: TwoLevel.State, t: nat)
    requires CInv(c) && Able(c, Alloc(t)) && Matches(c, a) && c.m.lock == None && NeedsRefill(c, t)
    ensures Possible(c, Alloc(t)) && Unwrapped(c, Alloc(t))
    ensures var c' := Do(c, Alloc(t)).c;
      && Do(c, Alloc(t)).r.Internal? && Busy(c', t) && Matches(c', a) && c'.caches[t].step.Fetching?
      && |c'.caches| == |c.caches| && c'.caches == c.caches[t := c'.caches[t]] && c'.batch == c.batch
  {
    MoveKeeps(c, Alloc(t));
    MoveLock(c, Alloc(t));
    FetchSimulated(c, a, t);
    InvokeGoing(c, t, Alloc(t), PopBulk(c.batch));
  }

  /** `pop_bulk` and what follows it. */
  lemma FetchAlone(c: State, a: TwoLevel.State, t: nat) returns (c': State)
    requires Busy(c, t) && c.caches[t].step.Fetching? && Matches(c, a)
    ensures t < |a.caches| && !a.caches[t].phase.Flushing?
    ensures Alone(c, t, c', [RestOfAlloc(a, t).r]) && OnlyCache(c, c', t) && Matches(c', RestOfAlloc(a, t).s)
  {
    var c1, a1 := StackAlone(c, a, t);
    c' := SpliceAlone(c1, a1, t);
    AloneJoin(c, t, c1, c', [RestOfAlloc(a1, t).r]);
  }

  lemma RefillCall(c: State, a: TwoLevel.State, t: nat) returns (c': State)
    requires CInv(c) && Able(c, Alloc(t)) && Matches(c, a) && c.m.lock == None && NeedsRefill(c, t)
    requires t < |a.caches| && a.caches[t].phase.Resting?
    ensures Called(c, t, Alloc(t), c', [RestOfAlloc(a, t).r]) && OnlyCache(c, c', t)
    ensures Matches(c', RestOfAlloc(a, t).s)
  {
    RefillBegins(c, a, t);
    c' := FetchAlone(Do(c, Alloc(t)).c, a, t);
    CalledBy(c, t, Alloc(t), c', [RestOfAlloc(a, t).r]);
  }

  lemma PathTail(c: State, t: nat, c': State, xs: seq<Move>)
    requires Path(c, t, c', [], xs) && xs != []
    ensures Own(xs[0], t) && Able(c, xs[0]) && Possible(c, xs[0]) && Unwrapped(c, xs[0]) && Do(c, xs[0]).r.Internal?
    ensures Path(Do(c, xs[0]).c, t, c', [], xs[1..])
  {
    assert Results(c, xs)[1..] == Results(Do(c, xs[0]).c, xs[1..]);
  }

  lemma {:induction false} PathJoin(c: State, t: nat, c1: State, c': State, told: seq<TwoLevel.Result>, xs: seq<Move>,
                                    ys: seq<Move>)
    requires Path(c, t, c1, [], xs) && Path(c1, t, c', told, ys)
    ensures Path(c, t, c', told, xs + ys)
    decreases |xs|
  {
    if xs == [] {
      assert c1 == c;
      assert xs + ys == ys;
      assert Path(c, t, c', told, xs + ys);
    } else {
      assert xs[1..] + ys == (xs + ys)[1..];
      PathTail(c, t, c1, xs);
      PathJoin(Do(c, xs[0]).c, t, c1, c', told, xs[1..], ys);
      PathBefore(c, t, c', told, xs + ys, xs[1..] + ys);
    }
  }

  lemma PathBefore(c: State, t: nat, c': State, told: seq<TwoLevel.Result>, xs: seq<Move>, rest: seq<Move>)
    requires |xs| > 0 && xs[1..] == rest
    requires Own(xs[0], t) && Able(c, xs[0]) && Possible(c, xs[0]) && Unwrapped(c, xs[0]) && Do(c, xs[0]).r.Internal?
    requires Path(Do(c, xs[0]).c, t, c', told, rest)
    ensures Path(c, t, c', told, xs)
  {
    PathStep(c, t, xs[0], c', told, rest);
    assert Said(Do(c, xs[0]).r) + told == told && [xs[0]] + rest == xs;
  }

  lemma AloneJoin(c: State, t: nat, c1: State, c': State, told: seq<TwoLevel.Result>)
    requires Alone(c, t, c1, []) && Alone(c1, t, c', told)
    ensures Alone(c, t, c', told)
  {
    var xs :| Path(c, t, c1, [], xs);
    var ys :| Path(c1, t, c', told, ys);
    PathJoin(c, t, c1, c', told, xs, ys);
  }

  // ----- dealloc

  /** Cutting the batch off and handing it to `push_bulk`. */
  lemma CutOnward(c: State, a: TwoLevel.State, t: nat) returns (c': State)
    requires Busy(c, t) && c.caches[t].step.Cutting? && Matches(c, a)
    ensures Alone(c, t, c', []) && Busy(c', t) && Matches(c', a) && c'.caches[t].step.Sealed?
    ensures |c'.caches| == |c.caches| && c'.caches == c.caches[t := c'.caches[t]] && c'.batch == c.batch
  {
    var x := Cut(t);
    MoveKeeps(c, x);
    MoveLock(c, x);
    CutSimulated(c, a, t);
    AloneLast(c, t, x);
    c' := Do(c, x).c;
  }

  lemma SendOnward(c: State, a: TwoLevel.State, t: nat) returns (c': State)
    requires Busy(c, t) && c.caches[t].step.Sealed? && Matches(c, a)
    ensures Alone(c, t, c', []) && Busy(c', t) && Matches(c', a) && c'.caches[t].step.Sending?
    ensures |c'.caches| == |c.caches| && c'.caches == c.caches[t := c'.caches[t]] && c'.batch == c.batch
  {
    var x := Send(t);
    MoveKeeps(c, x);
    MoveLock(c, x);
    NoLock(c, t);
    SendSimulated(c, a, t);
    InvokeGoing(c, t, x, PushBulk(c.caches[t].step.batch));
    AloneLast(c, t, x);
    c' := Do(c, x).c;
  }

  lemma SentAlone(c: State, a: TwoLevel.State, t: nat) returns (c': State)
    requires Busy(c, t) && c.caches[t].step.Sending? && Matches(c, a)
    ensures t < |a.caches| && Alone(c, t, c', []) && OnlyCache(c, c', t) && Matches(c', RestOfFree(a, t))
  {
    var a';
    c', a' := StackAlone(c, a, t);
    NoLock(c', t);
    assert CacheMatches(c', t, a'.caches[t]);
  }

  lemma SealedAlone(c: State, a: TwoLevel.State, t: nat) returns (c': State)
    requires Busy(c, t) && c.caches[t].step.Sealed? && Matches(c, a)
    ensures t < |a.caches| && Alone(c, t, c', []) && OnlyCache(c, c', t) && Matches(c', RestOfFree(a, t))
  {
    var c1 := SendOnward(c, a, t);
    c' := SentAlone(c1, a, t);
    AloneJoin(c, t, c1, c', []);
  }

  /** The flush, from its first step to its end. */
  lemma FlushAlone(c: State, a: TwoLevel.State, t: nat) returns (c': State)
    requires Busy(c, t) && c.caches[t].step.Cutting? && Matches(c, a)
    ensures t < |a.caches| && Alone(c, t, c', []) && OnlyCache(c, c', t) && Matches(c', RestOfFree(a, t))
  {
    var c1 := CutOnward(c, a, t);
    c' := SealedAlone(c1, a, t);
    AloneJoin(c, t, c1, c', []);
  }

  /** The free itself. */
  lemma FreeBegins(c: State, a: TwoLevel.State, t: nat, b: Block)
    requires CInv(c) && Able(c, Free(t, b)) && Matches(c, a) && c.m.lock == None
    ensures Possible(c, Free(t, b)) && Unwrapped(c, Free(t, b)) && TwoLevel.Enabled(a, TwoLevel.DeallocBegin(t, b))
    ensures var o := Do(c, Free(t, b));
      && o.r == TwoLevel.Freed(b) && Busy(o.c, t) && o.c.m.lock == None
      && Matches(o.c, TwoLevel.Step(a, TwoLevel.DeallocBegin(t, b)).s)
      && (o.c.caches[t].step.Ready? || o.c.caches[t].step.Cutting?)
      && |o.c.caches| == |c.caches| && o.c.caches == c.caches[t := o.c.caches[t]] && o.c.batch == c.batch
  {
    MoveKeeps(c, Free(t, b));
    MoveLock(c, Free(t, b));
    FreeSimulated(c, a, t, b);
  }

  /** What follows the free. */
  lemma FreedAlone(c: State, a: TwoLevel.State, t: nat) returns (c': State)
    requires Busy(c, t) && (c.caches[t].step.Ready? || c.caches[t].step.Cutting?) && Matches(c, a) && c.m.lock == None
    ensures t < |a.caches| && Alone(c, t, c', []) && OnlyCache(c, c', t) && Matches(c', RestOfFree(a, t))
  {
    if c.caches[t].step.Ready? {
      c' := c;
      AloneNone(c', t);
      assert CacheMatches(c', t, a.caches[t]);
    } else {
      c' := FlushAlone(c, a, t);
    }
  }

  /** `dealloc`, as a free and what is left of it then. */
  lemma FreeCall(c: State, a: TwoLevel.State, t: nat, b: Block) returns (c': State)
    requires CInv(c) && Able(c, Free(t, b)) && Matches(c, a) && c.m.lock == None
    ensures TwoLevel.Enabled(a, TwoLevel.DeallocBegin(t, b))
    ensures Called(c, t, Free(t, b), c', [TwoLevel.Freed(b)]) && OnlyCache(c, c', t)
    ensures Matches(c', RestOfFree(TwoLevel.Step(a, TwoLevel.DeallocBegin(t, b)).s, t))
  {
    FreeBegins(c, a, t, b);
    var c1, a1 := Do(c, Free(t, b)).c, TwoLevel.Step(a, TwoLevel.DeallocBegin(t, b)).s;
    c' := FreedAlone(c1, a1, t);
    CalledBy(c, t, Free(t, b), c', []);
  }

  // ----- on sequences

  /** The state of the two-level pool at a state of the code. */
  function Abstraction(c: State): TwoLevel.State {
    TwoLevel.State(c.batch, Shared(c.m, c.l),
      seq(|c.caches|,
        t requires 0 <= t < |c.caches| => TwoLevel.Cache(AbsLocal(c, t), AbsPhase(c, t), TwoLevel.NO_STATS)),
      c.live)
  }

  /** The local list of cache `t` and the shared list. */
  function Lists(c: State, t: nat): CacheSpec.Store<Block>
    requires t < |c.caches|
  {
    CacheSpec.Store(c.caches[t].local, c.l.stack)
  }

  /** At rest with the lock free, the lists are those of the two-level pool. */
  lemma ListsMatch(c: State, a: TwoLevel.State, t: nat)
    requires Matches(c, a) && t < |c.caches| && c.caches[t].step.Ready? && c.m.lock == None
    ensures t < |a.caches| && a.caches[t].phase.Resting? && a.live == c.live
    ensures Lists(c, t) == CacheSpec.Store(a.caches[t].local, a.global)
  {
    assert CacheMatches(c, t, a.caches[t]);
  }

  /** `alloc` by a thread that runs alone, begun with the lock free: it comes to an
      end, answers what `CacheSpec.Alloc` says and leaves the lists it says; the
      caches of the other threads stay as they are. */
  lemma AllocAlone(c: State, t: nat) returns (c': State, block: Option<Block>)
    requires CInv(c) && Able(c, Alloc(t)) && c.m.lock == None
    ensures Called(c, t, Alloc(t), c', [TwoLevel.Granted(block)]) && OnlyCache(c, c', t)
    ensures CacheSpec.Alloc(c.batch, Lists(c, t)) == CacheSpec.Grant(block, Lists(c', t))
    ensures c'.live == c.live + (if block.Some? then {block.value} else {})
  {
    var a := Abstraction(c);
    ListsMatch(c, a, t);
    c' := AllocCall(c, a, t);
    ListsMatch(c', RestOfAlloc(a, t).s, t);
    TwoLevel.AllocAtomic(a, t);
    AllocRest(a, t);
    block := RestOfAlloc(a, t).r.block;
  }

  lemma AllocRest(a: TwoLevel.State, t: nat)
    requires t < |a.caches| && a.caches[t].phase.Resting?
    ensures var o := RestOfAlloc(a, t);
      o.r.Granted? && o.s.live == a.live + (if o.r.block.Some? then {o.r.block.value} else {})
  {
  }

  /** `dealloc` by a thread that runs alone, likewise. */
  lemma DeallocAlone(c: State, t: nat, b: Block) returns (c': State)
    requires CInv(c) && Able(c, Free(t, b)) && c.m.lock == None
    ensures Called(c, t, Free(t, b), c', [TwoLevel.Freed(b)]) && OnlyCache(c, c', t)
    ensures CacheSpec.Dealloc(c.batch, Lists(c, t), b) == Lists(c', t)
    ensures c'.live == c.live - {b}
  {
    var a := Abstraction(c);
    ListsMatch(c, a, t);
    c' := FreeCall(c, a, t, b);
    var a' := RestOfFree(TwoLevel.Step(a, TwoLevel.DeallocBegin(t, b)).s, t);
    ListsMatch(c', a', t);
    TwoLevel.DeallocAtomic(a, t, b);
  }
}
