/** What holds over every run of interleaved NUMA calls. */
module NumaCallRuns {
  import opened Options
  import opened Regions
  import opened NumaCalls
  import TwoLevel
  import Numa
  import NumaSpec

  function Next(cfg: Config, s: State, a: Action): State
    requires Able(s, a) && Possible(cfg, s, a)
  {
    Step(cfg, s, a).s
  }

  predicate Runs(cfg: Config, s: State, acts: seq<Action>)
    decreases |acts|
  {
    acts == [] || (Able(s, acts[0]) && Possible(cfg, s, acts[0]) && Runs(cfg, Next(cfg, s, acts[0]), acts[1..]))
  }

  function After(cfg: Config, s: State, acts: seq<Action>): State
    requires Runs(cfg, s, acts)
    decreases |acts|
  {
    if acts == [] then s else After(cfg, Next(cfg, s, acts[0]), acts[1..])
  }

  function Fresh(cfg: Config, batch: nat, threads: nat): State {
    State(Numa.Fresh(cfg, batch).nodes, seq(threads, _ => Thread(Idle, map[])))
  }

  lemma FreshInv(cfg: Config, batch: nat, threads: nat)
    requires Sound(cfg)
    ensures Inv(cfg, Fresh(cfg, batch, threads))
  {
    Numa.FreshHomed(cfg, batch);
    assert Numa.State(Numa.Fresh(cfg, batch).nodes) == Numa.Fresh(cfg, batch);
  }

  lemma {:induction false} RunKeeps(cfg: Config, s: State, acts: seq<Action>)
    requires Inv(cfg, s) && Runs(cfg, s, acts)
    ensures Inv(cfg, After(cfg, s, acts))
    decreases |acts|
  {
    if acts != [] {
      StepKeeps(cfg, s, acts[0]);
      RunKeeps(cfg, Next(cfg, s, acts[0]), acts[1..]);
    }
  }

  /** In every run every call of every thread can take its next step, and every
      free of a live block can be carried out at the node of its address. */
  lemma NeverStuck(cfg: Config, batch: nat, threads: nat, acts: seq<Action>, a: Action)
    requires Sound(cfg) && Runs(cfg, Fresh(cfg, batch, threads), acts)
    requires Able(After(cfg, Fresh(cfg, batch, threads), acts), a)
    ensures Possible(cfg, After(cfg, Fresh(cfg, batch, threads), acts), a)
  {
    FreshInv(cfg, batch, threads);
    RunKeeps(cfg, Fresh(cfg, batch, threads), acts);
    StepKeeps(cfg, After(cfg, Fresh(cfg, batch, threads), acts), a);
  }

  // ------------------------------------------------------------------
  // An observer beside the machine
  // ------------------------------------------------------------------

  /** Thread `t` could get nothing from node `n`: the shared list is empty, and
      so is the thread's cache there, if it has one. */
  predicate Bare(s: State, t: nat, n: nat) {
    && t < |s.threads| && n < |s.nodes| && s.nodes[n].global == []
    && (n in s.threads[t].slots ==>
         HasCache(s, t, n) && CacheAt(s, t, n).local == [] && TwoLevel.Transit(CacheAt(s, t, n)) == [])
  }

  predicate Begins(a: Action, t: nat) { a.CallAlloc? && a.t == t }

  /** The nodes that were bare for `t` at some moment since its call began. */
  function Look(s': State, a: Action, t: nat, saw: set<nat>): set<nat> {
    (if Begins(a, t) then {} else saw) + set n | 0 <= n < |s'.nodes| && Bare(s', t, n)
  }

  function Watched(cfg: Config, s: State, acts: seq<Action>, t: nat, saw: set<nat>): set<nat>
    requires Runs(cfg, s, acts)
    decreases |acts|
  {
    if acts == [] then saw
    else
      var s' := Next(cfg, s, acts[0]);
      Watched(cfg, s', acts[1..], t, Look(s', acts[0], t, saw))
  }

  /** The nodes a call has put behind it were bare, and so is one at which an
      attempt is about to fail. */
  predicate WatchOk(s: State, t: nat, saw: set<nat>)
    requires t < |s.threads|
  {
    var call := s.threads[t].call;
    call.Trying? ==>
      && (call.scan.Some? ==> call.chosen in saw && forall n :: 0 <= n < call.scan.value ==> n in saw)
      && (HasCache(s, t, At(call)) && Failing(CacheAt(s, t, At(call))) ==> At(call) in saw)
  }

  predicate Failing(c: TwoLevel.Cache) { c.phase == TwoLevel.Refilling([]) && c.local == [] }

  lemma OthersWatched(s: State, s': State, a: Action, t: nat, saw: set<nat>)
    requires t < |s.threads| && t != a.t && OthersSame(s, s', a.t) && WatchOk(s, t, saw)
    requires ThreadOk(s, t)
    ensures WatchOk(s', t, Look(s', a, t, saw))
  {
    var call := s.threads[t].call;
    if call.Trying? && HasCache(s', t, At(call)) && Failing(CacheAt(s', t, At(call))) {
      assert At(call) in s.threads[t].slots;
      assert HasCache(s, t, At(call)) && CacheAt(s', t, At(call)) == CacheAt(s, t, At(call));
    }
  }

  /** A refill that brings nothing found the shared list empty. */
  lemma BeginFails(node: TwoLevel.State, k: nat)
    requires TwoLevel.Enabled(node, TwoLevel.AllocBegin(k))
    ensures var o := TwoLevel.Step(node, TwoLevel.AllocBegin(k));
      && k < |o.s.caches| && (Failing(o.s.caches[k]) ==> o.s.global == [])
      && o.r != TwoLevel.Granted(None)
  {
  }

  lemma EndFails(node: TwoLevel.State, k: nat)
    requires TwoLevel.Enabled(node, TwoLevel.AllocEnd(k))
    ensures var o := TwoLevel.Step(node, TwoLevel.AllocEnd(k));
      && k < |o.s.caches| && o.s.caches[k].phase.Resting?
      && (o.r == TwoLevel.Granted(None) ==> Failing(node.caches[k]))
      && o.r.Granted?
  {
  }

  /** The caches of a thread at other nodes are at rest. */
  lemma OthersRest(s: State, t: nat, n: nat, m: nat)
    requires t < |s.threads| && ThreadOk(s, t) && s.threads[t].call.Trying? && At(s.threads[t].call) == n
    requires m != n && m in s.threads[t].slots
    ensures HasCache(s, t, m) && CacheAt(s, t, m).phase.Resting?
  {
    assert HasCache(s, t, m) && PhaseOk(s, s.threads[t].call, m, CacheAt(s, t, m).phase);
  }

  lemma AttemptWatched(s: State, t: nat, n: nat, saw: set<nat>)
    requires HasCache(s, t, n) && s.threads[t].call.Trying? && At(s.threads[t].call) == n && ThreadOk(s, t)
    requires !CacheAt(s, t, n).phase.Flushing? && WatchOk(s, t, saw)
    ensures var s' := Attempt(s, t, n).s; t < |s'.threads| && WatchOk(s', t, Look(s', Go(t), t, saw))
  {
    var k := s.threads[t].slots[n];
    var s' := Attempt(s, t, n).s;
    var call := s'.threads[t].call;
    assert s'.threads[t].slots == s.threads[t].slots;
    if CacheAt(s, t, n).phase.Resting? {
      BeginFails(s.nodes[n], k);
      if call.Trying? && Failing(CacheAt(s', t, n)) {
        assert Bare(s', t, n);
      }
    } else {
      EndFails(s.nodes[n], k);
      if call.Trying? && At(call) != n && HasCache(s', t, At(call)) {
        OthersRest(s, t, n, At(call));
      }
    }
  }

  /** Creating a cache makes no node bare that was not, and takes nothing. */
  lemma GetCacheWatched(s: State, t: nat, n: nat, saw: set<nat>)
    requires t < |s.threads| && n < |s.nodes| && ThreadOk(s, t) && WatchOk(s, t, saw)
    ensures t < |GetCache(s, t, n).threads| && WatchOk(GetCache(s, t, n), t, saw)
  {
    if n !in s.threads[t].slots {
      SpawnSame(s, t, n);
      var call := s.threads[t].call;
      if call.Trying? && At(call) != n && HasCache(GetCache(s, t, n), t, At(call)) {
        assert HasCache(s, t, At(call));
      }
    }
  }

  /** Moving on without an attempt. */
  lemma PassWatched(s: State, t: nat, call: Call, a: Action, saw: set<nat>)
    requires t < |s.threads| && ThreadOk(s, t) && WatchOk(s, t, saw)
    requires (s.threads[t].call.Idle? && call.Trying? && call.scan.None?) ||
      (s.threads[t].call.Trying? && Passing(s, s.threads[t].call) && !Begins(a, t) &&
       (call.Idle?
         || (call.Trying? && s.threads[t].call == Trying(call.chosen, Some(call.chosen))
           && call == Trying(call.chosen, Some(call.chosen + 1)))))
    ensures var s' := SetThread(s, t, call); WatchOk(s', t, Look(s', a, t, saw))
  {
    var s' := SetThread(s, t, call);
    if call.Trying? && HasCache(s', t, At(call)) {
      assert HasCache(s, t, At(call)) && PhaseOk(s, s.threads[t].call, At(call), CacheAt(s, t, At(call)).phase);
    }
  }

  lemma CallWatched(cfg: Config, s: State, t: nat, current: nat, saw: set<nat>)
    requires Able(s, CallAlloc(t, current)) && ThreadOk(s, t) && WatchOk(s, t, saw)
    ensures var a := CallAlloc(t, current); var s' := Next(cfg, s, a); WatchOk(s', t, Look(s', a, t, saw))
  {
    PassWatched(s, t, Trying(NumaSpec.Chosen(|s.nodes|, current), None), CallAlloc(t, current), saw);
  }

  /** A free does not lead into an `alloc`. */
  lemma FreeWatched(cfg: Config, s: State, t: nat, b: nat, saw: set<nat>)
    requires Able(s, Free(t, b)) && Possible(cfg, s, Free(t, b))
    ensures var s' := Next(cfg, s, Free(t, b));
      t < |s'.threads| && !s'.threads[t].call.Trying? && WatchOk(s', t, Look(s', Free(t, b), t, saw))
  {
    GetCacheHas(s, t, Numa.OwnerNode(cfg, b));
  }

  lemma SkipWatched(cfg: Config, s: State, t: nat, saw: set<nat>)
    requires Able(s, Go(t)) && Possible(cfg, s, Go(t)) && Passing(s, s.threads[t].call)
    requires ThreadOk(s, t) && WatchOk(s, t, saw)
    ensures var s' := Next(cfg, s, Go(t)); t < |s'.threads| && WatchOk(s', t, Look(s', Go(t), t, saw))
  {
    var call := s.threads[t].call;
    PassWatched(s, t, if call.scan == Some(|s.nodes|) then Idle
      else Trying(call.chosen, Some(call.chosen + 1)), Go(t), saw);
  }

  lemma TryWatched(cfg: Config, s: State, t: nat, saw: set<nat>)
    requires Inv(cfg, s) && Able(s, Go(t)) && Possible(cfg, s, Go(t)) && WatchOk(s, t, saw)
    requires s.threads[t].call.Trying? && !Passing(s, s.threads[t].call)
    ensures var s' := Next(cfg, s, Go(t)); t < |s'.threads| && WatchOk(s', t, Look(s', Go(t), t, saw))
  {
    var n := At(s.threads[t].call);
    assert ThreadOk(s, t);
    GetCacheHas(s, t, n);
    GetCacheWatched(s, t, n, saw);
    GetCacheKeeps(cfg, s, t, n);
    assert ThreadOk(GetCache(s, t, n), t);
    AttemptWatched(GetCache(s, t, n), t, n, saw);
  }

  lemma FlushWatched(cfg: Config, s: State, t: nat, saw: set<nat>)
    requires Able(s, Go(t)) && Possible(cfg, s, Go(t)) && s.threads[t].call.Flushing?
    ensures var s' := Next(cfg, s, Go(t)); t < |s'.threads| && WatchOk(s', t, Look(s', Go(t), t, saw))
  {
  }

  lemma OwnWatched(cfg: Config, s: State, a: Action, saw: set<nat>)
    requires Inv(cfg, s) && Able(s, a) && Possible(cfg, s, a) && WatchOk(s, a.t, saw)
    ensures var s' := Next(cfg, s, a); a.t < |s'.threads| && WatchOk(s', a.t, Look(s', a, a.t, saw))
  {
    assert ThreadOk(s, a.t);
    match a
    case CallAlloc(t, current) => CallWatched(cfg, s, t, current, saw);
    case Free(t, b) => FreeWatched(cfg, s, t, b, saw);
    case Go(t) =>
      var call := s.threads[t].call;
      if call.Flushing? {
        FlushWatched(cfg, s, t, saw);
      } else if Passing(s, call) {
        SkipWatched(cfg, s, t, saw);
      } else {
        TryWatched(cfg, s, t, saw);
      }
  }

  lemma SameTrans(s: State, s1: State, s2: State, t: nat)
    requires OthersSame(s, s1, t) && OthersSame(s1, s2, t)
    ensures OthersSame(s, s2, t)
  {
  }

  lemma CallSame(s: State, t: nat, call: Call)
    requires t < |s.threads|
    ensures OthersSame(s, SetThread(s, t, call), t)
  {
  }

  lemma GoOthers(cfg: Config, s: State, t: nat)
    requires Inv(cfg, s) && Able(s, Go(t)) && Possible(cfg, s, Go(t))
    ensures OthersSame(s, Next(cfg, s, Go(t)), t)
  {
    var call := s.threads[t].call;
    assert ThreadOk(s, t);
    if call.Flushing? {
      NodeSame(s, t, call.n, TwoLevel.DeallocEnd(s.threads[t].slots[call.n]), Idle);
    } else if Passing(s, call) {
      CallSame(s, t, Next(cfg, s, Go(t)).threads[t].call);
    } else {
      var n := At(call);
      GetCacheHas(s, t, n);
      GetCacheKeeps(cfg, s, t, n);
      AttemptOthers(cfg, GetCache(s, t, n), t, n);
      SameTrans(s, GetCache(s, t, n), Next(cfg, s, Go(t)), t);
    }
  }

  lemma AttemptOthers(cfg: Config, s: State, t: nat, n: nat)
    requires Inv(cfg, s) && HasCache(s, t, n) && s.threads[t].call.Trying? && !CacheAt(s, t, n).phase.Flushing?
    ensures OthersSame(s, Attempt(s, t, n).s, t)
  {
    var k := s.threads[t].slots[n];
    var a := if CacheAt(s, t, n).phase.Resting? then TwoLevel.AllocBegin(k) else TwoLevel.AllocEnd(k);
    NodeSame(s, t, n, a, Continue(s.threads[t].call, TwoLevel.Step(s.nodes[n], a).r));
  }

  lemma FreeOthers(cfg: Config, s: State, t: nat, b: nat)
    requires Inv(cfg, s) && Able(s, Free(t, b)) && Possible(cfg, s, Free(t, b))
    ensures OthersSame(s, Next(cfg, s, Free(t, b)), t)
  {
    var n := Numa.OwnerNode(cfg, b);
    GetCacheHas(s, t, n);
    GetCacheKeeps(cfg, s, t, n);
    FreeAtOthers(cfg, GetCache(s, t, n), t, n, b, Next(cfg, s, Free(t, b)).threads[t].call);
    SameTrans(s, GetCache(s, t, n), Next(cfg, s, Free(t, b)), t);
  }

  lemma FreeAtOthers(cfg: Config, s: State, t: nat, n: nat, b: nat, call: Call)
    requires Inv(cfg, s) && HasCache(s, t, n) && CacheAt(s, t, n).phase.Resting? && b in s.nodes[n].live
    ensures var node := TwoLevel.Step(s.nodes[n], TwoLevel.DeallocBegin(s.threads[t].slots[n], b)).s;
      OthersSame(s, SetThread(s.(nodes := s.nodes[n := node]), t, call), t)
  {
    NodeSame(s, t, n, TwoLevel.DeallocBegin(s.threads[t].slots[n], b), call);
  }

  /** A step concerns no cache of another thread. */
  lemma StepOthers(cfg: Config, s: State, a: Action)
    requires Inv(cfg, s) && Able(s, a) && Possible(cfg, s, a)
    ensures OthersSame(s, Next(cfg, s, a), a.t)
  {
    match a
    case CallAlloc(t, _) => CallSame(s, t, Next(cfg, s, a).threads[t].call);
    case Free(t, b) => FreeOthers(cfg, s, t, b);
    case Go(t) => GoOthers(cfg, s, t);
  }

  lemma {:induction false} RunWatched(cfg: Config, s: State, acts: seq<Action>, t: nat, saw: set<nat>)
    requires Inv(cfg, s) && Runs(cfg, s, acts) && t < |s.threads| && WatchOk(s, t, saw)
    ensures var s' := After(cfg, s, acts);
      t < |s'.threads| && WatchOk(s', t, Watched(cfg, s, acts, t, saw)) && |s'.nodes| == |s.nodes|
    decreases |acts|
  {
    if acts != [] {
      var a, s' := acts[0], Next(cfg, s, acts[0]);
      StepKeeps(cfg, s, a);
      StepOthers(cfg, s, a);
      if t == a.t {
        OwnWatched(cfg, s, a, saw);
      } else {
        OthersWatched(s, s', a, t, saw);
      }
      RunWatched(cfg, s', acts[1..], t, Look(s', a, t, saw));
    }
  }

  // ------------------------------------------------------------------
  // What the observer has seen did happen
  // ------------------------------------------------------------------

  /** After the first `k` actions, and within the latest `alloc` call of `t`. */
  ghost predicate BareAfter(cfg: Config, s: State, acts: seq<Action>, t: nat, n: nat, k: nat) {
    && k <= |acts| && Runs(cfg, s, acts[..k]) && Bare(After(cfg, s, acts[..k]), t, n)
    && forall i :: k <= i < |acts| ==> !Begins(acts[i], t)
  }

  ghost predicate BareDuringCall(cfg: Config, s: State, acts: seq<Action>, t: nat, n: nat) {
    exists k :: BareAfter(cfg, s, acts, t, n, k)
  }

  lemma BareLater(cfg: Config, s: State, acts: seq<Action>, t: nat, n: nat, k: nat)
    requires acts != [] && Able(s, acts[0]) && Possible(cfg, s, acts[0])
    requires BareAfter(cfg, Next(cfg, s, acts[0]), acts[1..], t, n, k)
    ensures BareAfter(cfg, s, acts, t, n, k + 1)
  {
    assert acts[..k + 1][0] == acts[0] && acts[..k + 1][1..] == acts[1..][..k];
    forall i | k + 1 <= i < |acts| ensures !Begins(acts[i], t) {
      assert acts[i] == acts[1..][i - 1];
    }
  }

  lemma {:induction false} WatchedHappened(cfg: Config, s: State, acts: seq<Action>, t: nat, saw: set<nat>, n: nat)
    requires Runs(cfg, s, acts) && n in Watched(cfg, s, acts, t, saw)
    ensures BareDuringCall(cfg, s, acts, t, n) || (n in saw && forall i :: 0 <= i < |acts| ==> !Begins(acts[i], t))
    decreases |acts|
  {
    if acts != [] {
      var s' := Next(cfg, s, acts[0]);
      WatchedHappened(cfg, s', acts[1..], t, Look(s', acts[0], t, saw), n);
      if BareDuringCall(cfg, s', acts[1..], t, n) {
        var k: nat :| BareAfter(cfg, s', acts[1..], t, n, k);
        BareLater(cfg, s, acts, t, n, k);
      } else if Bare(s', t, n) {
        assert acts[1..][..0] == [];
        assert BareAfter(cfg, s', acts[1..], t, n, 0);
      } else {
        assert forall i :: 1 <= i < |acts| ==> acts[i] == acts[1..][i - 1];
      }
    }
  }

  // ------------------------------------------------------------------
  // Fallback and null
  // ------------------------------------------------------------------

  /** Only a call in progress answers: null at the end of the loop, a block at
      an attempt. */
  lemma AnswerShape(cfg: Config, s: State, a: Action)
    requires Able(s, a) && Possible(cfg, s, a) && Step(cfg, s, a).e.Answer?
    ensures a.Go? && s.threads[a.t].call.Trying? && Step(cfg, s, a).e.t == a.t
    ensures var call := s.threads[a.t].call;
      if Passing(s, call) then call.scan == Some(|s.nodes|) && Step(cfg, s, a).e.block.None?
      else
        && Possible(cfg, s, a) && At(call) < |s.nodes|
        && (var s1 := GetCache(s, a.t, At(call));
            && HasCache(s1, a.t, At(call)) && s1.threads[a.t].call.Trying?
            && !CacheAt(s1, a.t, At(call)).phase.Flushing?
            && Step(cfg, s, a) == Attempt(s1, a.t, At(call)))
  {
    var call := s.threads[a.t].call;
    if a.Go? && call.Trying? && !Passing(s, call) {
      GetCacheHas(s, a.t, At(call));
    }
  }

  lemma AnswerFrom(cfg: Config, s: State, a: Action)
    requires Inv(cfg, s) && Able(s, a) && Possible(cfg, s, a) && Step(cfg, s, a).e.Answer?
    ensures a.Go? && s.threads[a.t].call.Trying?
    ensures var block := Step(cfg, s, a).e.block;
      if block.None? then s.threads[a.t].call.scan == Some(|s.nodes|)
      else At(s.threads[a.t].call) < |s.nodes| && Numa.OwnerNode(cfg, block.value) == At(s.threads[a.t].call)
  {
    AnswerShape(cfg, s, a);
    var n := At(s.threads[a.t].call);
    if !Passing(s, s.threads[a.t].call) {
      GrantLives(GetCache(s, a.t, n), a.t, n);
      StepKeeps(cfg, s, a);
      Numa.LiveAtOwner(cfg, Numa.State(Next(cfg, s, a).nodes), n, Step(cfg, s, a).e.block.value);
    }
  }

  lemma GrantLives(s: State, t: nat, n: nat)
    requires HasCache(s, t, n) && s.threads[t].call.Trying? && !CacheAt(s, t, n).phase.Flushing?
    ensures var o := Attempt(s, t, n);
      o.e.Answer? ==> o.e.block.Some? && n < |o.s.nodes| && o.e.block.value in o.s.nodes[n].live
  {
  }

  /** Action `k` is the latest `alloc` call of `t`, made on node `current`. */
  predicate LatestCall(acts: seq<Action>, t: nat, k: nat, current: nat) {
    && k < |acts| && acts[k] == CallAlloc(t, current)
    && forall i :: k < i < |acts| ==> !Begins(acts[i], t)
  }

  /** The node a call starts with: the one the thread runs on, or node 0 if there is
      no such node. */
  predicate StartsAt(count: nat, current: nat, node: nat) {
    (current < count ==> node == current) && (current >= count ==> node == 0)
  }

  lemma ChosenStep(cfg: Config, s: State, a: Action, t: nat)
    requires Inv(cfg, s) && Able(s, a) && Possible(cfg, s, a)
    requires t < |Next(cfg, s, a).threads| && Next(cfg, s, a).threads[t].call.Trying?
    ensures var call := Next(cfg, s, a).threads[t].call;
      if Begins(a, t) then StartsAt(|s.nodes|, a.current, call.chosen)
      else t < |s.threads| && s.threads[t].call.Trying? && s.threads[t].call.chosen == call.chosen
    ensures |Next(cfg, s, a).nodes| == |s.nodes|
  {
    StepOthers(cfg, s, a);
    if t == a.t {
      OwnChosen(cfg, s, a);
    }
  }

  lemma OwnChosen(cfg: Config, s: State, a: Action)
    requires Able(s, a) && Possible(cfg, s, a)
    requires a.t < |Next(cfg, s, a).threads| && Next(cfg, s, a).threads[a.t].call.Trying?
    ensures var call := Next(cfg, s, a).threads[a.t].call;
      if a.CallAlloc? then StartsAt(|s.nodes|, a.current, call.chosen)
      else s.threads[a.t].call.Trying? && s.threads[a.t].call.chosen == call.chosen
  {
    if a.Free? {
      GetCacheHas(s, a.t, Numa.OwnerNode(cfg, a.b));
    } else if a.Go? && s.threads[a.t].call.Trying? && !Passing(s, s.threads[a.t].call) {
      GetCacheHas(s, a.t, At(s.threads[a.t].call));
    }
  }

  ghost predicate Called(acts: seq<Action>, t: nat, count: nat, chosen: nat) {
    exists k, current :: LatestCall(acts, t, k, current) && StartsAt(count, current, chosen)
  }

  /** The call was in progress before, and no other has been made since. */
  predicate Ongoing(s: State, acts: seq<Action>, t: nat, chosen: nat) {
    && t < |s.threads| && s.threads[t].call.Trying? && s.threads[t].call.chosen == chosen
    && forall i :: 0 <= i < |acts| ==> !Begins(acts[i], t)
  }

  lemma CalledLater(acts: seq<Action>, t: nat, count: nat, chosen: nat)
    requires acts != [] && Called(acts[1..], t, count, chosen)
    ensures Called(acts, t, count, chosen)
  {
    var k: nat, current: nat :| LatestCall(acts[1..], t, k, current) && StartsAt(count, current, chosen);
    forall i | k + 1 < i < |acts| ensures !Begins(acts[i], t) {
      assert acts[i] == acts[1..][i - 1];
    }
    assert LatestCall(acts, t, k + 1, current);
  }

  lemma OngoingLater(cfg: Config, s: State, acts: seq<Action>, t: nat, chosen: nat)
    requires acts != [] && Inv(cfg, s) && Able(s, acts[0]) && Possible(cfg, s, acts[0])
    requires Ongoing(Next(cfg, s, acts[0]), acts[1..], t, chosen)
    ensures Ongoing(s, acts, t, chosen) || Called(acts, t, |s.nodes|, chosen)
  {
    ChosenStep(cfg, s, acts[0], t);
    forall i | 1 <= i < |acts| ensures !Begins(acts[i], t) {
      assert acts[i] == acts[1..][i - 1];
    }
    if Begins(acts[0], t) {
      assert LatestCall(acts, t, 0, acts[0].current);
    }
  }

  lemma {:induction false} ChosenFrom(cfg: Config, s: State, acts: seq<Action>, t: nat)
    requires Inv(cfg, s) && Runs(cfg, s, acts)
    requires t < |After(cfg, s, acts).threads| && After(cfg, s, acts).threads[t].call.Trying?
    ensures var chosen := After(cfg, s, acts).threads[t].call.chosen;
      Ongoing(s, acts, t, chosen) || Called(acts, t, |s.nodes|, chosen)
    decreases |acts|
  {
    if acts != [] {
      var s' := Next(cfg, s, acts[0]);
      var chosen := After(cfg, s, acts).threads[t].call.chosen;
      StepKeeps(cfg, s, acts[0]);
      StepOthers(cfg, s, acts[0]);
      ChosenFrom(cfg, s', acts[1..], t);
      if Called(acts[1..], t, |s'.nodes|, chosen) {
        CalledLater(acts, t, |s.nodes|, chosen);
      } else {
        OngoingLater(cfg, s, acts, t, chosen);
      }
    }
  }

  /** In every run: a call returns null only if every node was bare for its thread
      at some moment of the call. It returns a block of another node than the one
      that its thread ran on when the call was made (or node 0, if there is no such
      node) only if that one and all nodes before the other node were. */
  lemma FallbackJustified(cfg: Config, batch: nat, threads: nat, acts: seq<Action>, a: Action, n: nat)
    returns (k: nat, current: nat)
    requires Sound(cfg) && Runs(cfg, Fresh(cfg, batch, threads), acts)
    requires var s := After(cfg, Fresh(cfg, batch, threads), acts);
      && Able(s, a) && Possible(cfg, s, a) && Step(cfg, s, a).e.Answer?
      && n < |s.nodes|
    ensures LatestCall(acts, a.t, k, current)
    ensures var s := After(cfg, Fresh(cfg, batch, threads), acts);
      var block := Step(cfg, s, a).e.block;
      var home := if current < |cfg.bases| then current else 0;
      && |s.nodes| == |cfg.bases|
      && (block.None? ==> BareDuringCall(cfg, Fresh(cfg, batch, threads), acts, a.t, n))
      && (block.Some? ==>
            var from := Numa.OwnerNode(cfg, block.value);
            from != home && (n == home || n < from) ==>
              BareDuringCall(cfg, Fresh(cfg, batch, threads), acts, a.t, n))
  {
    var s0 := Fresh(cfg, batch, threads);
    var s := After(cfg, s0, acts);
    FreshInv(cfg, batch, threads);
    RunKeeps(cfg, s0, acts);
    AnswerFrom(cfg, s, a);
    ThreadsStay(cfg, s0, acts);
    ChosenFrom(cfg, s0, acts, a.t);
    assert Called(acts, a.t, |s0.nodes|, s.threads[a.t].call.chosen);
    k, current :| LatestCall(acts, a.t, k, current) && StartsAt(|s0.nodes|, current, s.threads[a.t].call.chosen);
    RunWatched(cfg, s0, acts, a.t, {});
    if n in Watched(cfg, s0, acts, a.t, {}) {
      WatchedHappened(cfg, s0, acts, a.t, {}, n);
    }
  }

  lemma {:induction false} ThreadsStay(cfg: Config, s: State, acts: seq<Action>)
    requires Inv(cfg, s) && Runs(cfg, s, acts)
    ensures |After(cfg, s, acts).threads| == |s.threads|
    decreases |acts|
  {
    if acts != [] {
      StepKeeps(cfg, s, acts[0]);
      StepOthers(cfg, s, acts[0]);
      ThreadsStay(cfg, Next(cfg, s, acts[0]), acts[1..]);
    }
  }
}
