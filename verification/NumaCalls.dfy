/** Calls of the NUMA allocator as they interleave: which nodes a thread tries,
    in which order, and what a block from another node or null then means. */
module NumaCalls {
  import opened Options
  import opened Regions
  import TwoLevel
  import Numa
  import NumaSpec

  /** `scan` is the index of the fallback loop; before the loop there is none. */
  datatype Call =
    | Idle
    | Trying(chosen: nat, scan: Option<nat>)
    | Flushing(n: nat)

  /** `slots[n]` is the number of the thread's cache at node `n`. */
  datatype Thread = Thread(call: Call, slots: map<nat, nat>)

  datatype State = State(nodes: seq<TwoLevel.State>, threads: seq<Thread>)

  datatype Action =
    | CallAlloc(t: nat, current: nat)
    | Free(t: nat, b: nat)
    | Go(t: nat)

  datatype Event = Quiet | Answer(t: nat, block: Option<nat>)

  datatype Outcome = Outcome(s: State, e: Event)

  function SetThread(s: State, t: nat, call: Call): State
    requires t < |s.threads|
  {
    s.(threads := s.threads[t := s.threads[t].(call := call)])
  }

  /** `get_cache(n)`: the thread has a cache at the node from then on. */
  function GetCache(s: State, t: nat, n: nat): State
    requires t < |s.threads| && n < |s.nodes|
  {
    var slots := s.threads[t].slots;
    if n in slots then s
    else
      State(s.nodes[n := TwoLevel.Step(s.nodes[n], TwoLevel.Spawn).s],
            s.threads[t := s.threads[t].(slots := slots[n := |s.nodes[n].caches|])])
  }

  /** The node that a call works at. */
  function At(call: Call): nat
    requires !call.Idle?
  {
    match call
    case Trying(chosen, None) => chosen
    case Trying(_, Some(n)) => n
    case Flushing(n) => n
  }

  /** The loop is not at an attempt: it has ended, or skips the chosen node. */
  predicate Passing(s: State, call: Call) {
    call.Trying? && (call.scan == Some(|s.nodes|) || call.scan == Some(call.chosen))
  }

  predicate HasCache(s: State, t: nat, n: nat) {
    && t < |s.threads| && n < |s.nodes| && n in s.threads[t].slots
    && s.threads[t].slots[n] < |s.nodes[n].caches|
  }

  function CacheAt(s: State, t: nat, n: nat): TwoLevel.Cache
    requires HasCache(s, t, n)
  {
    s.nodes[n].caches[s.threads[t].slots[n]]
  }

  /** A thread makes one call at a time and frees blocks that are live. */
  predicate Able(s: State, a: Action) {
    && a.t < |s.threads|
    && match a
       case CallAlloc(t, _) => s.threads[t].call.Idle? && |s.nodes| > 0
       case Free(t, b) => s.threads[t].call.Idle? && Numa.Owned(Numa.State(s.nodes), b)
       case Go(t) => !s.threads[t].call.Idle?
  }

  /** The step at the node can be carried out. */
  predicate Possible(cfg: Config, s: State, a: Action) {
    && a.t < |s.threads|
    && match a
       case CallAlloc(t, _) => true
       case Free(t, b) =>
         var n := Numa.OwnerNode(cfg, b);
         n < |s.nodes| && b in s.nodes[n].live
           && (n in s.threads[t].slots ==> HasCache(s, t, n) && CacheAt(s, t, n).phase.Resting?)
       case Go(t) =>
         var call := s.threads[t].call;
         match call
         case Idle => false
         case Flushing(n) => HasCache(s, t, n) && CacheAt(s, t, n).phase.Flushing?
         case Trying(_, _) =>
           Passing(s, call) ||
           (At(call) < |s.nodes|
             && (At(call) in s.threads[t].slots ==>
                  HasCache(s, t, At(call)) && !CacheAt(s, t, At(call)).phase.Flushing?))
  }

  /** How a call goes on after an attempt. */
  function Continue(call: Call, r: TwoLevel.Result): Call
    requires call.Trying?
  {
    match r
    case Granted(Some(_)) => Idle
    case Granted(None) => Trying(call.chosen, Some(if call.scan.None? then 0 else call.scan.value + 1))
    case _ => call
  }

  /** One step of an attempt at node `n`. */
  function Attempt(s: State, t: nat, n: nat): Outcome
    requires HasCache(s, t, n) && s.threads[t].call.Trying? && !CacheAt(s, t, n).phase.Flushing?
  {
    var k := s.threads[t].slots[n];
    var o := TwoLevel.Step(s.nodes[n], if CacheAt(s, t, n).phase.Resting? then TwoLevel.AllocBegin(k)
      else TwoLevel.AllocEnd(k));
    Outcome(SetThread(s.(nodes := s.nodes[n := o.s]), t, Continue(s.threads[t].call, o.r)),
            match o.r case Granted(Some(b)) => Answer(t, Some(b)) case _ => Quiet)
  }

  lemma GetCacheHas(s: State, t: nat, n: nat)
    requires t < |s.threads| && n < |s.nodes| && (n in s.threads[t].slots ==> HasCache(s, t, n))
    ensures var s' := GetCache(s, t, n);
      && HasCache(s', t, n) && s'.threads[t].call == s.threads[t].call && |s'.nodes| == |s.nodes|
      && (n in s.threads[t].slots ==> CacheAt(s', t, n) == CacheAt(s, t, n))
      && (n !in s.threads[t].slots ==> CacheAt(s', t, n) == TwoLevel.Cache([], TwoLevel.Resting, TwoLevel.NO_STATS))
      && s'.nodes[n].live == s.nodes[n].live
  {
  }

  function Step(cfg: Config, s: State, a: Action): Outcome
    requires Able(s, a) && Possible(cfg, s, a)
  {
    match a
    case CallAlloc(t, current) =>
      Outcome(SetThread(s, t, Trying(NumaSpec.Chosen(|s.nodes|, current), None)), Quiet)
    case Free(t, b) =>
      var n := Numa.OwnerNode(cfg, b);
      GetCacheHas(s, t, n);
      var s1 := GetCache(s, t, n);
      var node := TwoLevel.Step(s1.nodes[n], TwoLevel.DeallocBegin(s1.threads[t].slots[n], b)).s;
      var flushing := node.caches[s1.threads[t].slots[n]].phase.Flushing?;
      Outcome(SetThread(s1.(nodes := s1.nodes[n := node]), t, if flushing then Flushing(n) else Idle), Quiet)
    case Go(t) =>
      var call := s.threads[t].call;
      match call
      case Flushing(n) =>
        var node := TwoLevel.Step(s.nodes[n], TwoLevel.DeallocEnd(s.threads[t].slots[n])).s;
        Outcome(SetThread(s.(nodes := s.nodes[n := node]), t, Idle), Quiet)
      case Trying(chosen, scan) =>
        if scan == Some(|s.nodes|) then Outcome(SetThread(s, t, Idle), Answer(t, None))
        else if scan == Some(chosen) then Outcome(SetThread(s, t, Trying(chosen, Some(chosen + 1))), Quiet)
        else
          GetCacheHas(s, t, At(call));
          Attempt(GetCache(s, t, At(call)), t, At(call))
  }

  // ------------------------------------------------------------------
  // Every step can be carried out and keeps the invariant
  // ------------------------------------------------------------------

  /** A cache is between operations unless its thread's call is busy with it. */
  predicate PhaseOk(s: State, call: Call, n: nat, phase: TwoLevel.Phase) {
    match phase
    case Resting => call != Flushing(n)
    case Refilling(_) => call.Trying? && At(call) == n && !Passing(s, call)
    case Flushing(_) => call == Flushing(n)
  }

  predicate ThreadOk(s: State, t: nat)
    requires t < |s.threads|
  {
    var Thread(call, slots) := s.threads[t];
    && (call.Trying? ==> call.chosen < |s.nodes| && At(call) <= |s.nodes|)
    && (call.Flushing? ==> call.n in slots)
    && (forall n :: n in slots ==> HasCache(s, t, n) && PhaseOk(s, call, n, CacheAt(s, t, n).phase))
  }

  /** No cache belongs to two threads. */
  predicate Apart(s: State, t: nat, u: nat)
    requires t < |s.threads| && u < |s.threads|
  {
    forall n :: n in s.threads[t].slots && n in s.threads[u].slots ==> s.threads[t].slots[n] != s.threads[u].slots[n]
  }

  ghost predicate Inv(cfg: Config, s: State) {
    && Sound(cfg) && Numa.Homed(cfg, Numa.State(s.nodes))
    && (forall t :: 0 <= t < |s.threads| ==> ThreadOk(s, t))
    && (forall t, u :: 0 <= t < |s.threads| && 0 <= u < |s.threads| && t != u ==> Apart(s, t, u))
  }

  lemma AblePossible(cfg: Config, s: State, a: Action)
    requires Inv(cfg, s) && Able(s, a)
    ensures Possible(cfg, s, a)
  {
    assert ThreadOk(s, a.t);
    if a.Free? {
      Numa.OwnedAtOwner(cfg, Numa.State(s.nodes), a.b);
    }
  }

  /** The caches of the other threads are not concerned by a step at one's own. */
  ghost predicate OthersSame(s: State, s': State, t: nat) {
    && |s'.threads| == |s.threads| && |s'.nodes| == |s.nodes|
    && (forall u :: 0 <= u < |s.threads| && u != t ==> s'.threads[u] == s.threads[u])
    && (forall u, n :: 0 <= u < |s.threads| && u != t && HasCache(s, u, n) ==>
          HasCache(s', u, n) && CacheAt(s', u, n) == CacheAt(s, u, n))
  }

  lemma OthersOk(cfg: Config, s: State, s': State, t: nat)
    requires Inv(cfg, s) && t < |s.threads| && OthersSame(s, s', t)
    requires Numa.Homed(cfg, Numa.State(s'.nodes)) && ThreadOk(s', t)
    requires forall u :: 0 <= u < |s.threads| && u != t ==> Apart(s', t, u) && Apart(s', u, t)
    ensures Inv(cfg, s')
  {
    forall u | 0 <= u < |s.threads| && u != t ensures ThreadOk(s', u) {
      assert ThreadOk(s, u);
    }
    forall u, v | 0 <= u < |s.threads| && 0 <= v < |s.threads| && u != v ensures Apart(s', u, v) {
      assert Apart(s, u, v);
    }
  }

  lemma SpawnSame(s: State, t: nat, n: nat)
    requires t < |s.threads| && n < |s.nodes| && n !in s.threads[t].slots
    ensures var s' := GetCache(s, t, n);
      && OthersSame(s, s', t) && HasCache(s', t, n) && CacheAt(s', t, n).phase.Resting?
      && s'.threads[t] == Thread(s.threads[t].call, s.threads[t].slots[n := |s.nodes[n].caches|])
      && (forall m :: HasCache(s, t, m) ==> HasCache(s', t, m) && CacheAt(s', t, m) == CacheAt(s, t, m))
  {
  }

  lemma SpawnApart(s: State, t: nat, n: nat, u: nat)
    requires t < |s.threads| && n < |s.nodes| && n !in s.threads[t].slots
    requires u < |s.threads| && u != t && Apart(s, t, u) && ThreadOk(s, u)
    ensures Apart(GetCache(s, t, n), t, u) && Apart(GetCache(s, t, n), u, t)
  {
    assert n in s.threads[u].slots ==> HasCache(s, u, n);
  }

  lemma SpawnOk(s: State, t: nat, n: nat)
    requires t < |s.threads| && n < |s.nodes| && n !in s.threads[t].slots && ThreadOk(s, t)
    ensures ThreadOk(GetCache(s, t, n), t)
  {
    var s', call := GetCache(s, t, n), s.threads[t].call;
    SpawnSame(s, t, n);
    forall m | m in s'.threads[t].slots ensures HasCache(s', t, m) && PhaseOk(s', call, m, CacheAt(s', t, m).phase) {
      if m != n {
        assert HasCache(s, t, m) && PhaseOk(s, call, m, CacheAt(s, t, m).phase);
      }
    }
  }

  lemma GetCacheKeeps(cfg: Config, s: State, t: nat, n: nat)
    requires Inv(cfg, s) && t < |s.threads| && n < |s.nodes| && s.threads[t].call != Flushing(n)
    ensures Inv(cfg, GetCache(s, t, n)) && OthersSame(s, GetCache(s, t, n), t)
  {
    var s' := GetCache(s, t, n);
    assert ThreadOk(s, t);
    if n !in s.threads[t].slots {
      SpawnSame(s, t, n);
      SpawnOk(s, t, n);
      forall u | 0 <= u < |s.threads| && u != t ensures Apart(s', t, u) && Apart(s', u, t) {
        assert Apart(s, t, u) && ThreadOk(s, u);
        SpawnApart(s, t, n, u);
      }
      SpawnHomed(cfg, s, t, n);
      OthersOk(cfg, s, s', t);
    }
  }

  lemma SpawnHomed(cfg: Config, s: State, t: nat, n: nat)
    requires Sound(cfg) && Numa.Homed(cfg, Numa.State(s.nodes)) && t < |s.threads| && n < |s.nodes|
    ensures Numa.Homed(cfg, Numa.State(GetCache(s, t, n).nodes))
  {
    Numa.StepKeeps(cfg, Numa.State(s.nodes), Numa.At(n, TwoLevel.Spawn));
  }

  /** A step of thread `t` at its cache for node `n`. */
  lemma NodeSame(s: State, t: nat, n: nat, a: TwoLevel.Action, call: Call)
    requires HasCache(s, t, n) && !a.Spawn? && a.t == s.threads[t].slots[n] && TwoLevel.Enabled(s.nodes[n], a)
    requires forall u :: 0 <= u < |s.threads| && u != t ==> Apart(s, t, u)
    ensures var s' := SetThread(s.(nodes := s.nodes[n := TwoLevel.Step(s.nodes[n], a).s]), t, call);
      && OthersSame(s, s', t) && s'.threads[t] == Thread(call, s.threads[t].slots)
      && HasCache(s', t, n) && CacheAt(s', t, n) == TwoLevel.Step(s.nodes[n], a).s.caches[a.t]
      && (forall m :: m != n && HasCache(s, t, m) ==> HasCache(s', t, m) && CacheAt(s', t, m) == CacheAt(s, t, m))
  {
    TwoLevel.StepShape(s.nodes[n], a);
    forall u | 0 <= u < |s.threads| && u != t && HasCache(s, u, n) ensures s.threads[u].slots[n] != a.t {
      assert Apart(s, t, u);
    }
  }

  lemma NodeOk(s: State, t: nat, n: nat, a: TwoLevel.Action, call: Call)
    requires HasCache(s, t, n) && ThreadOk(s, t) && !a.Spawn? && a.t == s.threads[t].slots[n]
    requires TwoLevel.Enabled(s.nodes[n], a) && forall u :: 0 <= u < |s.threads| && u != t ==> Apart(s, t, u)
    requires s.threads[t].call.Idle? || At(s.threads[t].call) == n
    requires call.Idle? || call == Flushing(n) || (call.Trying? && call.chosen < |s.nodes| && At(call) <= |s.nodes|)
    requires PhaseOk(s, call, n, TwoLevel.Step(s.nodes[n], a).s.caches[a.t].phase)
    ensures ThreadOk(SetThread(s.(nodes := s.nodes[n := TwoLevel.Step(s.nodes[n], a).s]), t, call), t)
  {
    var s' := SetThread(s.(nodes := s.nodes[n := TwoLevel.Step(s.nodes[n], a).s]), t, call);
    NodeSame(s, t, n, a, call);
    forall m | m in s'.threads[t].slots ensures HasCache(s', t, m) && PhaseOk(s', call, m, CacheAt(s', t, m).phase) {
      assert HasCache(s, t, m);
    }
  }

  lemma NodeKeeps(cfg: Config, s: State, t: nat, n: nat, a: TwoLevel.Action, call: Call)
    requires Inv(cfg, s) && HasCache(s, t, n) && !a.Spawn? && a.t == s.threads[t].slots[n]
      && TwoLevel.Enabled(s.nodes[n], a)
    requires s.threads[t].call.Idle? || At(s.threads[t].call) == n
    requires call.Idle? || call == Flushing(n) || (call.Trying? && call.chosen < |s.nodes| && At(call) <= |s.nodes|)
    requires PhaseOk(s, call, n, TwoLevel.Step(s.nodes[n], a).s.caches[a.t].phase)
    ensures Inv(cfg, SetThread(s.(nodes := s.nodes[n := TwoLevel.Step(s.nodes[n], a).s]), t, call))
  {
    var s' := SetThread(s.(nodes := s.nodes[n := TwoLevel.Step(s.nodes[n], a).s]), t, call);
    Numa.StepKeeps(cfg, Numa.State(s.nodes), Numa.At(n, a));
    NodeSame(s, t, n, a, call);
    assert ThreadOk(s, t);
    NodeOk(s, t, n, a, call);
    forall u | 0 <= u < |s.threads| && u != t ensures Apart(s', t, u) && Apart(s', u, t) {
      assert Apart(s, t, u) && Apart(s, u, t);
    }
    OthersOk(cfg, s, s', t);
  }

  /** A step that only moves the call on, with no cache busy. */
  lemma CallKeeps(cfg: Config, s: State, t: nat, call: Call)
    requires Inv(cfg, s) && t < |s.threads| && (s.threads[t].call.Idle? || Passing(s, s.threads[t].call))
    requires call.Idle? || (call.Trying? && call.chosen < |s.nodes| && At(call) <= |s.nodes|)
    ensures Inv(cfg, SetThread(s, t, call))
  {
    var s' := SetThread(s, t, call);
    assert ThreadOk(s, t);
    forall n | n in s.threads[t].slots ensures HasCache(s', t, n) && PhaseOk(s', call, n, CacheAt(s', t, n).phase) {
      assert PhaseOk(s, s.threads[t].call, n, CacheAt(s, t, n).phase);
    }
    forall u | 0 <= u < |s.threads| && u != t ensures Apart(s', t, u) && Apart(s', u, t) {
      assert Apart(s, t, u) && Apart(s, u, t);
    }
    OthersOk(cfg, s, s', t);
  }

  lemma AttemptPhase(s: State, t: nat, n: nat)
    requires HasCache(s, t, n) && s.threads[t].call.Trying? && At(s.threads[t].call) == n
      && !Passing(s, s.threads[t].call)
    requires !CacheAt(s, t, n).phase.Flushing?
    ensures var k := s.threads[t].slots[n];
      var a := if CacheAt(s, t, n).phase.Resting? then TwoLevel.AllocBegin(k) else TwoLevel.AllocEnd(k);
      var o := TwoLevel.Step(s.nodes[n], a);
      && k < |o.s.caches| && PhaseOk(s, Continue(s.threads[t].call, o.r), n, o.s.caches[k].phase)
      && (o.r.Granted? ==> o.s.caches[k].phase.Resting?)
  {
  }

  lemma AttemptKeeps(cfg: Config, s: State, t: nat, n: nat)
    requires Inv(cfg, s) && HasCache(s, t, n) && s.threads[t].call.Trying? && At(s.threads[t].call) == n
    requires !Passing(s, s.threads[t].call)
    ensures !CacheAt(s, t, n).phase.Flushing? && Inv(cfg, Attempt(s, t, n).s)
  {
    assert ThreadOk(s, t);
    AttemptPhase(s, t, n);
    var k := s.threads[t].slots[n];
    var a := if CacheAt(s, t, n).phase.Resting? then TwoLevel.AllocBegin(k) else TwoLevel.AllocEnd(k);
    NodeKeeps(cfg, s, t, n, a, Continue(s.threads[t].call, TwoLevel.Step(s.nodes[n], a).r));
  }

  lemma FreePhase(s: State, t: nat, n: nat, b: nat)
    requires HasCache(s, t, n) && CacheAt(s, t, n).phase.Resting? && b in s.nodes[n].live
    ensures var a := TwoLevel.DeallocBegin(s.threads[t].slots[n], b);
      var phase := TwoLevel.Step(s.nodes[n], a).s.caches[a.t].phase;
      TwoLevel.Enabled(s.nodes[n], a) && PhaseOk(s, if phase.Flushing? then Flushing(n) else Idle, n, phase)
  {
  }

  lemma FreeKeeps(cfg: Config, s: State, t: nat, b: nat)
    requires Inv(cfg, s) && Able(s, Free(t, b)) && Possible(cfg, s, Free(t, b))
    ensures Inv(cfg, Step(cfg, s, Free(t, b)).s)
  {
    var n := Numa.OwnerNode(cfg, b);
    GetCacheHas(s, t, n);
    GetCacheKeeps(cfg, s, t, n);
    FreeAtKeeps(cfg, GetCache(s, t, n), t, n, b);
  }

  lemma FreeAtKeeps(cfg: Config, s: State, t: nat, n: nat, b: nat)
    requires Inv(cfg, s) && HasCache(s, t, n) && s.threads[t].call.Idle? && CacheAt(s, t, n).phase.Resting?
    requires b in s.nodes[n].live
    ensures var node := TwoLevel.Step(s.nodes[n], TwoLevel.DeallocBegin(s.threads[t].slots[n], b)).s;
      var flushing := node.caches[s.threads[t].slots[n]].phase.Flushing?;
      Inv(cfg, SetThread(s.(nodes := s.nodes[n := node]), t, if flushing then Flushing(n) else Idle))
  {
    FreePhase(s, t, n, b);
    var a := TwoLevel.DeallocBegin(s.threads[t].slots[n], b);
    var flushing := TwoLevel.Step(s.nodes[n], a).s.caches[a.t].phase.Flushing?;
    NodeKeeps(cfg, s, t, n, a, if flushing then Flushing(n) else Idle);
  }

  lemma GoKeeps(cfg: Config, s: State, t: nat)
    requires Inv(cfg, s) && Able(s, Go(t)) && Possible(cfg, s, Go(t))
    ensures Inv(cfg, Step(cfg, s, Go(t)).s)
  {
    var call := s.threads[t].call;
    assert ThreadOk(s, t);
    if call.Flushing? {
      NodeKeeps(cfg, s, t, call.n, TwoLevel.DeallocEnd(s.threads[t].slots[call.n]), Idle);
    } else if Passing(s, call) {
      CallKeeps(cfg, s, t, if call.scan == Some(|s.nodes|) then Idle else Trying(call.chosen, Some(call.chosen + 1)));
    } else {
      GetCacheHas(s, t, At(call));
      GetCacheKeeps(cfg, s, t, At(call));
      AttemptKeeps(cfg, GetCache(s, t, At(call)), t, At(call));
    }
  }

  lemma StepKeeps(cfg: Config, s: State, a: Action)
    requires Inv(cfg, s) && Able(s, a)
    ensures Possible(cfg, s, a) && Inv(cfg, Step(cfg, s, a).s)
  {
    AblePossible(cfg, s, a);
    match a
    case CallAlloc(t, current) => CallKeeps(cfg, s, t, Trying(NumaSpec.Chosen(|s.nodes|, current), None));
    case Free(t, b) => FreeKeeps(cfg, s, t, b);
    case Go(t) => GoKeeps(cfg, s, t);
  }
}
