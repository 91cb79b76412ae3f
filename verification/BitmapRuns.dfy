/** What holds over every run of threads sharing bitmap regions. */
module BitmapRuns {
  import opened Words
  import opened Options
  import opened Regions
  import opened BitmapRegions

  datatype State = State(m: Machine, l: Ledger)

  predicate Can(cfg: Config, s: State, a: Action)
    requires Sound(cfg)
  {
    Runnable(cfg, s.m) && Enabled(cfg, s.m, s.l, a)
  }

  function Next(cfg: Config, s: State, a: Action): State
    requires Sound(cfg) && Can(cfg, s, a)
  {
    var o := Perform(cfg, s.m, a);
    State(o.m, Record(cfg, s.l, o.e))
  }

  /** Any interleaving of enabled steps. */
  predicate Runs(cfg: Config, s: State, acts: seq<Action>)
    requires Sound(cfg)
    decreases |acts|
  {
    acts == [] || (Can(cfg, s, acts[0]) && Runs(cfg, Next(cfg, s, acts[0]), acts[1..]))
  }

  function After(cfg: Config, s: State, acts: seq<Action>): State
    requires Sound(cfg) && Runs(cfg, s, acts)
    decreases |acts|
  {
    if acts == [] then s else After(cfg, Next(cfg, s, acts[0]), acts[1..])
  }

  function Events(cfg: Config, s: State, acts: seq<Action>): seq<Event>
    requires Sound(cfg) && Runs(cfg, s, acts)
    decreases |acts|
  {
    if acts == [] then []
    else [Perform(cfg, s.m, acts[0]).e] + Events(cfg, Next(cfg, s, acts[0]), acts[1..])
  }

  function Fresh(cfg: Config, threads: nat): State {
    State(IdleMachine(cfg, threads), Ledger(map[]))
  }

  lemma FreshInv(cfg: Config, threads: nat)
    requires Sound(cfg)
    ensures var s := Fresh(cfg, threads); Inv(cfg, s.m, s.l)
  {
  }

  /** The client's view: which slots are live, judged by the pointers that
      `alloc` returned and that were passed to `dealloc`. */
  function ObserveOne(cfg: Config, live: set<Slot>, e: Event): Option<set<Slot>>
    requires Sound(cfg)
  {
    match e
    case Granted(_, p) =>
      var s := Locate(cfg, p);
      if p == 0 then Some(live)
      else if s.Some? && s.value !in live then Some(live + {s.value})
      else None
    case Freeing(_, p) =>
      var s := Locate(cfg, p);
      if s.None? then Some(live)
      else if s.value in live then Some(live - {s.value})
      else None
    case _ => Some(live)
  }

  function Observe(cfg: Config, live: set<Slot>, es: seq<Event>): Option<set<Slot>>
    requires Sound(cfg)
    decreases |es|
  {
    if es == [] then Some(live)
    else
      var next := ObserveOne(cfg, live, es[0]);
      if next.None? then None else Observe(cfg, next.value, es[1..])
  }

  function Live(l: Ledger): set<Slot> { set s | s in l.holder && l.holder[s] == Client }

  lemma StepObserved(cfg: Config, s: State, a: Action)
    requires Sound(cfg) && Inv(cfg, s.m, s.l) && Can(cfg, s, a)
    ensures ObserveOne(cfg, Live(s.l), Perform(cfg, s.m, a).e) == Some(Live(Next(cfg, s, a).l))
  {
    StepKeeps(cfg, s.m, s.l, a);
    NullNowhere(cfg);
    var e := Perform(cfg, s.m, a).e;
    LiveAfter(cfg, s.l, e);
    if e.Freeing? {
      assert a.CallDealloc? && a.p == e.p;
    }
  }

  lemma LiveAfter(cfg: Config, l: Ledger, e: Event)
    requires Sound(cfg) && EventOk(cfg, l, e)
    ensures Live(Record(cfg, l, e)) ==
      match e
      case Granted(_, p) => if Locate(cfg, p).Some? then Live(l) + {Locate(cfg, p).value} else Live(l)
      case Freeing(_, p) => if Locate(cfg, p).Some? then Live(l) - {Locate(cfg, p).value} else Live(l)
      case _ => Live(l)
  {
  }

  lemma {:induction false} RunKeeps(cfg: Config, s: State, acts: seq<Action>)
    requires Sound(cfg) && Inv(cfg, s.m, s.l) && Runs(cfg, s, acts)
    ensures var s' := After(cfg, s, acts); Inv(cfg, s'.m, s'.l)
    ensures Observe(cfg, Live(s.l), Events(cfg, s, acts)) == Some(Live(After(cfg, s, acts).l))
    decreases |acts|
  {
    if acts != [] {
      StepKeeps(cfg, s.m, s.l, acts[0]);
      StepObserved(cfg, s, acts[0]);
      RunKeeps(cfg, Next(cfg, s, acts[0]), acts[1..]);
      assert Events(cfg, s, acts)[1..] == Events(cfg, Next(cfg, s, acts[0]), acts[1..]);
    }
  }

  /** No run hands out a block twice, or a pointer outside the regions; freed
      blocks are exactly those the clients freed. */
  lemma NeverTwice(cfg: Config, threads: nat, acts: seq<Action>)
    requires Sound(cfg) && Runs(cfg, Fresh(cfg, threads), acts)
    ensures Observe(cfg, {}, Events(cfg, Fresh(cfg, threads), acts)) ==
      Some(Live(After(cfg, Fresh(cfg, threads), acts).l))
  {
    FreshInv(cfg, threads);
    assert Live(Fresh(cfg, threads).l) == {};
    RunKeeps(cfg, Fresh(cfg, threads), acts);
  }

  /** In every reachable state a bit is set exactly when one party holds it, and
      no claim, undo or free touches a bit that another party holds. */
  lemma BitsHaveHolders(cfg: Config, threads: nat, acts: seq<Action>, a: Action)
    requires Sound(cfg) && Runs(cfg, Fresh(cfg, threads), acts)
    ensures var s := After(cfg, Fresh(cfg, threads), acts);
      && Runnable(cfg, s.m) && BitsInv(cfg, s.m, s.l)
      && (Can(cfg, s, a) ==> EventOk(cfg, s.l, Perform(cfg, s.m, a).e))
  {
    FreshInv(cfg, threads);
    RunKeeps(cfg, Fresh(cfg, threads), acts);
    var s := After(cfg, Fresh(cfg, threads), acts);
    if Can(cfg, s, a) {
      StepKeeps(cfg, s.m, s.l, a);
    }
  }

  /** When no operation is in flight, every set bit is that of a live block and
      the padding bits are clear. */
  lemma PaddingClear(cfg: Config, threads: nat, acts: seq<Action>, x: Slot)
    requires Sound(cfg) && Runs(cfg, Fresh(cfg, threads), acts)
    requires var s := After(cfg, Fresh(cfg, threads), acts);
      forall t :: 0 <= t < |s.m.threads| ==> s.m.threads[t].pc.Idle?
    requires InRange(cfg, x)
    ensures var s := After(cfg, Fresh(cfg, threads), acts);
      && Runnable(cfg, s.m)
      && (BitAt(cfg, s.m, x) <==> x in Live(s.l))
      && (IndexOf(x) >= cfg.count ==> !BitAt(cfg, s.m, x))
  {
    FreshInv(cfg, threads);
    RunKeeps(cfg, Fresh(cfg, threads), acts);
    var s := After(cfg, Fresh(cfg, threads), acts);
    assert forall t :: 0 <= t < |s.m.threads| ==> Burden(cfg, s.m.threads[t]).None?;
  }

  /** `dealloc` acts on the one region that contains the pointer; for null and
      foreign pointers nothing at all changes. */
  lemma {:induction false} FreeTargets(cfg: Config, m: Machine, t: nat, p: nat)
    requires Runnable(cfg, m) && t < |m.threads| && m.threads[t].pc == Clear(p)
    ensures Locate(cfg, p).None? <==> forall r :: 0 <= r < |cfg.bases| ==> !Inside(cfg, r, p)
    ensures Locate(cfg, p).None? ==> Perform(cfg, m, Tick(t, false)).m == Goto(m, t, Idle)
    ensures forall r :: 0 <= r < |cfg.bases| && Inside(cfg, r, p) ==> Locate(cfg, p).value.region == r
    ensures Locate(cfg, p).Some? ==>
      var m' := Perform(cfg, m, Tick(t, false)).m;
      Runnable(cfg, m') && OnlyBit(cfg, m, m', Locate(cfg, p).value, false)
  {
    if Locate(cfg, p).Some? {
      var s := Locate(cfg, p).value;
      WordStep(cfg, m, t, s, m.regions[s.region].words[s.word] - {s.bit}, StoreHint(s.region, s.word));
    }
  }
}
