/** What every run of the free list's machine keeps, whoever owns the blocks and
    however often the tag has gone round: progress, the lock and the tag. */
module TaggedStackProgress {
  import opened Options
  import opened TaggedStack
  import opened Counting

  /** The step can be taken: a thread makes one call at a time. Nothing is
      asked about who owns which block. */
  predicate Able(m: Machine, a: Action) {
    match a
    case Tick(t, _) => t < |m.threads|
    case Invoke(t, op) => t < |m.threads| && m.threads[t].task.Outside? && (op.PushBulk? ==> |op.batch| > 0)
    case Scribble(_, _) => true
  }

  predicate Executes(m: Machine, acts: seq<Action>)
    decreases |acts|
  {
    acts == [] || (Able(m, acts[0]) && Executes(Perform(m, acts[0]).m, acts[1..]))
  }

  function Reached(m: Machine, acts: seq<Action>): Machine
    requires Executes(m, acts)
    decreases |acts|
  {
    if acts == [] then m else Reached(Perform(m, acts[0]).m, acts[1..])
  }

  function Trace(m: Machine, acts: seq<Action>): seq<Event>
    requires Executes(m, acts)
    decreases |acts|
  {
    if acts == [] then [] else [Perform(m, acts[0]).e] + Trace(Perform(m, acts[0]).m, acts[1..])
  }

  /** A new free list; the blocks have any contents. */
  function Idle(mem: map<Block, Ptr>, threads: nat): Machine {
    Machine(Head(Null, 0), mem, None, seq(threads, _ => Thread(Outside, Between)))
  }

  function CountSuccesses(es: seq<Event>): nat
    decreases |es|
  {
    if es == [] then 0 else (if es[0].Pushed? || es[0].Popped? then 1 else 0) + CountSuccesses(es[1..])
  }

  function CountFailures(es: seq<Event>): nat
    decreases |es|
  {
    if es == [] then 0 else (if es[0].Failed? && es[0].genuine then 1 else 0) + CountFailures(es[1..])
  }

  // ------------------------------------------------------------------
  // The meter
  // ------------------------------------------------------------------

  /** Head changes, failures because the head differed, and the number of head
      changes at each thread's latest load. */
  datatype Meter = Meter(changes: nat, failures: nat, at: seq<nat>)

  function Count(k: Meter, e: Event): Meter {
    match e
    case Loaded(t) => if t < |k.at| then k.(at := k.at[t := k.changes]) else k
    case Pushed(_, _) => k.(changes := k.changes + 1)
    case Popped(_, _) => k.(changes := k.changes + 1)
    case Failed(_, genuine) => if genuine then k.(failures := k.failures + 1) else k
    case _ => k
  }

  predicate HasSeen(pc: Pc) { pc.PushLink? || pc.PushCas? || pc.PopNext? || pc.PopCas? }

  /** The head a thread has loaded. */
  function Seen(pc: Pc): Head
    requires HasSeen(pc)
  {
    match pc
    case PushLink(_, seen) => seen
    case PushCas(_, seen) => seen
    case PopNext(top, tag) => Head(At(top), tag)
    case PopCas(top, tag, _) => Head(At(top), tag)
  }

  /** A thread whose loaded head differs from the current one loaded it before
      the latest change. */
  predicate UpToDate(m: Machine, k: Meter, t: nat)
    requires t < |m.threads| && t < |k.at|
  {
    HasSeen(m.threads[t].pc) ==> k.at[t] <= k.changes && (k.at[t] == k.changes ==> Seen(m.threads[t].pc) == m.head)
  }

  /** Pushes and pops occur in the tasks that make them. */
  predicate Paired(thread: Thread) {
    && (PushPc(thread.pc) ==> thread.task.OnePush? || thread.task.PushBulkPush?)
    && (PopPc(thread.pc) ==> thread.task.OnePop? || thread.task.PopBulkFirst? || thread.task.PopBulkMore?)
    && (thread.pc.Between? ==> !thread.task.OnePush? && !thread.task.PushBulkPush?)
    && (thread.pc.Between? ==> !thread.task.OnePop? && !thread.task.PopBulkFirst? && !thread.task.PopBulkMore?)
  }

  ghost predicate MeterInv(m: Machine, k: Meter) {
    && |k.at| == |m.threads|
    && m.head.tag == k.changes % TAGS
    && LockInv(m)
    && (forall t :: 0 <= t < |m.threads| ==> Paired(m.threads[t]) && UpToDate(m, k, t))
  }

  /** A step changes the state and the load of one thread at most. */
  lemma OneMoves(m: Machine, k: Meter, a: Action)
    requires Able(m, a) && |k.at| == |m.threads|
    ensures var o := Perform(m, a);
      && |o.m.threads| == |m.threads| == |Count(k, o.e).at|
      && (a.Scribble? ==> o.m.threads == m.threads && o.m.head == m.head && o.m.lock == m.lock && Count(k, o.e) == k)
      && (!a.Scribble? ==> forall u :: 0 <= u < |m.threads| && u != a.t ==>
            o.m.threads[u] == m.threads[u] && Count(k, o.e).at[u] == k.at[u])
  {
  }

  lemma HeadMoves(m: Machine, k: Meter, a: Action)
    requires Able(m, a) && m.head.tag == k.changes % TAGS
    ensures var o := Perform(m, a);
      && o.m.head.tag == Count(k, o.e).changes % TAGS
      && k.changes <= Count(k, o.e).changes
      && (Count(k, o.e).changes == k.changes ==> o.m.head == m.head)
  {
  }

  lemma OwnUpToDate(m: Machine, k: Meter, a: Action)
    requires Able(m, a) && !a.Scribble? && |k.at| == |m.threads|
    requires Paired(m.threads[a.t]) && UpToDate(m, k, a.t)
    ensures var o := Perform(m, a);
      |Count(k, o.e).at| == |o.m.threads| == |m.threads| && Paired(o.m.threads[a.t])
        && UpToDate(o.m, Count(k, o.e), a.t)
  {
  }

  /** The lock is taken when free, released by its holder, and kept otherwise. */
  lemma LockMoves(m: Machine, a: Action)
    requires Able(m, a) && !a.Scribble? && Paired(m.threads[a.t])
    ensures var o, own := Perform(m, a), m.threads[a.t].task;
      var now := HoldsLock(o.m.threads[a.t].task);
      if HoldsLock(own) == now then o.m.lock == m.lock
      else if now then m.lock == None && o.m.lock == Some(a.t)
      else o.m.lock == None
  {
  }

  lemma LockKept(m: Machine, m': Machine, t: nat)
    requires LockInv(m) && t < |m.threads| == |m'.threads|
    requires forall u :: 0 <= u < |m.threads| && u != t ==> m'.threads[u] == m.threads[u]
    requires var now := HoldsLock(m'.threads[t].task);
      if HoldsLock(m.threads[t].task) == now then m'.lock == m.lock
      else if now then m.lock == None && m'.lock == Some(t)
      else m'.lock == None
    ensures LockInv(m')
  {
  }

  lemma StepMeter(m: Machine, k: Meter, a: Action)
    requires MeterInv(m, k) && Able(m, a)
    ensures var o := Perform(m, a); MeterInv(o.m, Count(k, o.e))
  {
    var o := Perform(m, a);
    OneMoves(m, k, a);
    HeadMoves(m, k, a);
    if !a.Scribble? {
      OwnUpToDate(m, k, a);
      LockMoves(m, a);
      LockKept(m, o.m, a.t);
    }
    forall t | 0 <= t < |o.m.threads| ensures Paired(o.m.threads[t]) && UpToDate(o.m, Count(k, o.e), t) {
      assert Paired(m.threads[t]) && UpToDate(m, k, t);
    }
  }

  // ------------------------------------------------------------------
  // Failures are paid for by successes
  // ------------------------------------------------------------------

  predicate IsStale(m: Machine, k: Meter, t: nat) {
    t < |m.threads| && t < |k.at| && HasSeen(m.threads[t].pc) && k.at[t] < k.changes
  }

  /** The threads whose loaded head is out of date. */
  function Stale(m: Machine, k: Meter): set<nat> {
    set t | 0 <= t < |m.threads| && IsStale(m, k, t)
  }

  /** Failures so far plus failures still to come from loads already made. */
  ghost predicate Bounded(m: Machine, k: Meter) {
    k.failures + |Stale(m, k)| <= (|m.threads| - 1) * k.changes
  }

  /** A thread that succeeds has to load the head again. */
  lemma SuccessReloads(m: Machine, k: Meter, a: Action)
    requires Able(m, a) && (Perform(m, a).e.Pushed? || Perform(m, a).e.Popped?)
    ensures var o := Perform(m, a);
      && a.Tick? && |o.m.threads| == |m.threads| && !HasSeen(o.m.threads[a.t].pc)
      && Count(k, o.e) == k.(changes := k.changes + 1)
  {
  }

  lemma OthersStale(m: Machine, k: Meter, t: nat)
    requires t < |m.threads| && !HasSeen(m.threads[t].pc)
    ensures |Stale(m, k)| <= |m.threads| - 1
  {
    assert Stale(m, k) <= Ids(|m.threads|) - {t};
    SubsetCount(Stale(m, k), Ids(|m.threads|) - {t});
  }

  lemma OneMoreChange(m: Machine, m': Machine, k: Meter, t: nat)
    requires Bounded(m, k) && t < |m.threads| == |m'.threads| && !HasSeen(m'.threads[t].pc)
    ensures Bounded(m', k.(changes := k.changes + 1))
  {
    OthersStale(m', k.(changes := k.changes + 1), t);
    Distribute(|m.threads| - 1, k.changes);
  }

  /** A thread that fails because the head differs had an outdated head, and
      loads the head again. */
  lemma OwnStale(m: Machine, k: Meter, a: Action)
    requires Able(m, a) && !a.Scribble? && |k.at| == |m.threads| && UpToDate(m, k, a.t)
    requires var e := Perform(m, a).e; !e.Pushed? && !e.Popped?
    ensures var o := Perform(m, a);
      && (IsStale(o.m, Count(k, o.e), a.t) ==> IsStale(m, k, a.t))
      && (o.e.Failed? ==> !IsStale(o.m, Count(k, o.e), a.t))
      && (o.e.Failed? && o.e.genuine ==> IsStale(m, k, a.t))
  {
  }

  lemma OtherBounded(m: Machine, k: Meter, a: Action)
    requires Able(m, a) && |k.at| == |m.threads| && Bounded(m, k)
    requires !a.Scribble? ==> UpToDate(m, k, a.t)
    requires var e := Perform(m, a).e; !e.Pushed? && !e.Popped?
    ensures Bounded(Perform(m, a).m, Count(k, Perform(m, a).e))
  {
    var o := Perform(m, a);
    var k' := Count(k, o.e);
    OneMoves(m, k, a);
    if !a.Scribble? {
      OwnStale(m, k, a);
    }
    assert forall u :: u in Stale(o.m, k') ==> IsStale(m, k, u);
    if o.e.Failed? && o.e.genuine {
      SubsetCount(Stale(o.m, k'), Stale(m, k) - {a.t});
    } else {
      SubsetCount(Stale(o.m, k'), Stale(m, k));
    }
  }

  lemma StepBounded(m: Machine, k: Meter, a: Action)
    requires MeterInv(m, k) && Able(m, a) && Bounded(m, k)
    ensures Bounded(Perform(m, a).m, Count(k, Perform(m, a).e))
  {
    var e := Perform(m, a).e;
    if e.Pushed? || e.Popped? {
      SuccessReloads(m, k, a);
      OneMoreChange(m, Perform(m, a).m, k, a.t);
    } else {
      OtherBounded(m, k, a);
    }
  }

  lemma {:induction false} RunMeter(m: Machine, k: Meter, acts: seq<Action>) returns (k': Meter)
    requires MeterInv(m, k) && Bounded(m, k) && Executes(m, acts)
    ensures MeterInv(Reached(m, acts), k') && Bounded(Reached(m, acts), k')
    ensures |Reached(m, acts).threads| == |m.threads|
    ensures k'.changes == k.changes + CountSuccesses(Trace(m, acts))
    ensures k'.failures == k.failures + CountFailures(Trace(m, acts))
    decreases |acts|
  {
    k' := k;
    if acts != [] {
      var o := Perform(m, acts[0]);
      OneMoves(m, k, acts[0]);
      StepMeter(m, k, acts[0]);
      StepBounded(m, k, acts[0]);
      k' := RunMeter(o.m, Count(k, o.e), acts[1..]);
      assert Trace(m, acts)[1..] == Trace(o.m, acts[1..]);
    }
  }

  lemma IdleMeter(mem: map<Block, Ptr>, threads: nat) returns (k: Meter)
    ensures MeterInv(Idle(mem, threads), k) && Bounded(Idle(mem, threads), k)
    ensures k.changes == 0 && k.failures == 0
  {
    k := Meter(0, 0, seq(threads, _ => 0));
    assert Stale(Idle(mem, threads), k) == {};
  }

  /** A compare-exchange on a head that is not the one loaded. */
  predicate Misses(m: Machine, a: Action) {
    && a.Tick? && a.t < |m.threads|
    && var pc := m.threads[a.t].pc;
    && (pc.PushCas? || pc.PopCas?) && Seen(pc) != m.head
  }

  /** How often the machine does that in a run. */
  function CountMisses(m: Machine, acts: seq<Action>): nat
    requires Executes(m, acts)
    decreases |acts|
  {
    if acts == [] then 0
    else (if Misses(m, acts[0]) then 1 else 0) + CountMisses(Perform(m, acts[0]).m, acts[1..])
  }

  /** How often the head changes in a run. */
  function CountChanges(m: Machine, acts: seq<Action>): nat
    requires Executes(m, acts)
    decreases |acts|
  {
    if acts == [] then 0
    else
      var m' := Perform(m, acts[0]).m;
      (if m'.head != m.head then 1 else 0) + CountChanges(m', acts[1..])
  }

  /** The events tell of every miss, and of every change of the head. */
  lemma EventsTell(m: Machine, a: Action)
    requires Able(m, a)
    ensures var o := Perform(m, a);
      && (Misses(m, a) <==> o.e.Failed? && o.e.genuine)
      && (o.m.head != m.head <==> o.e.Pushed? || o.e.Popped?)
  {
  }

  lemma {:induction false} CountsAgree(m: Machine, acts: seq<Action>)
    requires Executes(m, acts)
    ensures CountMisses(m, acts) == CountFailures(Trace(m, acts))
    ensures CountChanges(m, acts) == CountSuccesses(Trace(m, acts))
    decreases |acts|
  {
    if acts != [] {
      var m' := Perform(m, acts[0]).m;
      EventsTell(m, acts[0]);
      CountsAgree(m', acts[1..]);
      assert Trace(m, acts)[1..] == Trace(m', acts[1..]);
    }
  }

  /** Lock freedom: every compare-exchange on a head that has moved is paid for by
      a change of the head, at most once per other thread. */
  lemma LockFree(mem: map<Block, Ptr>, threads: nat, acts: seq<Action>)
    requires Executes(Idle(mem, threads), acts)
    ensures CountMisses(Idle(mem, threads), acts) <= (threads - 1) * CountChanges(Idle(mem, threads), acts)
    ensures var es := Trace(Idle(mem, threads), acts);
      CountFailures(es) <= (threads - 1) * CountSuccesses(es)
  {
    var k := IdleMeter(mem, threads);
    var k' := RunMeter(Idle(mem, threads), k, acts);
    CountsAgree(Idle(mem, threads), acts);
  }

  /** `bulk_lock` admits one bulk operation at a time. */
  lemma BulkExclusive(mem: map<Block, Ptr>, threads: nat, acts: seq<Action>, t: nat, u: nat)
    requires Executes(Idle(mem, threads), acts)
    requires var m := Reached(Idle(mem, threads), acts);
      t < |m.threads| && u < |m.threads| && HoldsLock(m.threads[t].task) && HoldsLock(m.threads[u].task)
    ensures t == u
  {
    var k := IdleMeter(mem, threads);
    var k' := RunMeter(Idle(mem, threads), k, acts);
  }

  /** The tag counts successful compare-exchanges modulo 2^64. */
  lemma TagCountsChanges(mem: map<Block, Ptr>, threads: nat, acts: seq<Action>)
    requires Executes(Idle(mem, threads), acts)
    ensures Reached(Idle(mem, threads), acts).head.tag == CountSuccesses(Trace(Idle(mem, threads), acts)) % TAGS
    ensures Reached(Idle(mem, threads), acts).head.tag == CountChanges(Idle(mem, threads), acts) % TAGS
  {
    var k := IdleMeter(mem, threads);
    var k' := RunMeter(Idle(mem, threads), k, acts);
    CountsAgree(Idle(mem, threads), acts);
  }
}
