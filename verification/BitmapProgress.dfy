/** Progress of the bitmap protocol in every run of its machine, whoever owns the
    blocks: failed compare-exchanges are paid for by changes of words. */
module BitmapProgress {
  import opened Options
  import opened Words
  import opened Regions
  import opened BitmapRegions
  import opened Counting

  predicate Executes(cfg: Config, m: Machine, acts: seq<Action>)
    decreases |acts|
  {
    Runnable(cfg, m) &&
    (acts == [] || (acts[0].t < |m.threads| && Executes(cfg, Perform(cfg, m, acts[0]).m, acts[1..])))
  }

  function Trace(cfg: Config, m: Machine, acts: seq<Action>): seq<Event>
    requires Executes(cfg, m, acts)
    decreases |acts|
  {
    if acts == [] then []
    else [Perform(cfg, m, acts[0]).e] + Trace(cfg, Perform(cfg, m, acts[0]).m, acts[1..])
  }

  /** A claim, an undo or a free. */
  predicate IsChange(e: Event) { e.Claimed? || e.Cleared? }

  predicate IsFailure(e: Event) { e.Failed? && e.genuine }

  function CountChanges(es: seq<Event>): nat
    decreases |es|
  {
    if es == [] then 0 else (if IsChange(es[0]) then 1 else 0) + CountChanges(es[1..])
  }

  function CountFailures(es: seq<Event>): nat
    decreases |es|
  {
    if es == [] then 0 else (if IsFailure(es[0]) then 1 else 0) + CountFailures(es[1..])
  }

  // ------------------------------------------------------------------
  // Steps and words
  // ------------------------------------------------------------------

  lemma StepFrame(cfg: Config, m: Machine, a: Action)
    requires Runnable(cfg, m) && a.t < |m.threads|
    ensures var o := Perform(cfg, m, a);
      && |o.m.threads| == |m.threads|
      && (forall u :: 0 <= u < |m.threads| && u != a.t ==> o.m.threads[u] == m.threads[u])
  {
  }

  predicate SameWords(m: Machine, m': Machine) {
    |m'.regions| == |m.regions| && forall r :: 0 <= r < |m.regions| ==> m'.regions[r].words == m.regions[r].words
  }

  /** Only a change changes words, and it leaves its thread without a loaded word. */
  lemma StepWords(cfg: Config, m: Machine, a: Action)
    requires Runnable(cfg, m) && a.t < |m.threads|
    ensures var o := Perform(cfg, m, a);
      && |o.m.threads| == |m.threads|
      && (if IsChange(o.e) then !o.m.threads[a.t].pc.Cas? else SameWords(m, o.m))
  {
  }

  lemma StepShaped(cfg: Config, m: Machine, a: Action)
    requires Runnable(cfg, m) && a.t < |m.threads|
    ensures Shaped(cfg, Perform(cfg, m, a).m)
  {
  }

  predicate Searching(pc: Pc) { pc.LoadHint? || pc.LoadWord? || pc.Cas? || pc.Settle? }

  predicate OkIn(cfg: Config, m: Machine, t: nat) {
    && t < |m.threads| && PcOk(cfg, m.threads[t])
    && (m.threads[t].home.Some? ==> m.threads[t].home.value < |cfg.bases|)
  }

  lemma SearchOk(cfg: Config, m: Machine, t: nat, weak: bool)
    requires Runnable(cfg, m) && t < |m.threads| && Searching(m.threads[t].pc)
    ensures OkIn(cfg, TickAlloc(cfg, m, t, weak).m, t)
  {
  }

  lemma RestOk(cfg: Config, m: Machine, a: Action)
    requires Runnable(cfg, m) && a.t < |m.threads| && (a.Tick? ==> !Searching(m.threads[a.t].pc))
    ensures OkIn(cfg, Perform(cfg, m, a).m, a.t)
  {
  }

  lemma OwnOk(cfg: Config, m: Machine, a: Action)
    requires Runnable(cfg, m) && a.t < |m.threads|
    ensures OkIn(cfg, Perform(cfg, m, a).m, a.t)
  {
    if a.Tick? && Searching(m.threads[a.t].pc) {
      SearchOk(cfg, m, a.t, a.weak);
    } else {
      RestOk(cfg, m, a);
    }
  }

  /** Every step of every thread can be followed by any other. */
  lemma StepRunnable(cfg: Config, m: Machine, a: Action)
    requires Runnable(cfg, m) && a.t < |m.threads|
    ensures Runnable(cfg, Perform(cfg, m, a).m) && |Perform(cfg, m, a).m.threads| == |m.threads|
  {
    StepFrame(cfg, m, a);
    StepShaped(cfg, m, a);
    OwnOk(cfg, m, a);
  }

  lemma {:induction false} AlwaysExecutes(cfg: Config, m: Machine, acts: seq<Action>)
    requires Runnable(cfg, m) && forall i :: 0 <= i < |acts| ==> acts[i].t < |m.threads|
    ensures Executes(cfg, m, acts)
    decreases |acts|
  {
    if acts != [] {
      StepRunnable(cfg, m, acts[0]);
      assert forall i :: 0 <= i < |acts[1..]| ==> acts[1..][i] == acts[i + 1];
      AlwaysExecutes(cfg, Perform(cfg, m, acts[0]).m, acts[1..]);
    }
  }

  // ------------------------------------------------------------------
  // The meter
  // ------------------------------------------------------------------

  /** Changes of words, failures because the word differed, and the number of
      changes at each thread's latest load of a word. */
  datatype Meter = Meter(changes: nat, failures: nat, at: seq<nat>)

  function Count(k: Meter, a: Action, o: Outcome): Meter {
    Meter(k.changes + (if IsChange(o.e) then 1 else 0),
          k.failures + (if IsFailure(o.e) then 1 else 0),
          if a.t < |k.at| && a.t < |o.m.threads| && o.m.threads[a.t].pc.Cas? then k.at[a.t := k.changes] else k.at)
  }

  /** The word a thread has loaded is the current one unless a word has changed. */
  predicate UpToDate(cfg: Config, m: Machine, k: Meter, t: nat)
    requires Runnable(cfg, m) && t < |m.threads| && t < |k.at|
  {
    var Thread(home, pc) := m.threads[t];
    pc.Cas? ==> k.at[t] <= k.changes && (k.at[t] == k.changes ==> m.regions[home.value].words[pc.w] == pc.word)
  }

  ghost predicate MeterInv(cfg: Config, m: Machine, k: Meter) {
    && Runnable(cfg, m) && |k.at| == |m.threads|
    && (forall t :: 0 <= t < |m.threads| ==> UpToDate(cfg, m, k, t))
  }

  lemma OwnUpToDate(cfg: Config, m: Machine, k: Meter, a: Action)
    requires Runnable(cfg, m) && a.t < |m.threads| == |k.at| && UpToDate(cfg, m, k, a.t)
    ensures var o := Perform(cfg, m, a);
      && Runnable(cfg, o.m) && |Count(k, a, o).at| == |m.threads| == |o.m.threads|
      && UpToDate(cfg, o.m, Count(k, a, o), a.t)
  {
    StepRunnable(cfg, m, a);
    StepWords(cfg, m, a);
  }

  lemma StepMeter(cfg: Config, m: Machine, k: Meter, a: Action)
    requires MeterInv(cfg, m, k) && a.t < |m.threads|
    ensures MeterInv(cfg, Perform(cfg, m, a).m, Count(k, a, Perform(cfg, m, a)))
  {
    var o := Perform(cfg, m, a);
    OwnUpToDate(cfg, m, k, a);
    StepFrame(cfg, m, a);
    StepWords(cfg, m, a);
    forall t | 0 <= t < |o.m.threads| && t != a.t ensures UpToDate(cfg, o.m, Count(k, a, o), t) {
      assert UpToDate(cfg, m, k, t);
    }
  }

  // ------------------------------------------------------------------
  // Failures are paid for by changes
  // ------------------------------------------------------------------

  predicate IsStale(m: Machine, k: Meter, t: nat) {
    t < |m.threads| && t < |k.at| && m.threads[t].pc.Cas? && k.at[t] < k.changes
  }

  function Stale(m: Machine, k: Meter): set<nat> {
    set t | 0 <= t < |m.threads| && IsStale(m, k, t)
  }

  ghost predicate Bounded(m: Machine, k: Meter) {
    k.failures + |Stale(m, k)| <= (|m.threads| - 1) * k.changes
  }

  lemma OthersStale(m: Machine, k: Meter, t: nat)
    requires t < |m.threads| && !m.threads[t].pc.Cas?
    ensures |Stale(m, k)| <= |m.threads| - 1
  {
    assert Stale(m, k) <= Ids(|m.threads|) - {t};
    SubsetCount(Stale(m, k), Ids(|m.threads|) - {t});
  }

  lemma ChangeBounded(cfg: Config, m: Machine, k: Meter, a: Action)
    requires Runnable(cfg, m) && a.t < |m.threads| && Bounded(m, k) && IsChange(Perform(cfg, m, a).e)
    ensures Bounded(Perform(cfg, m, a).m, Count(k, a, Perform(cfg, m, a)))
  {
    var o := Perform(cfg, m, a);
    StepWords(cfg, m, a);
    OthersStale(o.m, Count(k, a, o), a.t);
    Distribute(|m.threads| - 1, k.changes);
  }

  /** A thread that fails because the word differs had an outdated word, and has
      loaded the word again. */
  lemma OwnStale(cfg: Config, m: Machine, k: Meter, a: Action)
    requires Runnable(cfg, m) && a.t < |m.threads| == |k.at| && UpToDate(cfg, m, k, a.t)
    requires !IsChange(Perform(cfg, m, a).e)
    ensures var o := Perform(cfg, m, a);
      && !IsStale(o.m, Count(k, a, o), a.t)
      && (IsFailure(o.e) ==> IsStale(m, k, a.t))
  {
  }

  lemma RestBounded(cfg: Config, m: Machine, k: Meter, a: Action)
    requires MeterInv(cfg, m, k) && a.t < |m.threads| && Bounded(m, k) && !IsChange(Perform(cfg, m, a).e)
    ensures Bounded(Perform(cfg, m, a).m, Count(k, a, Perform(cfg, m, a)))
  {
    var o := Perform(cfg, m, a);
    var k' := Count(k, a, o);
    StepFrame(cfg, m, a);
    assert UpToDate(cfg, m, k, a.t);
    OwnStale(cfg, m, k, a);
    assert forall u :: u in Stale(o.m, k') ==> IsStale(m, k, u);
    if IsFailure(o.e) {
      SubsetCount(Stale(o.m, k'), Stale(m, k) - {a.t});
    } else {
      SubsetCount(Stale(o.m, k'), Stale(m, k));
    }
  }

  lemma {:induction false} RunMeter(cfg: Config, m: Machine, k: Meter, acts: seq<Action>) returns (k': Meter)
    requires MeterInv(cfg, m, k) && Bounded(m, k) && Executes(cfg, m, acts)
    ensures k'.changes == k.changes + CountChanges(Trace(cfg, m, acts))
    ensures k'.failures == k.failures + CountFailures(Trace(cfg, m, acts))
    ensures k'.failures <= (|m.threads| - 1) * k'.changes
    decreases |acts|
  {
    k' := k;
    if acts != [] {
      var o := Perform(cfg, m, acts[0]);
      StepMeter(cfg, m, k, acts[0]);
      if IsChange(o.e) {
        ChangeBounded(cfg, m, k, acts[0]);
      } else {
        RestBounded(cfg, m, k, acts[0]);
      }
      k' := RunMeter(cfg, o.m, Count(k, acts[0], o), acts[1..]);
      assert Trace(cfg, m, acts)[1..] == Trace(cfg, o.m, acts[1..]);
    }
  }

  /** A compare-exchange on a word that is not the one read. */
  predicate Misses(cfg: Config, m: Machine, a: Action)
    requires Runnable(cfg, m) && a.t < |m.threads|
  {
    && a.Tick? && m.threads[a.t].pc.Cas?
    && m.regions[m.threads[a.t].home.value].words[m.threads[a.t].pc.w] != m.threads[a.t].pc.word
  }

  /** How often the machine does that in a run. */
  function CountMisses(cfg: Config, m: Machine, acts: seq<Action>): nat
    requires Executes(cfg, m, acts)
    decreases |acts|
  {
    if acts == [] then 0
    else (if Misses(cfg, m, acts[0]) then 1 else 0) + CountMisses(cfg, Perform(cfg, m, acts[0]).m, acts[1..])
  }

  lemma EventsTell(cfg: Config, m: Machine, a: Action)
    requires Runnable(cfg, m) && a.t < |m.threads|
    ensures Misses(cfg, m, a) <==> IsFailure(Perform(cfg, m, a).e)
  {
  }

  lemma {:induction false} MissesAgree(cfg: Config, m: Machine, acts: seq<Action>)
    requires Executes(cfg, m, acts)
    ensures CountMisses(cfg, m, acts) == CountFailures(Trace(cfg, m, acts))
    decreases |acts|
  {
    if acts != [] {
      var m' := Perform(cfg, m, acts[0]).m;
      EventsTell(cfg, m, acts[0]);
      MissesAgree(cfg, m', acts[1..]);
      assert Trace(cfg, m, acts)[1..] == Trace(cfg, m', acts[1..]);
    }
  }

  /** In every run from a new allocator, with any calls of any threads: the
      compare-exchanges that fail because the word differs are at most
      (threads - 1) times the claims, undos and frees. */
  lemma {:induction false} WordLockFree(cfg: Config, threads: nat, acts: seq<Action>)
    requires Sound(cfg) && forall i :: 0 <= i < |acts| ==> acts[i].t < threads
    ensures Executes(cfg, IdleMachine(cfg, threads), acts)
    ensures var es := Trace(cfg, IdleMachine(cfg, threads), acts);
      && CountFailures(es) <= (threads - 1) * CountChanges(es)
      && CountMisses(cfg, IdleMachine(cfg, threads), acts) <= (threads - 1) * CountChanges(es)
  {
    var m, k := IdleMachine(cfg, threads), Meter(0, 0, seq(threads, _ => 0));
    AlwaysExecutes(cfg, m, acts);
    assert Stale(m, k) == {};
    var k' := RunMeter(cfg, m, k, acts);
    MissesAgree(cfg, m, acts);
  }
}
