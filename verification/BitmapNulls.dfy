/** What a null answer means while other threads allocate and free: which words
    had no block left at some moment of the call. */
module BitmapNulls {
  import opened Words
  import opened Options
  import opened Regions
  import opened BitmapRegions
  import opened BitmapRuns
  import Bitmap

  /** Every block of word `w` of region `r` is taken. */
  predicate Spent(cfg: Config, m: Machine, r: nat, w: nat) {
    && r < |m.regions| && w < |m.regions[r].words|
    && forall b :: 0 <= b < 64 && w * 64 + b < cfg.count ==> b in m.regions[r].words[w]
  }

  predicate SpentAtHome(cfg: Config, m: Machine, t: nat, w: nat) {
    t < |m.threads| && m.threads[t].home.Some? && Spent(cfg, m, m.threads[t].home.value, w)
  }

  // ------------------------------------------------------------------
  // An observer beside the machine
  // ------------------------------------------------------------------

  /** The hint that a thread's call loaded, and the words of its region that
      were spent at some moment since the call began. */
  datatype Watch = Watch(start: nat, spent: set<nat>)

  function Look(cfg: Config, m': Machine, a: Action, t: nat, w: Watch): Watch
    requires t < |m'.threads|
  {
    var pc := m'.threads[t].pc;
    Watch(if pc.LoadWord? then pc.start else w.start,
          (if a == CallAlloc(t) then {} else w.spent) + set x | 0 <= x < WordCount(cfg) && SpentAtHome(cfg, m', t, x))
  }

  /** What the observer of thread `t` has seen over a run. */
  function Watched(cfg: Config, s: State, acts: seq<Action>, t: nat, w: Watch): Watch
    requires Sound(cfg) && Runs(cfg, s, acts) && t < |s.m.threads|
    decreases |acts|
  {
    if acts == [] then w
    else
      var s' := Next(cfg, s, acts[0]);
      ThreadsStay(cfg, s.m, acts[0]);
      Watched(cfg, s', acts[1..], t, Look(cfg, s'.m, acts[0], t, w))
  }

  lemma ThreadsStay(cfg: Config, m: Machine, a: Action)
    requires Runnable(cfg, m) && a.t < |m.threads|
    ensures var m' := Perform(cfg, m, a).m;
      |m'.threads| == |m.threads| && forall u :: 0 <= u < |m.threads| && u != a.t ==> m'.threads[u] == m.threads[u]
  {
  }

  // ------------------------------------------------------------------
  // What the probe loop has passed
  // ------------------------------------------------------------------

  predicate Passed(cfg: Config, start: nat, probe: nat, spent: set<nat>) {
    start < WordCount(cfg) && probe <= WordCount(cfg) &&
    forall q :: 0 <= q < probe ==> Bitmap.ProbeAt(start, q, WordCount(cfg)) in spent
  }

  /** Nothing was left from the hint on; without padding bits, nowhere. */
  predicate Gone(cfg: Config, w: Watch) {
    forall x :: 0 <= x < WordCount(cfg) && (cfg.count % 64 == 0 || w.start <= x) ==> x in w.spent
  }

  predicate WatchOk(cfg: Config, thread: Thread, w: Watch) {
    (WordCount(cfg) > 0 ==> w.start < WordCount(cfg)) &&
    match thread.pc
    case LoadWord(start, probe) => w.start == start && (WordCount(cfg) > 0 ==> Passed(cfg, start, probe, w.spent))
    case Cas(start, probe, x, word) =>
      && w.start == start && Passed(cfg, start, probe, w.spent)
      && probe < WordCount(cfg) && x == Bitmap.ProbeAt(start, probe, WordCount(cfg))
    case Settle(x, bit) => x * 64 + bit >= cfg.count ==> Gone(cfg, w)
    case Answer(p) => p == 0 ==> Gone(cfg, w)
    case _ => true
  }

  lemma WatchGrows(cfg: Config, thread: Thread, w: Watch, w': Watch)
    requires WatchOk(cfg, thread, w) && w.spent <= w'.spent && w'.start == w.start
    ensures WatchOk(cfg, thread, w')
  {
  }

  /** A probe that met a full word. */
  lemma PassedOne(cfg: Config, start: nat, probe: nat, spent: set<nat>, spent': set<nat>)
    requires Passed(cfg, start, probe, spent) && probe < WordCount(cfg) && spent <= spent'
    requires Bitmap.ProbeAt(start, probe, WordCount(cfg)) in spent'
    ensures Passed(cfg, start, probe + 1, spent')
  {
  }

  lemma PassedAll(cfg: Config, start: nat, w: Watch)
    requires WordCount(cfg) > 0 ==> Passed(cfg, start, WordCount(cfg), w.spent)
    ensures Gone(cfg, w)
  {
    forall x | 0 <= x < WordCount(cfg) ensures x in w.spent {
      var q := Bitmap.ProbeReaches(start, x, WordCount(cfg));
    }
  }

  /** A claim beyond the last block is one in the last word, all of whose blocks
      are taken, after all words from the hint on. */
  lemma PassedToPadding(cfg: Config, start: nat, probe: nat, x: nat, bit: nat, w: Watch)
    requires Passed(cfg, start, probe, w.spent) && probe < WordCount(cfg) && w.start == start
    requires x == Bitmap.ProbeAt(start, probe, WordCount(cfg)) && bit < 64 && x * 64 + bit >= cfg.count
    requires x in w.spent
    ensures Gone(cfg, w)
  {
    var n := WordCount(cfg);
    assert x == n - 1 && cfg.count % 64 != 0;
    assert x == start + probe;
    forall y | start <= y < x ensures y in w.spent {
      assert Bitmap.ProbeAt(start, y - start, n) == y;
    }
  }

  lemma ReadFull(cfg: Config, m: Machine, t: nat, x: nat)
    requires t < |m.threads| && m.threads[t].home.Some? && m.threads[t].home.value < |m.regions|
    requires x < |m.regions[m.threads[t].home.value].words| && IsFull(m.regions[m.threads[t].home.value].words[x])
    ensures SpentAtHome(cfg, m, t, x)
  {
  }

  lemma LoadOk(cfg: Config, m: Machine, t: nat, weak: bool, w: Watch)
    requires Runnable(cfg, m) && t < |m.threads| && m.threads[t].pc.LoadWord? && WatchOk(cfg, m.threads[t], w)
    ensures var m' := TickAlloc(cfg, m, t, weak).m; WatchOk(cfg, m'.threads[t], Look(cfg, m', Tick(t, weak), t, w))
  {
    var m' := TickAlloc(cfg, m, t, weak).m;
    var LoadWord(start, probe) := m.threads[t].pc;
    var w' := Look(cfg, m', Tick(t, weak), t, w);
    if probe == WordCount(cfg) {
      PassedAll(cfg, start, w');
    } else {
      Bitmap.ProbeIsModulo(start, probe, WordCount(cfg));
      var x := Bitmap.ProbeAt(start, probe, WordCount(cfg));
      if IsFull(m.regions[m.threads[t].home.value].words[x]) {
        ReadFull(cfg, m', t, x);
        PassedOne(cfg, start, probe, w.spent, w'.spent);
      }
    }
  }

  lemma CasOk(cfg: Config, m: Machine, t: nat, weak: bool, w: Watch)
    requires Runnable(cfg, m) && t < |m.threads| && m.threads[t].pc.Cas? && WatchOk(cfg, m.threads[t], w)
    ensures var m' := TickAlloc(cfg, m, t, weak).m; WatchOk(cfg, m'.threads[t], Look(cfg, m', Tick(t, weak), t, w))
  {
    var m' := TickAlloc(cfg, m, t, weak).m;
    var Cas(start, probe, x, word) := m.threads[t].pc;
    var w' := Look(cfg, m', Tick(t, weak), t, w);
    if TickAlloc(cfg, m, t, weak).e.Claimed? {
      var bit := FindFreeBit(word);
      if x * 64 + bit >= cfg.count {
        assert SpentAtHome(cfg, m', t, x);
        PassedToPadding(cfg, start, probe, x, bit, w');
      }
    } else if IsFull(m.regions[m.threads[t].home.value].words[x]) {
      ReadFull(cfg, m', t, x);
      PassedOne(cfg, start, probe, w.spent, w'.spent);
    }
  }

  lemma PointerNotNull(cfg: Config, slot: Slot)
    requires Sound(cfg) && slot.region < |cfg.bases|
    ensures PointerTo(cfg, slot) != 0
  {
    Product(IndexOf(slot), cfg.size);
  }

  lemma Product(a: nat, b: nat)
    ensures a * b >= 0
  {
  }

  lemma SettleOk(cfg: Config, m: Machine, t: nat, weak: bool, w: Watch)
    requires Runnable(cfg, m) && t < |m.threads| && m.threads[t].pc.Settle? && WatchOk(cfg, m.threads[t], w)
    ensures var m' := TickAlloc(cfg, m, t, weak).m; WatchOk(cfg, m'.threads[t], Look(cfg, m', Tick(t, weak), t, w))
  {
    PointerNotNull(cfg, Slot(m.threads[t].home.value, m.threads[t].pc.w, m.threads[t].pc.bit));
  }

  /** The other steps do not lead to a null answer. */
  lemma RestOk(cfg: Config, m: Machine, a: Action, w: Watch)
    requires Runnable(cfg, m) && a.t < |m.threads|
    requires WordCount(cfg) > 0 ==> w.start < WordCount(cfg)
    requires var pc := m.threads[a.t].pc; a.Tick? ==> !pc.LoadWord? && !pc.Cas? && !pc.Settle?
    ensures var m' := Perform(cfg, m, a).m;
      a.t < |m'.threads| && WatchOk(cfg, m'.threads[a.t], Look(cfg, m', a, a.t, w))
  {
  }

  lemma StepWatched(cfg: Config, m: Machine, a: Action, t: nat, w: Watch)
    requires Runnable(cfg, m) && a.t < |m.threads| && t < |m.threads| && WatchOk(cfg, m.threads[t], w)
    ensures var m' := Perform(cfg, m, a).m; t < |m'.threads| && WatchOk(cfg, m'.threads[t], Look(cfg, m', a, t, w))
  {
    ThreadsStay(cfg, m, a);
    if t != a.t {
      WatchGrows(cfg, m.threads[t], w, Look(cfg, Perform(cfg, m, a).m, a, t, w));
    } else if a.Tick? && m.threads[t].pc.LoadWord? {
      LoadOk(cfg, m, t, a.weak, w);
    } else if a.Tick? && m.threads[t].pc.Cas? {
      CasOk(cfg, m, t, a.weak, w);
    } else if a.Tick? && m.threads[t].pc.Settle? {
      SettleOk(cfg, m, t, a.weak, w);
    } else {
      RestOk(cfg, m, a, w);
    }
  }

  lemma {:induction false} RunWatched(cfg: Config, s: State, acts: seq<Action>, t: nat, w: Watch)
    requires Sound(cfg) && Runs(cfg, s, acts) && t < |s.m.threads| && WatchOk(cfg, s.m.threads[t], w)
    ensures var m := After(cfg, s, acts).m; t < |m.threads| && WatchOk(cfg, m.threads[t], Watched(cfg, s, acts, t, w))
    decreases |acts|
  {
    if acts != [] {
      var s' := Next(cfg, s, acts[0]);
      ThreadsStay(cfg, s.m, acts[0]);
      StepWatched(cfg, s.m, acts[0], t, w);
      RunWatched(cfg, s', acts[1..], t, Look(cfg, s'.m, acts[0], t, w));
    }
  }

  // ------------------------------------------------------------------
  // What the observer has seen did happen
  // ------------------------------------------------------------------

  /** After the first `k` actions, and within the latest `alloc` call of `t`. */
  ghost predicate SpentAfter(cfg: Config, s: State, acts: seq<Action>, t: nat, x: nat, k: nat)
    requires Sound(cfg)
  {
    && k <= |acts| && Runs(cfg, s, acts[..k]) && SpentAtHome(cfg, After(cfg, s, acts[..k]).m, t, x)
    && forall i :: k <= i < |acts| ==> acts[i] != CallAlloc(t)
  }

  ghost predicate SpentDuringCall(cfg: Config, s: State, acts: seq<Action>, t: nat, x: nat)
    requires Sound(cfg)
  {
    exists k :: SpentAfter(cfg, s, acts, t, x, k)
  }

  lemma SpentLater(cfg: Config, s: State, acts: seq<Action>, t: nat, x: nat, k: nat)
    requires Sound(cfg) && acts != [] && Can(cfg, s, acts[0])
    requires SpentAfter(cfg, Next(cfg, s, acts[0]), acts[1..], t, x, k)
    ensures SpentAfter(cfg, s, acts, t, x, k + 1)
  {
    assert acts[..k + 1][0] == acts[0] && acts[..k + 1][1..] == acts[1..][..k];
    forall i | k + 1 <= i < |acts| ensures acts[i] != CallAlloc(t) {
      assert acts[i] == acts[1..][i - 1];
    }
  }

  lemma {:induction false} WatchedHappened(cfg: Config, s: State, acts: seq<Action>, t: nat, w: Watch, x: nat)
    requires Sound(cfg) && Runs(cfg, s, acts) && t < |s.m.threads| && x in Watched(cfg, s, acts, t, w).spent
    ensures SpentDuringCall(cfg, s, acts, t, x)
      || (x in w.spent && forall i :: 0 <= i < |acts| ==> acts[i] != CallAlloc(t))
    decreases |acts|
  {
    if acts != [] {
      var s' := Next(cfg, s, acts[0]);
      ThreadsStay(cfg, s.m, acts[0]);
      var w' := Look(cfg, s'.m, acts[0], t, w);
      WatchedHappened(cfg, s', acts[1..], t, w', x);
      if SpentDuringCall(cfg, s', acts[1..], t, x) {
        var k :| SpentAfter(cfg, s', acts[1..], t, x, k);
        SpentLater(cfg, s, acts, t, x, k);
      } else if SpentAtHome(cfg, s'.m, t, x) {
        assert acts[1..][..0] == [];
        assert SpentAfter(cfg, s', acts[1..], t, x, 0);
      } else {
        assert forall i :: 1 <= i < |acts| ==> acts[i] == acts[1..][i - 1];
      }
    }
  }

  /** The hint that the latest `alloc` call of `t` loaded. */
  function HintLoaded(cfg: Config, s: State, acts: seq<Action>, t: nat): nat
    requires Sound(cfg) && Runs(cfg, s, acts) && t < |s.m.threads|
  {
    Watched(cfg, s, acts, t, Watch(0, {})).start
  }

  /** In every run, when a thread is about to return null: without padding bits
      every word of its region was without a free block at some moment of the
      call, and with padding bits every word from the loaded hint to the last. */
  lemma NullMeansSpent(cfg: Config, threads: nat, acts: seq<Action>, t: nat, x: nat)
    requires Sound(cfg) && Runs(cfg, Fresh(cfg, threads), acts) && t < threads
    requires var m := After(cfg, Fresh(cfg, threads), acts).m; t < |m.threads| && m.threads[t].pc == Answer(0)
    requires x < WordCount(cfg) && (cfg.count % 64 == 0 || HintLoaded(cfg, Fresh(cfg, threads), acts, t) <= x)
    ensures SpentDuringCall(cfg, Fresh(cfg, threads), acts, t, x)
    ensures HintLoaded(cfg, Fresh(cfg, threads), acts, t) < WordCount(cfg)
  {
    var s := Fresh(cfg, threads);
    RunWatched(cfg, s, acts, t, Watch(0, {}));
    WatchedHappened(cfg, s, acts, t, Watch(0, {}), x);
  }
}
