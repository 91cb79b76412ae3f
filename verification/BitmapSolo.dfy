/** The protocol of the bitmap regions and the sequential bitmap allocator agree:
    a call whose steps are not interleaved with others, and whose
    compare-exchange does not fail spuriously, does what `Bitmap` says. */
module BitmapSolo {
  import opened Words
  import opened Options
  import opened Regions
  import opened BitmapRegions
  import opened BitmapRuns
  import Bitmap
  import Geometry

  ghost predicate OnlyTicks(acts: seq<Action>, t: nat) {
    forall i :: 0 <= i < |acts| ==> acts[i] == Tick(t, false)
  }

  /** Thread `t` alone takes the machine from `s` to `s'`. */
  ghost predicate Alone(cfg: Config, s: State, t: nat, s': State)
    requires Sound(cfg)
  {
    exists acts :: OnlyTicks(acts, t) && Runs(cfg, s, acts) && After(cfg, s, acts) == s'
  }

  lemma AloneNone(cfg: Config, s: State, t: nat)
    requires Sound(cfg)
    ensures Alone(cfg, s, t, s)
  {
    assert OnlyTicks([], t) && Runs(cfg, s, []) && After(cfg, s, []) == s;
  }

  lemma AloneStep(cfg: Config, s: State, t: nat, s': State)
    requires Sound(cfg) && Can(cfg, s, Tick(t, false)) && Alone(cfg, Next(cfg, s, Tick(t, false)), t, s')
    ensures Alone(cfg, s, t, s')
  {
    var a := Tick(t, false);
    var acts :| OnlyTicks(acts, t) && Runs(cfg, Next(cfg, s, a), acts) && After(cfg, Next(cfg, s, a), acts) == s';
    var all := [a] + acts;
    assert all[0] == a && all[1..] == acts;
    assert OnlyTicks(all, t) && Runs(cfg, s, all) && After(cfg, s, all) == s';
  }

  function HomeState(m: Machine, r: nat): Bitmap.State
    requires r < |m.regions|
  {
    Bitmap.State(m.regions[r].words, m.regions[r].hint)
  }

  /** Region `r` becomes `b`, thread `t` goes to `pc`, and nothing else changes. */
  function Moved(m: Machine, r: nat, b: Bitmap.State, t: nat, pc: Pc): Machine
    requires r < |m.regions| && t < |m.threads|
  {
    Goto(m.(regions := m.regions[r := Region(b.words, b.hint)]), t, pc)
  }

  predicate Ready(cfg: Config, s: State, t: nat) {
    Sound(cfg) && Runnable(cfg, s.m) && t < |s.m.threads| && !s.m.threads[t].pc.Idle?
  }

  /** The pointer `alloc` returns for an index; 0 is null. */
  function Pointer(cfg: Config, r: nat, index: Option<nat>): nat
    requires r < |cfg.bases|
  {
    match index
    case None => 0
    case Some(i) => Geometry.AddressOf(cfg.bases[r], cfg.size, i)
  }

  /** Thread `t` is about to return what `g` says, and its region is as `g` says. */
  ghost predicate Answered(cfg: Config, m: Machine, m': Machine, t: nat, r: nat, g: Bitmap.Grant) {
    && t < |m.threads| && r < |m.regions| && r < |cfg.bases|
    && m' == Moved(m, r, g.state, t, Answer(Pointer(cfg, r, g.index)))
  }

  /** The successful compare-exchange and what follows it. */
  lemma ClaimAlone(cfg: Config, s: State, t: nat) returns (s': State)
    requires Ready(cfg, s, t) && s.m.threads[t].pc.Cas?
    requires var th := s.m.threads[t]; s.m.regions[th.home.value].words[th.pc.w] == th.pc.word
    ensures Alone(cfg, s, t, s')
    ensures var r := s.m.threads[t].home.value;
      Answered(cfg, s.m, s'.m, t, r, Bitmap.ClaimLowest(HomeState(s.m, r), cfg.count, s.m.threads[t].pc.w))
  {
    var r, w, word := s.m.threads[t].home.value, s.m.threads[t].pc.w, s.m.threads[t].pc.word;
    var bit := FindFreeBit(word);
    var s1 := Next(cfg, s, Tick(t, false));
    assert s1.m == Goto(SetWord(s.m, r, w, word + {bit}), t, Settle(w, bit));
    assert Runnable(cfg, s1.m);
    s' := Next(cfg, s1, Tick(t, false));
    AloneNone(cfg, s', t);
    AloneStep(cfg, s1, t, s');
    AloneStep(cfg, s, t, s');
    var words: seq<Word> := s.m.regions[r].words;
    assert word + {bit} - {bit} == word;
    var back: seq<Word> := s1.m.regions[r].words;
    assert back[w := word] == words;
    assert s.m.regions[r := Region(words, s.m.regions[r].hint)] == s.m.regions;
  }

  /** The probe loop. */
  lemma {:induction false} ProbeAlone(cfg: Config, s: State, t: nat) returns (s': State)
    requires Ready(cfg, s, t) && s.m.threads[t].pc.LoadWord?
    requires s.m.threads[t].pc.start == s.m.regions[s.m.threads[t].home.value].hint
    ensures Alone(cfg, s, t, s')
    ensures var r := s.m.threads[t].home.value;
      Answered(cfg, s.m, s'.m, t, r, Bitmap.AllocFrom(HomeState(s.m, r), cfg.count, s.m.threads[t].pc.probe))
    decreases WordCount(cfg) - s.m.threads[t].pc.probe
  {
    var r, start, probe := s.m.threads[t].home.value, s.m.threads[t].pc.start, s.m.threads[t].pc.probe;
    var words := s.m.regions[r].words;
    assert s.m.regions[r := s.m.regions[r]] == s.m.regions;
    var s1 := Next(cfg, s, Tick(t, false));
    if probe == WordCount(cfg) {
      s' := s1;
      AloneNone(cfg, s', t);
    } else {
      Bitmap.ProbeIsModulo(start, probe, WordCount(cfg));
      var w := Bitmap.ProbeAt(start, probe, WordCount(cfg));
      assert s1.m == Goto(s.m, t, AfterRead(start, probe, w, words[w]));
      assert Runnable(cfg, s1.m);
      if IsFull(words[w]) {
        s' := ProbeAlone(cfg, s1, t);
      } else {
        s' := ClaimAlone(cfg, s1, t);
      }
    }
    AloneStep(cfg, s, t, s');
  }

  /** `alloc`, from its first step to its answer. */
  lemma AllocAlone(cfg: Config, s: State, t: nat) returns (s': State)
    requires Ready(cfg, s, t) && s.m.threads[t].pc.LoadHint?
    ensures Alone(cfg, s, t, s')
    ensures var r := s.m.threads[t].home.value;
      Answered(cfg, s.m, s'.m, t, r, Bitmap.Alloc(HomeState(s.m, r), cfg.count))
  {
    var r := s.m.threads[t].home.value;
    var s1 := Next(cfg, s, Tick(t, false));
    assert s1.m == Goto(s.m, t, LoadWord(s.m.regions[r].hint, 0));
    assert Runnable(cfg, s1.m);
    s' := ProbeAlone(cfg, s1, t);
    AloneStep(cfg, s, t, s');
  }

  lemma ClearAlone(cfg: Config, s: State, t: nat, slot: Slot)
    requires Ready(cfg, s, t) && s.m.threads[t].pc.Clear? && Locate(cfg, s.m.threads[t].pc.q) == Some(slot)
    ensures var s1 := Next(cfg, s, Tick(t, false));
      && s1.m == Goto(SetWord(s.m, slot.region, slot.word, s.m.regions[slot.region].words[slot.word] - {slot.bit}), t,
                      StoreHint(slot.region, slot.word))
      && Ready(cfg, s1, t)
  {
  }

  lemma HintAlone(cfg: Config, s: State, t: nat)
    requires Ready(cfg, s, t) && s.m.threads[t].pc.StoreHint?
    ensures var s1, pc := Next(cfg, s, Tick(t, false)), s.m.threads[t].pc;
      s1.m == Goto(SetHint(s.m, pc.r, pc.w), t, Idle) && Alone(cfg, s, t, s1)
  {
    var s1 := Next(cfg, s, Tick(t, false));
    AloneNone(cfg, s1, t);
    AloneStep(cfg, s, t, s1);
  }

  /** `dealloc` of a block, from its first step to its end. */
  lemma DeallocAlone(cfg: Config, s: State, t: nat) returns (s': State)
    requires Ready(cfg, s, t) && s.m.threads[t].pc.Clear?
    requires Locate(cfg, s.m.threads[t].pc.q).Some?
    ensures Alone(cfg, s, t, s')
    ensures var slot := Locate(cfg, s.m.threads[t].pc.q).value;
      s'.m == Moved(s.m, slot.region, Bitmap.Dealloc(HomeState(s.m, slot.region), IndexOf(slot)), t, Idle)
  {
    var slot := Locate(cfg, s.m.threads[t].pc.q).value;
    var s1 := Next(cfg, s, Tick(t, false));
    ClearAlone(cfg, s, t, slot);
    HintAlone(cfg, s1, t);
    s' := Next(cfg, s1, Tick(t, false));
    AloneStep(cfg, s, t, s');
    Bitmap.IndexOf(slot.word, slot.bit);
  }

  // ------------------------------------------------------------------
  // Whole calls, from the caller's side
  // ------------------------------------------------------------------

  /** The region of a thread's next `alloc`: its own, or the next one in turn. */
  function HomeOf(cfg: Config, m: Machine, t: nat): nat
    requires t < |m.threads| && |cfg.bases| > 0
  {
    if m.threads[t].home.Some? then m.threads[t].home.value else m.counter % |cfg.bases|
  }

  /** The machine after a whole `alloc` of thread `t` in region `r` that left it as `b`. */
  function AllocDone(m: Machine, t: nat, r: nat, b: Bitmap.State): Machine
    requires t < |m.threads| && r < |m.regions|
  {
    Machine(m.regions[r := Region(b.words, b.hint)], if m.threads[t].home.None? then m.counter + 1 else m.counter,
            m.threads[t := Thread(Some(r), Idle)])
  }

  /** The call, and the choice of a region if the thread has none. */
  lemma CallBegins(cfg: Config, s: State, t: nat) returns (s1: State)
    requires Sound(cfg) && Can(cfg, s, CallAlloc(t))
    ensures |cfg.bases| > 0 && HomeOf(cfg, s.m, t) < |s.m.regions| == |cfg.bases|
    ensures Ready(cfg, s1, t) && s1.m.threads[t] == Thread(Some(HomeOf(cfg, s.m, t)), LoadHint)
    ensures s1.m == Machine(s.m.regions, if s.m.threads[t].home.None? then s.m.counter + 1 else s.m.counter,
                            s.m.threads[t := s1.m.threads[t]])
    ensures s1 == Next(cfg, s, CallAlloc(t)) ||
      (Can(cfg, Next(cfg, s, CallAlloc(t)), Tick(t, false))
        && s1 == Next(cfg, Next(cfg, s, CallAlloc(t)), Tick(t, false)))
  {
    s1 := Next(cfg, s, CallAlloc(t));
    assert Runnable(cfg, s1.m);
    if s.m.threads[t].home.None? {
      s1 := Next(cfg, s1, Tick(t, false));
      assert Runnable(cfg, s1.m);
    }
  }

  /** A whole `alloc` of an idle thread, at its first call with the choice of its
      region, up to and with its return: the region becomes what `Bitmap.Alloc`
      says, and the caller gets the address of the block, or null. */
  lemma AllocCallAlone(cfg: Config, s: State, t: nat) returns (s': State)
    requires Sound(cfg) && Can(cfg, s, CallAlloc(t))
    ensures Alone(cfg, Next(cfg, s, CallAlloc(t)), t, s')
    ensures |cfg.bases| > 0 && HomeOf(cfg, s.m, t) < |s.m.regions| == |cfg.bases|
    ensures Can(cfg, s', Tick(t, false))
    ensures var r := HomeOf(cfg, s.m, t);
      var g := Bitmap.Alloc(HomeState(s.m, r), cfg.count);
      Perform(cfg, s'.m, Tick(t, false)) ==
        Outcome(AllocDone(s.m, t, r, g.state), Granted(t, Pointer(cfg, r, g.index)))
  {
    var s1 := CallBegins(cfg, s, t);
    s' := AllocAlone(cfg, s1, t);
    if s1 != Next(cfg, s, CallAlloc(t)) {
      AloneStep(cfg, Next(cfg, s, CallAlloc(t)), t, s');
    }
    AnsweredReturns(cfg, s, s1, s', t, HomeOf(cfg, s.m, t));
  }

  lemma AnsweredReturns(cfg: Config, s: State, s1: State, s': State, t: nat, r: nat)
    requires Ready(cfg, s1, t) && r < |cfg.bases| && r < |s.m.regions| && t < |s.m.threads|
    requires s1.m.threads[t] == Thread(Some(r), LoadHint)
    requires s1.m == Machine(s.m.regions, if s.m.threads[t].home.None? then s.m.counter + 1 else s.m.counter,
                             s.m.threads[t := s1.m.threads[t]])
    requires Answered(cfg, s1.m, s'.m, t, r, Bitmap.Alloc(HomeState(s.m, r), cfg.count)) && Runnable(cfg, s'.m)
    ensures Can(cfg, s', Tick(t, false))
    ensures var g := Bitmap.Alloc(HomeState(s.m, r), cfg.count);
      Perform(cfg, s'.m, Tick(t, false)) ==
        Outcome(AllocDone(s.m, t, r, g.state), Granted(t, Pointer(cfg, r, g.index)))
  {
  }

  /** A whole `dealloc` of an idle thread: a pointer into a region frees that block
      there, any other pointer changes nothing. */
  lemma DeallocCallAlone(cfg: Config, s: State, t: nat, p: nat) returns (s': State)
    requires Sound(cfg) && Can(cfg, s, CallDealloc(t, p))
    ensures Alone(cfg, Next(cfg, s, CallDealloc(t, p)), t, s')
    ensures s'.m.threads == s.m.threads && s'.m.counter == s.m.counter
    ensures match Locate(cfg, p)
      case None => s'.m.regions == s.m.regions
      case Some(slot) =>
        && slot.region < |s.m.regions|
        && var b := Bitmap.Dealloc(HomeState(s.m, slot.region), IndexOf(slot));
        s'.m.regions == s.m.regions[slot.region := Region(b.words, b.hint)]
  {
    var s1 := Next(cfg, s, CallDealloc(t, p));
    assert Runnable(cfg, s1.m);
    if Locate(cfg, p).Some? {
      s' := DeallocAlone(cfg, s1, t);
    } else {
      s' := Next(cfg, s1, Tick(t, false));
      AloneNone(cfg, s', t);
      AloneStep(cfg, s1, t, s');
    }
  }
}
