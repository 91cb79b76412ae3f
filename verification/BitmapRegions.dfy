/** Bitmap regions shared by any number of threads: the protocol of the
    per-thread-region allocator, and with one region that of the plain bitmap
    allocator. One `Tick` is one access to shared memory. */
module BitmapRegions {
  import opened Words
  import opened Options
  import opened Regions
  import Bitmap
  import Geometry

  function WordCount(cfg: Config): nat { Bitmap.WordCount(cfg.count) }

  /** One bit of one word of one region. */
  datatype Slot = Slot(region: nat, word: nat, bit: nat)

  function IndexOf(s: Slot): nat { s.word * 64 + s.bit }

  /** The slot of the block that contains address `p`, if any. */
  function Locate(cfg: Config, p: nat): (s: Option<Slot>)
    requires Sound(cfg)
    ensures s.Some? <==> exists r :: 0 <= r < |cfg.bases| && Inside(cfg, r, p)
    ensures s.Some? ==>
      s.value.region < |cfg.bases| && s.value.word < WordCount(cfg) && s.value.bit < 64 && IndexOf(s.value) < cfg.count
  {
    var f := FindRegion(cfg, p, 0);
    if f.None? then None
    else
      var i := Geometry.IndexAt(cfg.bases[f.value], cfg.size, p);
      Geometry.IndexInRange(cfg.bases[f.value], cfg.size, cfg.count, p);
      Some(Slot(f.value, i / 64, i % 64))
  }

  function PointerTo(cfg: Config, s: Slot): nat
    requires s.region < |cfg.bases|
  {
    Geometry.AddressOf(cfg.bases[s.region], cfg.size, IndexOf(s))
  }

  /** The pointer handed out for a slot leads back to that slot and no other. */
  lemma LocatePointer(cfg: Config, s: Slot)
    requires Sound(cfg) && s.region < |cfg.bases| && s.bit < 64 && IndexOf(s) < cfg.count
    ensures Locate(cfg, PointerTo(cfg, s)) == Some(s) && PointerTo(cfg, s) > 0
  {
    var p, i := PointerTo(cfg, s), IndexOf(s);
    assert Inside(cfg, s.region, p) by {
      BlockInside(cfg, s.region, i);
      assert p == BlocksOf(cfg, s.region)[i];
    }
    FindRegionUnique(cfg, p, s.region);
    assert Geometry.IndexAt(cfg.bases[s.region], cfg.size, p) == i by {
      Geometry.IndexOfAddress(cfg.bases[s.region], cfg.size, i, 0);
    }
    Bitmap.IndexOf(s.word, s.bit);
  }

  // ------------------------------------------------------------------
  // The machine
  // ------------------------------------------------------------------

  datatype Region = Region(words: seq<Word>, hint: nat)

  datatype Pc =
    | Idle
    | Assign                                            // no region yet
    | LoadHint
    | LoadWord(start: nat, probe: nat)
    | Cas(start: nat, probe: nat, w: nat, word: Word)
    | Settle(w: nat, bit: nat)                          // claimed: undo or store the hint
    | Answer(p: nat)                                    // about to return `p`; 0 is null
    | Clear(q: nat)                                     // dealloc: search and fetch_and
    | StoreHint(r: nat, w: nat)

  datatype Thread = Thread(home: Option<nat>, pc: Pc)

  datatype Machine = Machine(regions: seq<Region>, counter: nat, threads: seq<Thread>)

  datatype Event =
    | Silent
    | Assigned(t: nat, r: nat)
    | Claimed(t: nat, s: Slot)
    | Cleared(t: nat, s: Slot)
    | Failed(t: nat, genuine: bool)
    | Granted(t: nat, p: nat)
    | Freeing(t: nat, p: nat)

  datatype Action =
    | Tick(t: nat, weak: bool)
    | CallAlloc(t: nat)
    | CallDealloc(t: nat, p: nat)

  datatype Outcome = Outcome(m: Machine, e: Event)

  predicate Shaped(cfg: Config, m: Machine) {
    && |m.regions| == |cfg.bases|
    && (forall r :: 0 <= r < |m.regions| ==>
          |m.regions[r].words| == WordCount(cfg) && (WordCount(cfg) > 0 ==> m.regions[r].hint < WordCount(cfg)))
  }

  /** A new allocator: all words clear, no thread has a region. */
  function IdleMachine(cfg: Config, threads: nat): Machine {
    Machine(seq(|cfg.bases|, _ => Region(seq(WordCount(cfg), _ => EMPTY), 0)), 0, seq(threads, _ => Thread(None, Idle)))
  }

  function Goto(m: Machine, t: nat, pc: Pc): Machine
    requires t < |m.threads|
  {
    m.(threads := m.threads[t := m.threads[t].(pc := pc)])
  }

  function SetWord(m: Machine, r: nat, w: nat, word: Word): Machine
    requires r < |m.regions| && w < |m.regions[r].words|
  {
    m.(regions := m.regions[r := m.regions[r].(words := m.regions[r].words[w := word])])
  }

  function SetHint(m: Machine, r: nat, w: nat): Machine
    requires r < |m.regions|
  {
    m.(regions := m.regions[r := m.regions[r].(hint := w)])
  }

  /** A word has been read: skip it when full, else try to claim its lowest clear bit. */
  function AfterRead(start: nat, probe: nat, w: nat, word: Word): Pc {
    if IsFull(word) then LoadWord(start, probe + 1) else Cas(start, probe, w, word)
  }

  predicate PcOk(cfg: Config, thread: Thread) {
    match thread.pc
    case Idle => true
    case Assign => true
    case Clear(_) => true
    case Answer(_) => thread.home.Some?
    case LoadHint => thread.home.Some?
    case LoadWord(start, probe) => thread.home.Some? && probe <= WordCount(cfg)
      && (WordCount(cfg) > 0 ==> start < WordCount(cfg))
    case Cas(start, probe, w, word) =>
      thread.home.Some? && w < WordCount(cfg) && probe < WordCount(cfg) && start < WordCount(cfg) && !IsFull(word)
    case Settle(w, bit) => thread.home.Some? && w < WordCount(cfg) && bit < 64
    case StoreHint(r, w) => r < |cfg.bases| && w < WordCount(cfg)
  }

  predicate Runnable(cfg: Config, m: Machine) {
    && Sound(cfg) && Shaped(cfg, m)
    && (forall t :: 0 <= t < |m.threads| ==>
          PcOk(cfg, m.threads[t]) && (m.threads[t].home.Some? ==> m.threads[t].home.value < |cfg.bases|))
  }

  function TickAlloc(cfg: Config, m: Machine, t: nat, weak: bool): Outcome
    requires Runnable(cfg, m) && t < |m.threads|
    requires var pc := m.threads[t].pc; pc.LoadHint? || pc.LoadWord? || pc.Cas? || pc.Settle?
  {
    var home := m.threads[t].home.value;
    var region := m.regions[home];
    match m.threads[t].pc
    case LoadHint => Outcome(Goto(m, t, LoadWord(region.hint, 0)), Silent)
    case LoadWord(start, probe) =>
      if probe == WordCount(cfg) then Outcome(Goto(m, t, Answer(0)), Silent)
      else
        var w := (start + probe) % WordCount(cfg);
        Outcome(Goto(m, t, AfterRead(start, probe, w, region.words[w])), Silent)
    case Cas(start, probe, w, word) =>
      if !weak && region.words[w] == word then
        var bit := FindFreeBit(word);
        Outcome(Goto(SetWord(m, home, w, word + {bit}), t, Settle(w, bit)), Claimed(t, Slot(home, w, bit)))
      else
        Outcome(Goto(m, t, AfterRead(start, probe, w, region.words[w])), Failed(t, region.words[w] != word))
    case Settle(w, bit) =>
      var slot := Slot(home, w, bit);
      if IndexOf(slot) >= cfg.count then
        Outcome(Goto(SetWord(m, home, w, region.words[w] - {bit}), t, Answer(0)), Cleared(t, slot))
      else
        Outcome(Goto(SetHint(m, home, w), t, Answer(PointerTo(cfg, slot))), Silent)
    case _ => Outcome(m, Silent)
  }

  function TickOther(cfg: Config, m: Machine, t: nat): Outcome
    requires Runnable(cfg, m) && t < |m.threads|
  {
    match m.threads[t].pc
    case Assign =>
      var r := m.counter % |cfg.bases|;
      Outcome(m.(counter := m.counter + 1, threads := m.threads[t := Thread(Some(r), LoadHint)]), Assigned(t, r))
    case Answer(p) => Outcome(Goto(m, t, Idle), Granted(t, p))
    case Clear(q) =>
      var s := Locate(cfg, q);
      if s.None? then Outcome(Goto(m, t, Idle), Silent)
      else
        var Slot(r, w, bit) := s.value;
        Outcome(Goto(SetWord(m, r, w, m.regions[r].words[w] - {bit}), t, StoreHint(r, w)), Cleared(t, s.value))
    case StoreHint(r, w) => Outcome(Goto(SetHint(m, r, w), t, Idle), Silent)
    case _ => Outcome(m, Silent)
  }

  function Perform(cfg: Config, m: Machine, a: Action): Outcome
    requires Runnable(cfg, m) && a.t < |m.threads|
  {
    match a
    case Tick(t, weak) =>
      var pc := m.threads[t].pc;
      if pc.LoadHint? || pc.LoadWord? || pc.Cas? || pc.Settle? then TickAlloc(cfg, m, t, weak)
      else TickOther(cfg, m, t)
    case CallAlloc(t) =>
      Outcome(Goto(m, t, if m.threads[t].home.None? then Assign else LoadHint), Silent)
    case CallDealloc(t, p) => Outcome(Goto(m, t, Clear(p)), Freeing(t, p))
  }

  // ------------------------------------------------------------------
  // Who holds a bit
  // ------------------------------------------------------------------

  datatype Holder = Client | ByThread(t: nat)

  datatype Ledger = Ledger(holder: map<Slot, Holder>)

  function Record(cfg: Config, l: Ledger, e: Event): Ledger
    requires Sound(cfg)
  {
    match e
    case Silent => l
    case Assigned(t, r) => l
    case Claimed(t, s) => l.(holder := l.holder[s := ByThread(t)])
    case Cleared(t, s) => l.(holder := l.holder - {s})
    case Failed(_, _) => l
    case Granted(t, p) =>
      var s := Locate(cfg, p);
      if s.Some? then l.(holder := l.holder[s.value := Client]) else l
    case Freeing(t, p) =>
      var s := Locate(cfg, p);
      if s.Some? then l.(holder := l.holder[s.value := ByThread(t)]) else l
  }

  /** What the allocator owes its clients at each event. */
  predicate EventOk(cfg: Config, l: Ledger, e: Event)
    requires Sound(cfg)
  {
    match e
    case Claimed(t, s) => s !in l.holder                                     // nobody has it yet
    case Cleared(t, s) => s in l.holder && l.holder[s] == ByThread(t)        // nobody else has it
    case Granted(t, p) =>
      p == 0 || (Locate(cfg, p).Some? && Locate(cfg, p).value in l.holder
        && l.holder[Locate(cfg, p).value] == ByThread(t))
    case _ => true
  }

  /** Clients free blocks they own; null and foreign pointers are allowed. */
  predicate Enabled(cfg: Config, m: Machine, l: Ledger, a: Action)
    requires Sound(cfg)
  {
    && a.t < |m.threads|
    && match a
       case Tick(t, _) => !m.threads[t].pc.Idle?
       case CallAlloc(t) => m.threads[t].pc.Idle?
       case CallDealloc(t, p) =>
         && m.threads[t].pc.Idle?
         && (Locate(cfg, p).Some? ==> Locate(cfg, p).value in l.holder && l.holder[Locate(cfg, p).value] == Client)
  }

  /** The bit a thread is responsible for. */
  function Burden(cfg: Config, thread: Thread): Option<Slot>
    requires Sound(cfg)
  {
    match thread.pc
    case Settle(w, bit) => if thread.home.Some? then Some(Slot(thread.home.value, w, bit)) else None
    case Answer(p) => Locate(cfg, p)
    case Clear(q) => Locate(cfg, q)
    case _ => None
  }

  predicate InRange(cfg: Config, s: Slot) {
    s.region < |cfg.bases| && s.word < WordCount(cfg) && s.bit < 64
  }

  predicate BitAt(cfg: Config, m: Machine, s: Slot)
    requires Runnable(cfg, m) && InRange(cfg, s)
  {
    s.bit in m.regions[s.region].words[s.word]
  }

  /** A bit is set exactly when it has a holder; a holder is a client, then the
      bit is that of a block, or the one thread responsible for it. */
  ghost predicate BitsInv(cfg: Config, m: Machine, l: Ledger)
    requires Runnable(cfg, m)
  {
    && (forall s :: s in l.holder ==> InRange(cfg, s))
    && (forall s: Slot :: InRange(cfg, s) ==> (BitAt(cfg, m, s) <==> s in l.holder))
    && (forall s :: s in l.holder && l.holder[s] == Client ==> IndexOf(s) < cfg.count)
    && (forall s :: s in l.holder && l.holder[s].ByThread? ==>
          l.holder[s].t < |m.threads| && Burden(cfg, m.threads[l.holder[s].t]) == Some(s))
    && (forall t :: 0 <= t < |m.threads| && Burden(cfg, m.threads[t]).Some? ==>
          Burden(cfg, m.threads[t]).value in l.holder && l.holder[Burden(cfg, m.threads[t]).value] == ByThread(t))
  }

  ghost predicate Inv(cfg: Config, m: Machine, l: Ledger) {
    && Runnable(cfg, m)
    && BitsInv(cfg, m, l)
    && (forall t :: 0 <= t < |m.threads| && m.threads[t].pc.Answer? ==>
          m.threads[t].pc.p == 0 || Locate(cfg, m.threads[t].pc.p).Some?)
  }

  // ------------------------------------------------------------------
  // Every step keeps the invariant
  // ------------------------------------------------------------------

  /** Only thread `t` moves. */
  predicate OnlyThread(m: Machine, m': Machine, t: nat) {
    t < |m.threads| == |m'.threads| && m'.threads == m.threads[t := m'.threads[t]]
  }

  /** Bits are as before except possibly that of slot `s`, which is `now`. */
  ghost predicate OnlyBit(cfg: Config, m: Machine, m': Machine, s: Slot, now: bool)
    requires Runnable(cfg, m) && Runnable(cfg, m')
  {
    && InRange(cfg, s) && BitAt(cfg, m', s) == now
    && (forall x: Slot :: InRange(cfg, x) && x != s ==> BitAt(cfg, m', x) == BitAt(cfg, m, x))
  }

  ghost predicate SameBits(cfg: Config, m: Machine, m': Machine)
    requires Runnable(cfg, m) && Runnable(cfg, m')
  {
    forall x: Slot :: InRange(cfg, x) ==> BitAt(cfg, m', x) == BitAt(cfg, m, x)
  }

  lemma ClaimKeeps(cfg: Config, m: Machine, l: Ledger, m': Machine, t: nat, s: Slot)
    requires Runnable(cfg, m) && Runnable(cfg, m') && BitsInv(cfg, m, l) && OnlyThread(m, m', t)
    requires OnlyBit(cfg, m, m', s, true) && !BitAt(cfg, m, s)
    requires Burden(cfg, m.threads[t]).None? && Burden(cfg, m'.threads[t]) == Some(s)
    ensures s !in l.holder && BitsInv(cfg, m', l.(holder := l.holder[s := ByThread(t)]))
  {
  }

  lemma ClearKeeps(cfg: Config, m: Machine, l: Ledger, m': Machine, t: nat, s: Slot)
    requires Runnable(cfg, m) && Runnable(cfg, m') && BitsInv(cfg, m, l) && OnlyThread(m, m', t)
    requires OnlyBit(cfg, m, m', s, false)
    requires Burden(cfg, m.threads[t]) == Some(s) && Burden(cfg, m'.threads[t]).None?
    ensures s in l.holder && l.holder[s] == ByThread(t)
    ensures BitsInv(cfg, m', l.(holder := l.holder - {s}))
  {
  }

  lemma GrantKeeps(cfg: Config, m: Machine, l: Ledger, m': Machine, t: nat, s: Slot)
    requires Runnable(cfg, m) && Runnable(cfg, m') && BitsInv(cfg, m, l) && OnlyThread(m, m', t)
    requires SameBits(cfg, m, m') && IndexOf(s) < cfg.count
    requires Burden(cfg, m.threads[t]) == Some(s) && Burden(cfg, m'.threads[t]).None?
    ensures s in l.holder && l.holder[s] == ByThread(t)
    ensures BitsInv(cfg, m', l.(holder := l.holder[s := Client]))
  {
  }

  lemma FreeKeeps(cfg: Config, m: Machine, l: Ledger, m': Machine, t: nat, s: Slot)
    requires Runnable(cfg, m) && Runnable(cfg, m') && BitsInv(cfg, m, l) && OnlyThread(m, m', t)
    requires SameBits(cfg, m, m') && s in l.holder && l.holder[s] == Client
    requires Burden(cfg, m.threads[t]).None? && Burden(cfg, m'.threads[t]) == Some(s)
    ensures BitsInv(cfg, m', l.(holder := l.holder[s := ByThread(t)]))
  {
  }

  lemma QuietKeeps(cfg: Config, m: Machine, l: Ledger, m': Machine, t: nat)
    requires Runnable(cfg, m) && Runnable(cfg, m') && BitsInv(cfg, m, l) && OnlyThread(m, m', t)
    requires SameBits(cfg, m, m')
    requires Burden(cfg, m'.threads[t]) == Burden(cfg, m.threads[t])
    ensures BitsInv(cfg, m', l)
  {
  }

  lemma NullNowhere(cfg: Config)
    requires Sound(cfg)
    ensures Locate(cfg, 0).None?
  {
  }

  /** One word of one region is replaced, and thread `t` moves on. */
  lemma WordStep(cfg: Config, m: Machine, t: nat, s: Slot, word: Word, pc: Pc)
    requires Runnable(cfg, m) && t < |m.threads| && InRange(cfg, s)
    requires PcOk(cfg, m.threads[t].(pc := pc))
    requires var was := m.regions[s.region].words[s.word]; word == was + {s.bit} || word == was - {s.bit}
    ensures var m' := Goto(SetWord(m, s.region, s.word, word), t, pc);
      && Runnable(cfg, m') && OnlyThread(m, m', t)
      && OnlyBit(cfg, m, m', s, s.bit in word)
  {
  }

  lemma HintStep(cfg: Config, m: Machine, t: nat, r: nat, w: nat, pc: Pc)
    requires Runnable(cfg, m) && t < |m.threads| && r < |cfg.bases| && w < WordCount(cfg)
    requires PcOk(cfg, m.threads[t].(pc := pc))
    ensures var m' := Goto(SetHint(m, r, w), t, pc);
      Runnable(cfg, m') && OnlyThread(m, m', t) && SameBits(cfg, m, m')
  {
  }

  lemma PcStep(cfg: Config, m: Machine, t: nat, pc: Pc)
    requires Runnable(cfg, m) && t < |m.threads|
    requires PcOk(cfg, m.threads[t].(pc := pc))
    ensures var m' := Goto(m, t, pc);
      Runnable(cfg, m') && OnlyThread(m, m', t) && SameBits(cfg, m, m')
  {
  }

  lemma CasKeeps(cfg: Config, m: Machine, l: Ledger, t: nat, weak: bool)
    requires Inv(cfg, m, l) && t < |m.threads| && m.threads[t].pc.Cas?
    ensures var o := TickAlloc(cfg, m, t, weak);
      EventOk(cfg, l, o.e) && Inv(cfg, o.m, Record(cfg, l, o.e))
  {
    var o := TickAlloc(cfg, m, t, weak);
    var home := m.threads[t].home.value;
    var Cas(start, probe, w, word) := m.threads[t].pc;
    if o.e.Claimed? {
      var bit := FindFreeBit(word);
      WordStep(cfg, m, t, Slot(home, w, bit), word + {bit}, Settle(w, bit));
      ClaimKeeps(cfg, m, l, o.m, t, Slot(home, w, bit));
    } else {
      PcStep(cfg, m, t, AfterRead(start, probe, w, m.regions[home].words[w]));
      QuietKeeps(cfg, m, l, o.m, t);
    }
  }

  lemma SettleKeeps(cfg: Config, m: Machine, l: Ledger, t: nat, weak: bool)
    requires Inv(cfg, m, l) && t < |m.threads| && m.threads[t].pc.Settle?
    ensures var o := TickAlloc(cfg, m, t, weak);
      EventOk(cfg, l, o.e) && Inv(cfg, o.m, Record(cfg, l, o.e))
  {
    var o := TickAlloc(cfg, m, t, weak);
    var home := m.threads[t].home.value;
    var slot := Slot(home, m.threads[t].pc.w, m.threads[t].pc.bit);
    if IndexOf(slot) >= cfg.count {
      NullNowhere(cfg);
      WordStep(cfg, m, t, slot, m.regions[home].words[slot.word] - {slot.bit}, Answer(0));
      ClearKeeps(cfg, m, l, o.m, t, slot);
    } else {
      LocatePointer(cfg, slot);
      HintStep(cfg, m, t, home, slot.word, Answer(PointerTo(cfg, slot)));
      QuietKeeps(cfg, m, l, o.m, t);
    }
  }

  lemma LookKeeps(cfg: Config, m: Machine, l: Ledger, t: nat, weak: bool)
    requires Inv(cfg, m, l) && t < |m.threads| && (m.threads[t].pc.LoadHint? || m.threads[t].pc.LoadWord?)
    ensures var o := TickAlloc(cfg, m, t, weak);
      EventOk(cfg, l, o.e) && Inv(cfg, o.m, Record(cfg, l, o.e))
  {
    var o := TickAlloc(cfg, m, t, weak);
    NullNowhere(cfg);
    PcStep(cfg, m, t, o.m.threads[t].pc);
    QuietKeeps(cfg, m, l, o.m, t);
  }

  lemma AssignKeeps(cfg: Config, m: Machine, l: Ledger, t: nat)
    requires Inv(cfg, m, l) && t < |m.threads| && m.threads[t].pc.Assign?
    ensures var o := TickOther(cfg, m, t);
      EventOk(cfg, l, o.e) && Inv(cfg, o.m, Record(cfg, l, o.e))
  {
    var o := TickOther(cfg, m, t);
    assert SameBits(cfg, m, o.m);
    QuietKeeps(cfg, m, l, o.m, t);
  }

  lemma AnswerKeeps(cfg: Config, m: Machine, l: Ledger, t: nat)
    requires Inv(cfg, m, l) && t < |m.threads| && m.threads[t].pc.Answer?
    ensures var o := TickOther(cfg, m, t);
      EventOk(cfg, l, o.e) && Inv(cfg, o.m, Record(cfg, l, o.e))
  {
    var o, p := TickOther(cfg, m, t), m.threads[t].pc.p;
    NullNowhere(cfg);
    PcStep(cfg, m, t, Idle);
    if p == 0 {
      QuietKeeps(cfg, m, l, o.m, t);
    } else {
      GrantKeeps(cfg, m, l, o.m, t, Locate(cfg, p).value);
    }
  }

  lemma FreeTickKeeps(cfg: Config, m: Machine, l: Ledger, t: nat)
    requires Inv(cfg, m, l) && t < |m.threads| && (m.threads[t].pc.Clear? || m.threads[t].pc.StoreHint?)
    ensures var o := TickOther(cfg, m, t);
      EventOk(cfg, l, o.e) && Inv(cfg, o.m, Record(cfg, l, o.e))
  {
    var o, pc := TickOther(cfg, m, t), m.threads[t].pc;
    if pc.StoreHint? {
      HintStep(cfg, m, t, pc.r, pc.w, Idle);
      QuietKeeps(cfg, m, l, o.m, t);
    } else if Locate(cfg, pc.q).None? {
      PcStep(cfg, m, t, Idle);
      QuietKeeps(cfg, m, l, o.m, t);
    } else {
      var slot := Locate(cfg, pc.q).value;
      WordStep(cfg, m, t, slot, m.regions[slot.region].words[slot.word] - {slot.bit},
        StoreHint(slot.region, slot.word));
      ClearKeeps(cfg, m, l, o.m, t, slot);
    }
  }

  lemma CallKeeps(cfg: Config, m: Machine, l: Ledger, a: Action)
    requires Inv(cfg, m, l) && Enabled(cfg, m, l, a) && !a.Tick?
    ensures var o := Perform(cfg, m, a);
      EventOk(cfg, l, o.e) && Inv(cfg, o.m, Record(cfg, l, o.e))
  {
    var o, t := Perform(cfg, m, a), a.t;
    PcStep(cfg, m, t, o.m.threads[t].pc);
    if a.CallDealloc? && Locate(cfg, a.p).Some? {
      FreeKeeps(cfg, m, l, o.m, t, Locate(cfg, a.p).value);
    } else {
      QuietKeeps(cfg, m, l, o.m, t);
    }
  }

  /** Every enabled step keeps the invariant and owes nothing to its clients. */
  lemma StepKeeps(cfg: Config, m: Machine, l: Ledger, a: Action)
    requires Inv(cfg, m, l) && Enabled(cfg, m, l, a)
    ensures var o := Perform(cfg, m, a);
      EventOk(cfg, l, o.e) && Inv(cfg, o.m, Record(cfg, l, o.e))
  {
    if a.Tick? {
      match m.threads[a.t].pc
      case LoadHint => LookKeeps(cfg, m, l, a.t, a.weak);
      case LoadWord(_, _) => LookKeeps(cfg, m, l, a.t, a.weak);
      case Cas(_, _, _, _) => CasKeeps(cfg, m, l, a.t, a.weak);
      case Settle(_, _) => SettleKeeps(cfg, m, l, a.t, a.weak);
      case Assign => AssignKeeps(cfg, m, l, a.t);
      case Answer(_) => AnswerKeeps(cfg, m, l, a.t);
      case Clear(_) => FreeTickKeeps(cfg, m, l, a.t);
      case StoreHint(_, _) => FreeTickKeeps(cfg, m, l, a.t);
    } else {
      CallKeeps(cfg, m, l, a);
    }
  }
}
