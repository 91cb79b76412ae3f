/** The stack as its bulk clients see it: while an operation holds the lock, what
    it found; each bulk transfer takes effect in the step that releases the lock.
    And what the stack machine leaves alone: the blocks that clients own. */
module TaggedStackShared {
  import opened Options
  import opened Sequences
  import opened TaggedStack
  import opened TaggedStackSteps
  import opened TaggedStackBulk
  import CacheSpec

  /** The stack that the operation of thread `t` found when it took the lock. */
  function FoundBy(l: Ledger, t: nat): seq<Block> {
    if t >= |l.accounts| then l.stack
    else
      var acc := l.accounts[t];
      if !Gives(acc.op) then acc.held + l.stack
      else if |acc.pushed| <= |l.stack| then l.stack[|acc.pushed|..]
      else l.stack
  }

  function Shared(m: Machine, l: Ledger): seq<Block> {
    if m.lock.None? then l.stack else FoundBy(l, m.lock.value)
  }

  /** The invariant of a stack that is used by bulk operations only. */
  ghost predicate BulkInv(m: Machine, l: Ledger) {
    && Inv(m, l) && NoSingles(m)
    && (m.lock.Some? ==> m.lock.value < |m.threads| && Grip(l, m.lock.value, FoundBy(l, m.lock.value)))
  }

  lemma GripFinds(l: Ledger, t: nat, found: seq<Block>)
    requires Grip(l, t, found)
    ensures FoundBy(l, t) == found
  {
    var acc := l.accounts[t];
    if Gives(acc.op) {
      assert (CacheSpec.Reverse(acc.pushed) + found)[|acc.pushed|..] == found;
    }
  }

  predicate Releases(m: Machine, a: Action) {
    a.Tick? && a.t < |m.threads| && m.threads[a.t].task.Leaving?
  }

  /** The step takes the lock. */
  predicate Takes(m: Machine, a: Action) {
    && a.Tick? && a.t < |m.threads| && m.lock.None?
    && (m.threads[a.t].task.PushBulkLock? || m.threads[a.t].task.PopBulkLock?)
  }

  lemma LockStep(m: Machine, l: Ledger, a: Action)
    requires BulkInv(m, l) && Enabled(m, l, a)
    ensures var m' := Perform(m, a).m;
      m'.lock == (if Releases(m, a) then None else if Takes(m, a) then Some(a.t) else m.lock)
    ensures Releases(m, a) ==> m.lock == Some(a.t)
  {
    if a.Tick? {
      assert ThreadInv(m, l, a.t);
      BulkPhase(m.mem, l.accounts[a.t], m.threads[a.t]);
      TickLock(m, a.t, a.weak);
    }
  }

  lemma TickLock(m: Machine, t: nat, weak: bool)
    requires t < |m.threads|
    requires m.threads[t].task.Leaving? || m.threads[t].task.PushBulkLock? || m.threads[t].task.PopBulkLock? ==>
      m.threads[t].pc.Between?
    ensures var a := Tick(t, weak);
      Perform(m, a).m.lock == (if Releases(m, a) then None else if Takes(m, a) then Some(t) else m.lock)
  {
  }

  /** A step that takes the lock finds the stack as it is. */
  lemma TakeGrips(m: Machine, l: Ledger, a: Action)
    requires BulkInv(m, l) && Enabled(m, l, a) && NoWrap(m, l, a) && Takes(m, a)
    requires m.threads[a.t].pc.Between?
    ensures var o := Perform(m, a); Grip(Record(l, o.e), a.t, l.stack)
  {
    var o := Perform(m, a);
    StepKeeps(m, l, a);
    TakeShape(m, l, a);
    assert ThreadInv(o.m, Record(l, o.e), a.t);
    GripBegins(o.m, Record(l, o.e), a.t);
  }

  lemma TakeShape(m: Machine, l: Ledger, a: Action)
    requires Takes(m, a) && m.threads[a.t].pc.Between?
    ensures var o := Perform(m, a);
      && Record(l, o.e) == l && |o.m.threads| == |m.threads|
      && (o.m.threads[a.t].task.PushBulkSeal? || o.m.threads[a.t].task.PopBulkFirst?)
  {
  }

  /** While the lock is free nothing changes the stack. */
  lemma FreeRests(m: Machine, l: Ledger, a: Action)
    requires BulkInv(m, l) && Enabled(m, l, a) && BulkOnly(a) && m.lock.None?
    ensures Record(l, Perform(m, a).e).stack == l.stack
  {
    if a.Tick? {
      var e := Perform(m, a).e;
      if e.Pushed? || e.Popped? || e.Empty? {
        HolderMoves(m, l, a);
      }
    }
  }

  /** Every step but a release leaves what the clients see. */
  lemma SharedKept(m: Machine, l: Ledger, a: Action)
    requires BulkInv(m, l) && Enabled(m, l, a) && NoWrap(m, l, a) && BulkOnly(a) && !Releases(m, a)
    ensures var o := Perform(m, a); BulkInv(o.m, Record(l, o.e)) && Shared(o.m, Record(l, o.e)) == Shared(m, l)
  {
    var o := Perform(m, a);
    StepKeeps(m, l, a);
    NoSinglesStep(m, l, a);
    LockStep(m, l, a);
    if Takes(m, a) {
      assert ThreadInv(m, l, a.t);
      TakeGrips(m, l, a);
      GripFinds(Record(l, o.e), a.t, l.stack);
    } else if m.lock.None? {
      FreeRests(m, l, a);
    } else {
      GripStep(m, l, a, m.lock.value, FoundBy(l, m.lock.value));
      GripFinds(Record(l, o.e), m.lock.value, FoundBy(l, m.lock.value));
    }
  }

  /** A release makes the whole transfer visible at once. */
  lemma ReleaseTransfers(m: Machine, l: Ledger, a: Action)
    requires BulkInv(m, l) && Enabled(m, l, a) && NoWrap(m, l, a) && Releases(m, a)
    ensures var o := Perform(m, a);
      && BulkInv(o.m, Record(l, o.e)) && Record(l, o.e) == l
      && o.m.threads == m.threads[a.t := Thread(Done(m.threads[a.t].task.value), Between)]
      && Transferred(l.accounts[a.t], Shared(m, l), Shared(o.m, Record(l, o.e)))
  {
    StepKeeps(m, l, a);
    NoSinglesStep(m, l, a);
    LockStep(m, l, a);
    assert ThreadInv(m, l, a.t);
    GripEnds(m, l, a.t, FoundBy(l, a.t));
  }

  // ------------------------------------------------------------------
  // Blocks of clients
  // ------------------------------------------------------------------

  /** A block that a client owns, and its link. */
  ghost predicate Has(m: Machine, l: Ledger, b: Block) {
    b in l.place && l.place[b] == Client && b in m.mem
  }

  ghost predicate KeptFor(m: Machine, l: Ledger, m': Machine, l': Ledger, b: Block) {
    Has(m, l, b) ==> Has(m', l', b) && m'.mem[b] == m.mem[b]
  }

  /** The blocks that an action of the client itself concerns. */
  function Touches(a: Action): seq<Block> {
    match a
    case Scribble(b, _) => [b]
    case Invoke(_, op) => Hands(op)
    case Tick(_, _) => []
  }

  lemma TickFootprint(m: Machine, l: Ledger, t: nat, weak: bool)
    requires Inv(m, l) && Enabled(m, l, Tick(t, weak))
    ensures Footprint(m, l, Perform(m, Tick(t, weak)).m, t)
  {
    assert ThreadInv(m, l, t) && HandInv(l, t);
    var pc := m.threads[t].pc;
    if PushPc(pc) {
      assert pc.node in l.accounts[t].held;
      PushFootprint(m, l, t, weak);
    } else if PopPc(pc) {
      PopFootprint(m, l, t, weak);
    } else {
      BulkFootprint(m, l, t);
    }
  }

  /** No event but the client's own takes a block from it. */
  lemma EventKeeps(l: Ledger, e: Event, b: Block)
    requires LedgerInv(l) && EventOk(l, e) && b in l.place && l.place[b] == Client
    requires e.Invoked? ==> b !in Hands(e.op)
    ensures b in Record(l, e).place && Record(l, e).place[b] == Client
  {
    match e
    case Pushed(t, x) =>
      assert HandInv(l, t) && x in l.accounts[t].held;
    case Popped(t, x) =>
      assert x in l.stack;
    case _ =>
  }

  lemma TickKeeps(m: Machine, l: Ledger, t: nat, weak: bool, b: Block)
    requires Inv(m, l) && Enabled(m, l, Tick(t, weak)) && NoWrap(m, l, Tick(t, weak))
    ensures var o := Perform(m, Tick(t, weak)); KeptFor(m, l, o.m, Record(l, o.e), b)
  {
    var o := Perform(m, Tick(t, weak));
    if Has(m, l, b) {
      StepKeeps(m, l, Tick(t, weak));
      TickFootprint(m, l, t, weak);
      TickNotInvoked(m, t, weak);
      EventKeeps(l, o.e, b);
    }
  }

  lemma TickNotInvoked(m: Machine, t: nat, weak: bool)
    requires t < |m.threads|
    ensures !Perform(m, Tick(t, weak)).e.Invoked?
  {
  }

  lemma ClientKept(m: Machine, l: Ledger, a: Action, b: Block)
    requires Inv(m, l) && Enabled(m, l, a) && NoWrap(m, l, a) && b !in Touches(a)
    ensures var o := Perform(m, a); KeptFor(m, l, o.m, Record(l, o.e), b)
  {
    if a.Tick? {
      TickKeeps(m, l, a.t, a.weak, b);
    } else if a.Invoke? && Has(m, l, b) {
      StepKeeps(m, l, a);
      EventKeeps(l, Perform(m, a).e, b);
    }
  }

  /** A client's write changes that link and nothing else. */
  lemma ScribbleOnly(m: Machine, l: Ledger, b: Block, p: Ptr)
    requires Enabled(m, l, Scribble(b, p))
    ensures var o := Perform(m, Scribble(b, p)); o.m == m.(mem := m.mem[b := p]) && Record(l, o.e) == l
  {
  }

  /** A bulk call that returns hands its chain to the client. */
  lemma ReturnHands(m: Machine, l: Ledger, t: nat, weak: bool)
    requires Inv(m, l) && Enabled(m, l, Tick(t, weak)) && Perform(m, Tick(t, weak)).e.Returned?
    ensures var o, held := Perform(m, Tick(t, weak)), l.accounts[t].held;
      && o.m == Goto(m, t, Outside, Between) && m.threads[t].task.Done?
      && Fulfilled(m.mem, l.accounts[t], m.threads[t].task.value)
      && o.e == Returned(t, m.threads[t].task.value)
      && (forall b :: b in held ==> Has(o.m, Record(l, o.e), b)) && Distinct(held)
  {
    assert ThreadInv(m, l, t) && HandInv(l, t);
    ReturnShape(m, t, weak);
  }

  lemma ReturnShape(m: Machine, t: nat, weak: bool)
    requires t < |m.threads| && Perform(m, Tick(t, weak)).e.Returned?
    ensures m.threads[t].task.Done? && !PushPc(m.threads[t].pc) && !PopPc(m.threads[t].pc)
    ensures var o := Perform(m, Tick(t, weak));
      o.m == Goto(m, t, Outside, Between) && o.e == Returned(t, m.threads[t].task.value)
  {
  }
}
