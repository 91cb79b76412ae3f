/** Bulk transfers are atomic as long as no single push or pop runs beside
    them, which is how the thread caches use the free list: between taking and
    releasing `bulk_lock` an operation sees the stack as it was when it took it. */
module TaggedStackBulk {
  import opened Options
  import opened TaggedStack
  import opened TaggedStackSteps
  import opened TaggedStackRuns
  import CacheSpec

  predicate BulkOnly(a: Action) { a.Invoke? ==> a.op.PushBulk? || a.op.PopBulk? }

  ghost predicate NoSingles(m: Machine) {
    forall t :: 0 <= t < |m.threads| ==> !Single(m.threads[t].task)
  }

  predicate Single(task: Task) { task.OnePush? || task.OnePop? }

  lemma TickKind(m: Machine, t: nat, weak: bool)
    requires t < |m.threads|
    ensures var m' := Perform(m, Tick(t, weak)).m;
      && |m'.threads| == |m.threads| && m'.threads == m.threads[t := m'.threads[t]]
      && (Single(m'.threads[t].task) ==> Single(m.threads[t].task))
  {
  }

  lemma NoSinglesStep(m: Machine, l: Ledger, a: Action)
    requires NoSingles(m) && Enabled(m, l, a) && BulkOnly(a)
    ensures NoSingles(Perform(m, a).m)
  {
    if a.Tick? {
      TickKind(m, a.t, a.weak);
    }
  }

  /** Inside a push or a pop, a bulk operation holds the lock; pushes belong to
      `push_bulk` and pops to `pop_bulk`. */
  lemma BulkPhase(mem: map<Block, Ptr>, acc: Account, thread: Thread)
    requires TaskInv(mem, acc, thread) && !thread.task.OnePush? && !thread.task.OnePop?
    ensures PushPc(thread.pc) ==> HoldsLock(thread.task) && acc.op.PushBulk?
    ensures PopPc(thread.pc) ==> HoldsLock(thread.task) && acc.op.PopBulk?
  {
  }

  lemma StackPcs(m: Machine, a: Action)
    requires a.Tick? && a.t < |m.threads|
    requires var e := Perform(m, a).e; e.Pushed? || e.Popped? || e.Empty?
    ensures var e := Perform(m, a).e;
      && e.t == a.t
      && (e.Pushed? ==> PushPc(m.threads[a.t].pc))
      && (!e.Pushed? ==> PopPc(m.threads[a.t].pc))
  {
  }

  /** The calls that push. */
  predicate Gives(op: Op) { op.Push? || op.PushBulk? }

  /** Only the holder of the lock changes or observes the stack. */
  lemma HolderMoves(m: Machine, l: Ledger, a: Action)
    requires Inv(m, l) && NoSingles(m) && Enabled(m, l, a) && a.Tick?
    requires var e := Perform(m, a).e; e.Pushed? || e.Popped? || e.Empty?
    ensures m.lock == Some(a.t) && Perform(m, a).e.t == a.t
    ensures Perform(m, a).e.Pushed? <==> l.accounts[a.t].op.PushBulk?
    ensures Perform(m, a).e.Pushed? <==> Gives(l.accounts[a.t].op)
  {
    assert ThreadInv(m, l, a.t);
    StackPcs(m, a);
    BulkPhase(m.mem, l.accounts[a.t], m.threads[a.t]);
  }

  /** What a call has done, relative to the stack it found. */
  ghost predicate Grip(l: Ledger, t: nat, found: seq<Block>) {
    && t < |l.accounts|
    && var acc := l.accounts[t];
       if Gives(acc.op) then l.stack == CacheSpec.Reverse(acc.pushed) + found
       else acc.held + l.stack == found && (acc.empties > 0 ==> l.stack == [])
  }

  lemma GripMoves(l: Ledger, t: nat, e: Event, found: seq<Block>)
    requires Grip(l, t, found) && EventOk(l, e)
    requires (e.Pushed? || e.Popped? || e.Empty?) && e.t == t
    requires e.Pushed? <==> Gives(l.accounts[t].op)
    ensures Grip(Record(l, e), t, found)
  {
    var acc := l.accounts[t];
    if e.Pushed? {
      CacheSpec.ReverseSnoc(acc.pushed, e.b);
      assert [e.b] + (CacheSpec.Reverse(acc.pushed) + found) == ([e.b] + CacheSpec.Reverse(acc.pushed)) + found;
    } else if e.Popped? {
      assert l.stack == [e.b] + l.stack[1..];
      assert (acc.held + [e.b]) + l.stack[1..] == acc.held + l.stack;
    }
  }

  lemma GripRests(l: Ledger, t: nat, e: Event, found: seq<Block>)
    requires Grip(l, t, found) && !e.Pushed? && !e.Popped? && !e.Empty?
    requires (e.Invoked? || e.Returned?) ==> e.t != t
    ensures Grip(Record(l, e), t, found)
  {
  }

  lemma HolderBusy(m: Machine, l: Ledger, a: Action, t: nat)
    requires Inv(m, l) && Enabled(m, l, a) && t < |m.threads| && m.lock == Some(t)
    ensures var e := Perform(m, a).e; (e.Invoked? || e.Returned?) ==> e.t != t
  {
    assert HoldsLock(m.threads[t].task);
  }

  lemma GripStep(m: Machine, l: Ledger, a: Action, t: nat, found: seq<Block>)
    requires Inv(m, l) && NoSingles(m) && Enabled(m, l, a) && NoWrap(m, l, a)
    requires m.lock == Some(t) && Grip(l, t, found)
    ensures Grip(Record(l, Perform(m, a).e), t, found)
  {
    var e := Perform(m, a).e;
    StepKeeps(m, l, a);
    if e.Pushed? || e.Popped? || e.Empty? {
      HolderMoves(m, l, a);
      GripMoves(l, t, e, found);
    } else {
      HolderBusy(m, l, a, t);
      GripRests(l, t, e, found);
    }
  }

  /** Thread `t` has the lock in every state before the last of the run. */
  predicate KeepsLock(s: State, acts: seq<Action>, t: nat)
    requires Runs(s, acts)
    decreases |acts|
  {
    acts == [] || (s.m.lock == Some(t) && BulkOnly(acts[0]) && KeepsLock(Next(s, acts[0]), acts[1..], t))
  }

  lemma {:induction false} GripRun(s: State, acts: seq<Action>, t: nat, found: seq<Block>)
    requires Inv(s.m, s.l) && NoSingles(s.m) && Grip(s.l, t, found)
    requires Runs(s, acts) && Unwrapped(s, acts) && KeepsLock(s, acts, t)
    ensures var s' := After(s, acts); Inv(s'.m, s'.l) && Grip(s'.l, t, found)
    decreases |acts|
  {
    if acts != [] {
      GripStep(s.m, s.l, acts[0], t, found);
      StepKeeps(s.m, s.l, acts[0]);
      NoSinglesStep(s.m, s.l, acts[0]);
      GripRun(Next(s, acts[0]), acts[1..], t, found);
    }
  }

  /** What a bulk operation has done when it is about to release the lock. */
  ghost predicate Transferred(acc: Account, found: seq<Block>, left: seq<Block>) {
    match acc.op
    case PopBulk(n) =>
      var k := CacheSpec.Taken(n, |found|);
      acc.held == found[..k] && left == found[k..]
    case PushBulk(batch) => left == CacheSpec.Reverse(batch) + found
    case _ => false
  }

  lemma GripEnds(m: Machine, l: Ledger, t: nat, found: seq<Block>)
    requires t < |m.threads| && Grip(l, t, found) && ThreadInv(m, l, t) && m.threads[t].task.Leaving?
    ensures Transferred(l.accounts[t], found, l.stack)
  {
    var acc := l.accounts[t];
    if acc.op.PopBulk? {
      assert found[..|acc.held|] == acc.held && found[|acc.held|..] == l.stack;
    }
  }

  lemma GripBegins(m: Machine, l: Ledger, t: nat)
    requires t < |m.threads| && t < |l.accounts| && ThreadInv(m, l, t)
    requires m.threads[t].task.PushBulkSeal? || m.threads[t].task.PopBulkFirst?
    ensures Grip(l, t, l.stack)
  {
    assert [] + l.stack == l.stack;
  }

  /** From the step after it has taken the lock to the moment it releases it,
      whatever the other threads do: `pop_bulk(n)` takes the first
      `Taken(n, length)` blocks of the stack it found, and `push_bulk` leaves
      the reversed batch on top of it. */
  lemma BulkIsAtomic(mem: map<Block, Ptr>, threads: nat, before: seq<Action>, acts: seq<Action>, t: nat)
    requires Runs(Fresh(mem, threads), before) && Unwrapped(Fresh(mem, threads), before)
    requires var s := After(Fresh(mem, threads), before);
      && NoSingles(s.m) && t < |s.m.threads|
      && (s.m.threads[t].task.PushBulkSeal? || s.m.threads[t].task.PopBulkFirst?)
      && Runs(s, acts) && Unwrapped(s, acts) && KeepsLock(s, acts, t)
      && t < |After(s, acts).m.threads| && After(s, acts).m.threads[t].task.Leaving?
    ensures var s := After(Fresh(mem, threads), before);
      var s' := After(s, acts);
      t < |s'.l.accounts| && Transferred(s'.l.accounts[t], s.l.stack, s'.l.stack)
  {
    FreshInv(mem, threads);
    RunKeeps(Fresh(mem, threads), before);
    TransferFrom(After(Fresh(mem, threads), before), acts, t);
  }

  lemma TransferFrom(s: State, acts: seq<Action>, t: nat)
    requires Inv(s.m, s.l) && NoSingles(s.m) && t < |s.m.threads|
    requires s.m.threads[t].task.PushBulkSeal? || s.m.threads[t].task.PopBulkFirst?
    requires Runs(s, acts) && Unwrapped(s, acts) && KeepsLock(s, acts, t)
    requires t < |After(s, acts).m.threads| && After(s, acts).m.threads[t].task.Leaving?
    ensures t < |After(s, acts).l.accounts|
      && Transferred(After(s, acts).l.accounts[t], s.l.stack, After(s, acts).l.stack)
  {
    assert ThreadInv(s.m, s.l, t);
    GripBegins(s.m, s.l, t);
    GripRun(s, acts, t, s.l.stack);
    var s' := After(s, acts);
    assert ThreadInv(s'.m, s'.l, t);
    GripEnds(s'.m, s'.l, t, s.l.stack);
  }
}
