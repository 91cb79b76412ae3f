/** A thread that runs alone finishes its call, wherever in it the thread stands,
    and a whole call so run does what the operation does on sequences. */
module TaggedStackSolo {
  import opened Options
  import opened TaggedStack
  import opened TaggedStackSteps
  import opened TaggedStackRuns
  import opened TaggedStackBulk
  import CacheSpec

  predicate OnlyTicks(acts: seq<Action>, t: nat) { forall i :: 0 <= i < |acts| ==> acts[i] == Tick(t, false) }

  /** Thread `t` alone, without spurious failures, takes `s` to `s'`. */
  ghost predicate Alone(s: State, t: nat, s': State) {
    exists acts :: OnlyTicks(acts, t) && Runs(s, acts) && After(s, acts) == s'
  }

  lemma AloneNone(s: State, t: nat)
    ensures Alone(s, t, s)
  {
    assert OnlyTicks([], t) && Runs(s, []) && After(s, []) == s;
  }

  lemma AloneStep(s: State, t: nat, s': State)
    requires Can(s, Tick(t, false)) && Alone(Next(s, Tick(t, false)), t, s')
    ensures Alone(s, t, s')
  {
    var a := Tick(t, false);
    var acts :| OnlyTicks(acts, t) && Runs(Next(s, a), acts) && After(Next(s, a), acts) == s';
    var all := [a] + acts;
    assert all[0] == a && all[1..] == acts;
    assert OnlyTicks(all, t) && Runs(s, all) && After(s, all) == s';
  }

  // ------------------------------------------------------------------
  // How far a call has to go
  // ------------------------------------------------------------------

  /** Blocks it has still to push, or may still pop. */
  function Work(acc: Account): nat {
    if Gives(acc.op) then |acc.held|
    else if |acc.held| < Quota(acc.op) then Quota(acc.op) - |acc.held| else 0
  }

  function Stage(task: Task): nat {
    match task
    case Outside => 0
    case Done(_) => 1
    case Leaving(_) => 2
    case OnePush => 3
    case PushBulkPush(_) => 3
    case PopBulkSeal(_, _, _) => 3
    case OnePop => 4
    case PopBulkFirst(_) => 4
    case PopBulkMore(_, _, _, _) => 4
    case PushBulkWalk(_) => 4
    case PopBulkLink(_, _, _, _, _) => 5
    case PushBulkSeal(_, _) => 5
    case PushBulkLock(_, _) => 6
    case PopBulkLock(_) => 6
  }

  /** Steps to the next compare-exchange that succeeds: a stale load costs one failure. */
  function Turns(pc: Pc, head: Head): nat {
    match pc
    case Between => 0
    case PushLoad(_) => 3
    case PopLoad => 3
    case PushLink(_, seen) => if seen == head then 2 else 5
    case PopNext(top, tag) => if Head(At(top), tag) == head then 2 else 5
    case PushCas(_, seen) => if seen == head then 1 else 4
    case PopCas(top, tag, _) => if Head(At(top), tag) == head then 1 else 4
  }

  ghost predicate Nearer(acc: Account, thread: Thread, head: Head, acc': Account, thread': Thread, head': Head) {
    || Work(acc') < Work(acc)
    || (Work(acc') == Work(acc) && Stage(thread'.task) < Stage(thread.task))
    || (Work(acc') == Work(acc) && Stage(thread'.task) == Stage(thread.task)
        && Turns(thread'.pc, head') < Turns(thread.pc, head))
  }

  /** Fewer than 2^64 changes of the head since the load of a pop in progress. */
  predicate Recent(m: Machine, l: Ledger, t: nat)
    requires t < |m.threads| && t < |l.accounts|
  {
    m.threads[t].pc.PopNext? || m.threads[t].pc.PopCas? ==> Changes(l) - l.accounts[t].loadedAt < TAGS
  }

  /** Waiting for `bulk_lock`. */
  predicate Waits(task: Task) { task.PushBulkLock? || task.PopBulkLock? }

  /** Thread `t` is inside a call and nobody keeps it from going on. */
  ghost predicate Going(s: State, t: nat) {
    && Inv(s.m, s.l) && t < |s.m.threads| && !s.m.threads[t].task.Outside? && Recent(s.m, s.l, t)
    && (Waits(s.m.threads[t].task) ==> s.m.lock == None)
  }

  /** The lock without thread `t`. */
  function Without(lock: Option<nat>, t: nat): Option<nat> { if lock == Some(t) then None else lock }

  /** What a step of a thread on its own does besides its part of the call. */
  ghost predicate Onward(m: Machine, l: Ledger, t: nat, o: Outcome) {
    && t < |m.threads| && t < |l.accounts|
    && |o.m.threads| == |m.threads| && o.m.threads == m.threads[t := o.m.threads[t]]
    && var l' := Record(l, o.e);
    && |l'.accounts| == |l.accounts|
    && Nearer(l.accounts[t], m.threads[t], m.head, l'.accounts[t], o.m.threads[t], o.m.head)
    && Recent(o.m, l', t) && !o.m.threads[t].task.Outside? && !Waits(o.m.threads[t].task)
    && Without(o.m.lock, t) == Without(m.lock, t)
    && !o.e.Returned? && !o.e.Invoked?
    && (o.e.Pushed? || o.e.Popped? || o.e.Empty? ==> o.e.t == t && (o.e.Pushed? <==> Gives(l.accounts[t].op)))
  }

  lemma PushOnward(m: Machine, l: Ledger, t: nat)
    requires t < |m.threads| && t < |l.accounts| && ThreadInv(m, l, t) && PushPc(m.threads[t].pc)
    ensures Onward(m, l, t, TickPush(m, t, false))
  {
  }

  lemma PopOnward(m: Machine, l: Ledger, t: nat)
    requires t < |m.threads| && t < |l.accounts| && ThreadInv(m, l, t) && PopPc(m.threads[t].pc)
    requires Recent(m, l, t) && EventOk(l, TickPop(m, t, false).e)
    ensures Onward(m, l, t, TickPop(m, t, false))
  {
  }

  lemma TaskOnward(m: Machine, l: Ledger, t: nat)
    requires t < |m.threads| && t < |l.accounts| && ThreadInv(m, l, t) && LockInv(m)
    requires m.threads[t].pc.Between? && !m.threads[t].task.Outside? && !m.threads[t].task.Done?
    requires Waits(m.threads[t].task) ==> m.lock == None
    ensures Onward(m, l, t, TickTask(m, t))
  {
  }

  lemma TickOnward(s: State, t: nat)
    requires Going(s, t) && !s.m.threads[t].task.Done?
    ensures Can(s, Tick(t, false)) && Going(Next(s, Tick(t, false)), t)
    ensures Onward(s.m, s.l, t, Perform(s.m, Tick(t, false)))
    ensures EventOk(s.l, Perform(s.m, Tick(t, false)).e)
  {
    assert ThreadInv(s.m, s.l, t);
    StepKeeps(s.m, s.l, Tick(t, false));
    var pc := s.m.threads[t].pc;
    if PushPc(pc) {
      PushOnward(s.m, s.l, t);
    } else if PopPc(pc) {
      PopOnward(s.m, s.l, t);
    } else {
      TaskOnward(s.m, s.l, t);
    }
  }

  // ------------------------------------------------------------------
  // The call
  // ------------------------------------------------------------------

  /** From wherever thread `t` is in its call, running alone it comes to return;
      the lock is no longer its own, and the other threads stand where they
      stood. */
  lemma {:induction false} Finishes(s: State, t: nat, found: seq<Block>) returns (s': State)
    requires Going(s, t)
    ensures Alone(s, t, s') && Inv(s'.m, s'.l) && t < |s'.m.threads| && s'.m.threads[t].task.Done?
    ensures s'.m.threads == s.m.threads[t := s'.m.threads[t]] && s'.m.lock == Without(s.m.lock, t)
    ensures s'.l.accounts[t].op == s.l.accounts[t].op
    ensures Grip(s.l, t, found) ==> Grip(s'.l, t, found)
    decreases Work(s.l.accounts[t]), Stage(s.m.threads[t].task), Turns(s.m.threads[t].pc, s.m.head)
  {
    if s.m.threads[t].task.Done? {
      s' := s;
      AloneNone(s, t);
    } else {
      var a := Tick(t, false);
      TickOnward(s, t);
      var e := Perform(s.m, a).e;
      if Grip(s.l, t, found) {
        if e.Pushed? || e.Popped? || e.Empty? {
          GripMoves(s.l, t, e, found);
        } else {
          GripRests(s.l, t, e, found);
        }
      }
      s' := Finishes(Next(s, a), t, found);
      AloneStep(s, t, s');
    }
  }

  /** What the call leaves as the stack. */
  function Leaves(op: Op, stack: seq<Block>): seq<Block> {
    CacheSpec.Reverse(Hands(op)) + stack[Takes(op, stack)..]
  }

  /** How many blocks it takes. */
  function Takes(op: Op, stack: seq<Block>): (k: nat)
    ensures k <= |stack|
  {
    if Quota(op) < |stack| then Quota(op) else |stack|
  }

  lemma Tallied(mem: map<Block, Ptr>, l: Ledger, t: nat, found: seq<Block>, value: Ptr)
    requires Grip(l, t, found) && Fulfilled(mem, l.accounts[t], value)
    ensures var op, k := l.accounts[t].op, Takes(l.accounts[t].op, found);
      && l.stack == Leaves(op, found) && l.accounts[t].held == found[..k] && value == First(found[..k])
      && (op.PopBulk? ==> Chain(mem, found[..k]))
  {
    var acc := l.accounts[t];
    if Gives(acc.op) {
      assert found[..0] == [] && found[0..] == found;
    } else {
      assert found[..|acc.held|] == acc.held && found[|acc.held|..] == l.stack;
      assert CacheSpec.Reverse(Hands(acc.op)) + l.stack == l.stack;
    }
  }

  lemma Called(s: State, t: nat, op: Op)
    requires Can(s, Invoke(t, op)) && |s.l.accounts| == |s.m.threads|
    ensures var s1 := Next(s, Invoke(t, op));
      && t < |s1.l.accounts| && Grip(s1.l, t, s.l.stack) && s1.l.accounts[t].op == op
      && s1.m == s.m.(threads := s.m.threads[t := Start(op)])
  {
    assert CacheSpec.Reverse([]) + s.l.stack == s.l.stack && [] + s.l.stack == s.l.stack;
  }

  lemma StartGoing(s: State, t: nat, op: Op)
    requires t < |s.m.threads| && Inv(s.m, s.l) && (op.PushBulk? ==> |op.batch| > 0) && s.m.threads[t] == Start(op)
    requires op.PushBulk? || op.PopBulk? ==> s.m.lock == None
    ensures Going(s, t)
  {
  }

  lemma Finished(m: Machine, l: Ledger, t: nat)
    requires Inv(m, l) && t < |m.threads| && m.threads[t].task.Done?
    ensures Fulfilled(m.mem, l.accounts[t], m.threads[t].task.value) && m.threads[t].pc.Between?
  {
    assert ThreadInv(m, l, t);
  }

  lemma NotHolding(m: Machine, t: nat)
    requires LockInv(m) && t < |m.threads| && m.threads[t].task.Outside?
    ensures Without(m.lock, t) == m.lock
  {
  }

  /** Thread `t` is at the start of `op` on the stack `found`, the other threads at `threads`. */
  ghost predicate Begun(s: State, t: nat, op: Op, found: seq<Block>, threads: seq<Thread>) {
    && Inv(s.m, s.l) && t < |threads| && (op.PushBulk? ==> |op.batch| > 0)
    && |s.m.threads| == |threads| && s.m.threads == threads[t := s.m.threads[t]] && s.m.threads[t] == Start(op)
    && Grip(s.l, t, found) && s.l.accounts[t].op == op
  }

  /** Thread `t` is about to return from `op`, which found the stack `found`. */
  ghost predicate Ended(s: State, t: nat, op: Op, found: seq<Block>, threads: seq<Thread>) {
    && Inv(s.m, s.l) && t < |threads| == |s.m.threads| && s.m.threads == threads[t := s.m.threads[t]]
    && var k := Takes(op, found);
    && s.l.stack == Leaves(op, found)
    && s.m.threads[t] == Thread(Done(First(found[..k])), Between)
    && (op.PopBulk? ==> Chain(s.m.mem, found[..k]))
  }

  /** The next step of thread `t` ends its call with `value`, and is nothing but that. */
  ghost predicate Returning(m: Machine, t: nat, value: Ptr) {
    && t < |m.threads|
    && Perform(m, Tick(t, false)) ==
         Outcome(m.(threads := m.threads[t := Thread(Outside, Between)]), Returned(t, value))
  }

  lemma DoneReturns(m: Machine, t: nat)
    requires t < |m.threads| && m.threads[t].task.Done? && m.threads[t].pc.Between?
    ensures Returning(m, t, m.threads[t].task.value)
  {
  }

  lemma Begins(s: State, t: nat, op: Op)
    requires Inv(s.m, s.l) && Can(s, Invoke(t, op))
    ensures var s1 := Next(s, Invoke(t, op));
      Begun(s1, t, op, s.l.stack, s.m.threads) && Without(s1.m.lock, t) == s1.m.lock == s.m.lock
  {
    InvokeKeeps(s.m, s.l, t, op);
    Called(s, t, op);
    NotHolding(s.m, t);
  }

  /** The part of a call after its start. */
  lemma FromStart(s: State, t: nat, op: Op, found: seq<Block>, threads: seq<Thread>) returns (s': State)
    requires Begun(s, t, op, found, threads) && (op.PushBulk? || op.PopBulk? ==> s.m.lock == None)
    ensures Alone(s, t, s') && Ended(s', t, op, found, threads) && s'.m.lock == Without(s.m.lock, t)
  {
    StartGoing(s, t, op);
    s' := Finishes(s, t, found);
    Finished(s'.m, s'.l, t);
    Tallied(s'.m.mem, s'.l, t, found, s'.m.threads[t].task.value);
  }

  /** `push`, `pop`, `push_bulk` and `pop_bulk`, called with the lock free and
      run alone: the call comes to return; pushes leave the blocks reversed on
      top of the stack, pops take the first blocks off, as many as there are up
      to the number asked for, and return the first of them or null, `pop_bulk`
      as a null-terminated chain. */
  lemma CallAlone(s: State, t: nat, op: Op) returns (s': State)
    requires Inv(s.m, s.l) && Can(s, Invoke(t, op)) && (op.PushBulk? || op.PopBulk? ==> s.m.lock == None)
    ensures Alone(Next(s, Invoke(t, op)), t, s')
    ensures Ended(s', t, op, s.l.stack, s.m.threads) && s'.m.lock == s.m.lock
    ensures Returning(s'.m, t, First(s.l.stack[..Takes(op, s.l.stack)]))
  {
    Begins(s, t, op);
    s' := FromStart(Next(s, Invoke(t, op)), t, op, s.l.stack, s.m.threads);
    DoneReturns(s'.m, t);
  }
}
