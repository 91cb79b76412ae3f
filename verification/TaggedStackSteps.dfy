/** Every step of the stack machine keeps the invariant, and its event is a legal
    step of the abstract stack. */
module TaggedStackSteps {
  import opened Options
  import opened Sequences
  import opened TaggedStack

  /** What a step of another thread may do as far as thread `u` can see. */
  ghost predicate Rely(m: Machine, l: Ledger, m': Machine, l': Ledger, u: nat)
    requires u < |m.threads| == |l.accounts|
  {
    && |m'.threads| == |l'.accounts| == |m.threads|
    && m'.threads[u] == m.threads[u]
    && l'.accounts[u] == l.accounts[u]
    && m'.mem.Keys == m.mem.Keys
    && (forall b :: b in m.mem && (b in l.accounts[u].held || b in l.stack) ==> m'.mem[b] == m.mem[b])
    && (Changes(l') == Changes(l) ==> m'.head == m.head)
    && Changes(l) <= Changes(l')
  }

  /** A chain survives writes elsewhere. */
  lemma LinkedFrame(mem: map<Block, Ptr>, mem': map<Block, Ptr>, s: seq<Block>)
    requires mem'.Keys == mem.Keys
    requires forall b :: b in s && b in mem ==> mem'[b] == mem[b]
    ensures Linked(mem, s) ==> Linked(mem', s)
    ensures Chain(mem, s) ==> Chain(mem', s)
  {
  }

  lemma TaskFrame(mem: map<Block, Ptr>, mem': map<Block, Ptr>, acc: Account, thread: Thread)
    requires mem'.Keys == mem.Keys
    requires forall b :: b in acc.held && b in mem ==> mem'[b] == mem[b]
    requires TaskInv(mem, acc, thread)
    ensures TaskInv(mem', acc, thread)
  {
    LinkedFrame(mem, mem', acc.held);
    if thread.task.PushBulkPush? {
      assert forall b :: b in acc.held[1..] ==> b in acc.held;
      LinkedFrame(mem, mem', acc.held[1..]);
    } else if thread.task.PopBulkLink? {
      assert forall b :: b in acc.held[..thread.task.count] ==> b in acc.held;
      LinkedFrame(mem, mem', acc.held[..thread.task.count]);
    }
  }

  lemma PcFrame(m: Machine, m': Machine, changes: nat, changes': nat, acc: Account, pc: Pc)
    requires m'.mem.Keys == m.mem.Keys
    requires forall b :: b in acc.held && b in m.mem ==> m'.mem[b] == m.mem[b]
    requires changes <= changes'
    requires changes == changes' ==> m'.head == m.head
    requires changes == changes' && m.head.ptr.At? ==> Deref(m'.mem, m.head.ptr.block) == Deref(m.mem, m.head.ptr.block)
    requires PcInv(m, changes, acc, pc)
    ensures PcInv(m', changes', acc, pc)
  {
  }

  lemma RelyKeepsThread(m: Machine, l: Ledger, m': Machine, l': Ledger, u: nat)
    requires u < |m.threads| == |l.accounts|
    requires StackInv(m, l) && ThreadInv(m, l, u)
    requires Rely(m, l, m', l', u)
    ensures ThreadInv(m', l', u)
  {
    TaskFrame(m.mem, m'.mem, l.accounts[u], m.threads[u]);
    if m.head.ptr.At? {
      assert m.head.ptr.block == l.stack[0];
    }
    PcFrame(m, m', Changes(l), Changes(l'), l.accounts[u], m.threads[u].pc);
  }

  /** The event fits the abstract stack and the hands of its thread. */
  ghost predicate EventOk(l: Ledger, e: Event) {
    match e
    case Invoked(t, op) =>
      t < |l.accounts| && l.accounts[t].held == [] && Owned(l, Hands(op)) && Distinct(Hands(op))
    case Loaded(t) => t < |l.accounts|
    case Pushed(t, b) => t < |l.accounts| && |l.accounts[t].held| > 0 && l.accounts[t].held[0] == b
    case Popped(t, b) => t < |l.accounts| && |l.stack| > 0 && l.stack[0] == b
    case Empty(t) => t < |l.accounts| && l.stack == []
    case Failed(t, _) => t < |l.accounts|
    case Returned(t, _) => t < |l.accounts|
    case _ => true
  }

  lemma RecordPushed(l: Ledger, t: nat, b: Block)
    requires LedgerInv(l) && EventOk(l, Pushed(t, b))
    ensures LedgerInv(Record(l, Pushed(t, b)))
  {
    var l' := Record(l, Pushed(t, b));
    var held := l.accounts[t].held;
    assert HandInv(l, t) && held == [b] + held[1..] && b !in held[1..] && b in held;
    assert forall x :: x in l'.stack <==> x == b || x in l.stack;
    forall u | 0 <= u < |l'.accounts| ensures HandInv(l', u) {
      assert HandInv(l, u);
    }
  }

  lemma RecordPopped(l: Ledger, t: nat, b: Block)
    requires LedgerInv(l) && EventOk(l, Popped(t, b))
    ensures LedgerInv(Record(l, Popped(t, b)))
  {
    var l' := Record(l, Popped(t, b));
    assert HandInv(l, t);
    assert l.stack == [b] + l.stack[1..] && b !in l.stack[1..] && b in l.stack;
    forall u | 0 <= u < |l'.accounts| ensures HandInv(l', u) {
      assert HandInv(l, u);
    }
  }

  lemma RecordInvoked(l: Ledger, t: nat, op: Op)
    requires LedgerInv(l) && EventOk(l, Invoked(t, op))
    ensures LedgerInv(Record(l, Invoked(t, op)))
  {
    var l' := Record(l, Invoked(t, op));
    forall u | 0 <= u < |l'.accounts| ensures HandInv(l', u) {
      assert HandInv(l, u);
    }
  }

  lemma RecordReturned(l: Ledger, t: nat, value: Ptr)
    requires LedgerInv(l) && EventOk(l, Returned(t, value))
    ensures LedgerInv(Record(l, Returned(t, value)))
  {
    var l' := Record(l, Returned(t, value));
    assert HandInv(l, t);
    forall u | 0 <= u < |l'.accounts| ensures HandInv(l', u) {
      assert HandInv(l, u);
    }
  }

  /** Every admissible event keeps the pool partitioned. */
  lemma RecordKeeps(l: Ledger, e: Event)
    requires LedgerInv(l) && EventOk(l, e)
    ensures LedgerInv(Record(l, e))
  {
    match e
    case Pushed(t, b) => RecordPushed(l, t, b);
    case Popped(t, b) => RecordPopped(l, t, b);
    case Invoked(t, op) => RecordInvoked(l, t, op);
    case Returned(t, v) => RecordReturned(l, t, v);
    case _ =>
      var l' := Record(l, e);
      forall u | 0 <= u < |l'.accounts| ensures HandInv(l', u) {
        assert HandInv(l, u);
      }
  }

  /** A step of thread `t` writes only blocks that `t` holds. */
  ghost predicate Footprint(m: Machine, l: Ledger, m': Machine, t: nat) {
    && t < |m.threads| == |m'.threads| == |l.accounts|
    && m'.mem.Keys == m.mem.Keys == l.place.Keys
    && m'.threads == m.threads[t := m'.threads[t]]
    && (forall b :: b in m.mem && m'.mem[b] != m.mem[b] ==> l.place[b] == Held(t))
  }

  lemma OthersRely(m: Machine, l: Ledger, m': Machine, l': Ledger, t: nat, u: nat)
    requires LedgerInv(l) && Footprint(m, l, m', t) && u < |m.threads| && u != t
    requires |l'.accounts| == |l.accounts| && l'.accounts[u] == l.accounts[u]
    requires Changes(l) <= Changes(l')
    requires Changes(l') == Changes(l) ==> m'.head == m.head
    ensures Rely(m, l, m', l', u)
  {
    assert HandInv(l, u);
  }

  predicate ByThread(e: Event, t: nat) {
    match e
    case Silent => true
    case Wrote(_) => true
    case Invoked(u, _) => u == t
    case Loaded(u) => u == t
    case Pushed(u, _) => u == t
    case Popped(u, _) => u == t
    case Empty(u) => u == t
    case Failed(u, _) => u == t
    case Returned(u, _) => u == t
  }

  lemma Conclude(m: Machine, l: Ledger, m': Machine, e: Event, t: nat)
    requires Inv(m, l) && Footprint(m, l, m', t)
    requires Outward(m, l, m', e, t)
    requires StackInv(m', Record(l, e)) && LockInv(m') && ThreadInv(m', Record(l, e), t)
    ensures Inv(m', Record(l, e))
  {
    RecordKeeps(l, e);
    forall u | 0 <= u < |m'.threads| ensures ThreadInv(m', Record(l, e), u) {
      if u != t {
        OtherConcludes(m, l, m', e, t, u);
      }
    }
  }

  lemma OtherConcludes(m: Machine, l: Ledger, m': Machine, e: Event, t: nat, u: nat)
    requires Inv(m, l) && Footprint(m, l, m', t) && Outward(m, l, m', e, t) && u < |m.threads| && u != t
    ensures ThreadInv(m', Record(l, e), u)
  {
    assert ThreadInv(m, l, u);
    OutwardOthers(m, l, m', e, t, u);
    OthersRely(m, l, m', Record(l, e), t, u);
    RelyKeepsThread(m, l, m', Record(l, e), u);
  }

  lemma OutwardOthers(m: Machine, l: Ledger, m': Machine, e: Event, t: nat, u: nat)
    requires Outward(m, l, m', e, t) && u < |l.accounts| && u != t
    ensures Record(l, e).accounts[u] == l.accounts[u] && Changes(l) <= Changes(Record(l, e))
    ensures Changes(Record(l, e)) == Changes(l) ==> m'.head == m.head
  {
  }

  /** The stack is untouched by writes to held blocks. */
  lemma StackFrame(m: Machine, l: Ledger, m': Machine, e: Event, t: nat)
    requires Inv(m, l) && Footprint(m, l, m', t)
    requires Outward(m, l, m', e, t) && !e.Pushed? && !e.Popped?
    ensures StackInv(m', Record(l, e))
  {
    LinkedFrame(m.mem, m'.mem, l.stack);
  }

  /** Replacing the state of thread `t` by one that holds the lock alike. */
  lemma LockFrame(m: Machine, m': Machine, t: nat)
    requires LockInv(m) && m'.lock == m.lock
    requires t < |m.threads| == |m'.threads| && m'.threads == m.threads[t := m'.threads[t]]
    requires HoldsLock(m'.threads[t].task) <==> HoldsLock(m.threads[t].task)
    ensures LockInv(m')
  {
  }

  /** What a step of thread `t` does beside the thread's own state. */
  ghost predicate Outward(m: Machine, l: Ledger, m': Machine, e: Event, t: nat) {
    && EventOk(l, e) && ByThread(e, t) && |Record(l, e).accounts| == |l.accounts|
    && (e.Pushed? || e.Popped? ||
        (m'.head == m.head && Record(l, e).stack == l.stack && Changes(Record(l, e)) == Changes(l)))
  }

  lemma PushLinkThread(m: Machine, l: Ledger, t: nat, weak: bool)
    requires t < |m.threads| && t < |l.accounts| && m.threads[t].pc.PushLink?
    requires ThreadInv(m, l, t) && Distinct(l.accounts[t].held)
    requires forall b :: b in l.accounts[t].held ==> b in m.mem
    ensures ThreadInv(TickPush(m, t, weak).m, l, t)
  {
    var m' := TickPush(m, t, weak).m;
    var held, node := l.accounts[t].held, m.threads[t].pc.node;
    assert node in held;
    assert m'.mem.Keys == m.mem.Keys;
    assert forall b :: b in held[1..] ==> b in held && b != node;
    LinkedFrame(m.mem, m'.mem, held[1..]);
  }

  lemma PushedThread(m: Machine, l: Ledger, t: nat)
    requires t < |m.threads| && t < |l.accounts|
    requires m.threads[t].pc.PushCas? && m.threads[t].pc.seen == m.head
    requires ThreadInv(m, l, t)
    ensures var o := TickPush(m, t, false);
      && ThreadInv(o.m, Record(l, o.e), t)
      && HoldsLock(o.m.threads[t].task) == HoldsLock(m.threads[t].task)
  {
    var acc, node := l.accounts[t], m.threads[t].pc.node;
    assert acc.held == [node] + acc.held[1..];
    assert acc.pushed + [node] + acc.held[1..] == acc.pushed + acc.held;
  }

  lemma PushedStack(m: Machine, l: Ledger, t: nat)
    requires t < |m.threads| && t < |l.accounts| && |l.accounts[t].held| > 0
    requires m.threads[t].pc.PushCas? && m.threads[t].pc.seen == m.head
    requires m.threads[t].pc.node in m.mem && m.mem[m.threads[t].pc.node] == m.head.ptr
    requires StackInv(m, l)
    ensures var o := TickPush(m, t, false); StackInv(o.m, Record(l, o.e))
  {
  }

  /** Moving on inside `push` or `pop` leaves the surrounding task alone. */
  lemma TaskSamePhase(mem: map<Block, Ptr>, acc: Account, task: Task, pc: Pc, pc': Pc, at: nat)
    requires TaskInv(mem, acc, Thread(task, pc))
    requires (PushPc(pc) && PushPc(pc')) || (PopPc(pc) && PopPc(pc'))
    ensures TaskInv(mem, acc.(loadedAt := at), Thread(task, pc'))
  {
  }

  lemma PushTickThread(m: Machine, l: Ledger, t: nat, weak: bool)
    requires t < |m.threads| && t < |l.accounts| && PushPc(m.threads[t].pc)
    requires ThreadInv(m, l, t) && StackInv(m, l) && Distinct(l.accounts[t].held)
    requires forall b :: b in l.accounts[t].held ==> b in m.mem
    requires !TickPush(m, t, weak).e.Pushed?
    ensures var o := TickPush(m, t, weak);
      && ThreadInv(o.m, Record(l, o.e), t)
      && HoldsLock(o.m.threads[t].task) == HoldsLock(m.threads[t].task)
  {
    if m.threads[t].pc.PushLink? {
      PushLinkThread(m, l, t, weak);
    } else {
      var o := TickPush(m, t, weak);
      TaskSamePhase(m.mem, l.accounts[t], m.threads[t].task, m.threads[t].pc, o.m.threads[t].pc,
                    Record(l, o.e).accounts[t].loadedAt);
    }
  }

  lemma PushFootprint(m: Machine, l: Ledger, t: nat, weak: bool)
    requires t < |m.threads| == |l.accounts| && PushPc(m.threads[t].pc) && m.mem.Keys == l.place.Keys
    requires m.threads[t].pc.node in l.place && l.place[m.threads[t].pc.node] == Held(t)
    ensures Footprint(m, l, TickPush(m, t, weak).m, t)
  {
  }

  lemma PushOutward(m: Machine, l: Ledger, t: nat, weak: bool)
    requires t < |m.threads| == |l.accounts| && PushPc(m.threads[t].pc)
    requires |l.accounts[t].held| > 0 && l.accounts[t].held[0] == m.threads[t].pc.node
    ensures var o := TickPush(m, t, weak); Outward(m, l, o.m, o.e, t) && o.m.lock == m.lock
  {
  }

  lemma PushTickKeeps(m: Machine, l: Ledger, t: nat, weak: bool)
    requires Inv(m, l) && t < |m.threads| && PushPc(m.threads[t].pc)
    ensures var o := TickPush(m, t, weak); EventOk(l, o.e) && Inv(o.m, Record(l, o.e))
  {
    var o := TickPush(m, t, weak);
    assert ThreadInv(m, l, t) && HandInv(l, t);
    assert m.threads[t].pc.node in l.accounts[t].held;
    PushFootprint(m, l, t, weak);
    PushOutward(m, l, t, weak);
    if o.e.Pushed? {
      PushedThread(m, l, t);
      PushedStack(m, l, t);
    } else {
      PushTickThread(m, l, t, weak);
      StackFrame(m, l, o.m, o.e, t);
    }
    LockFrame(m, o.m, t);
    Conclude(m, l, o.m, o.e, t);
  }

  /** Tags that agree after fewer than 2^64 changes come from the same change. */
  lemma SameTag(a: nat, b: nat)
    requires a <= b < a + TAGS && a % TAGS == b % TAGS
    ensures a == b
  {
    assert a == TAGS * (a / TAGS) + a % TAGS && b == TAGS * (b / TAGS) + b % TAGS;
    assert b - a == TAGS * (b / TAGS - a / TAGS);
  }

  /** The heart of the ABA argument: the expected head is the head that was
      loaded, so the link read after the load is still the link of the top. */
  lemma PopSeesTop(m: Machine, l: Ledger, t: nat)
    requires Inv(m, l) && t < |m.threads|
    requires m.threads[t].pc.PopCas?
    requires m.head == Head(At(m.threads[t].pc.top), m.threads[t].pc.tag)
    requires Changes(l) - l.accounts[t].loadedAt < TAGS
    ensures l.accounts[t].loadedAt == Changes(l)
    ensures |l.stack| > 0 && m.threads[t].pc.top == l.stack[0]
    ensures m.threads[t].pc.next == First(l.stack[1..])
  {
    assert ThreadInv(m, l, t);
    SameTag(l.accounts[t].loadedAt, Changes(l));
  }

  lemma PoppedTask(mem: map<Block, Ptr>, acc: Account, task: Task, pc: Pc, b: Block)
    requires TaskInv(mem, acc, Thread(task, pc)) && PopPc(pc) && b in mem
    ensures TaskInv(mem, acc.(held := acc.held + [b]), AfterPop(task, At(b)))
    ensures AfterPop(task, At(b)).pc.Between? || AfterPop(task, At(b)).pc.PopLoad?
    ensures HoldsLock(AfterPop(task, At(b)).task) <==> HoldsLock(task)
  {
    var held := acc.held + [b];
    if task.PopBulkMore? {
      assert held[..task.count] == acc.held;
    }
  }

  lemma PoppedThread(m: Machine, l: Ledger, t: nat)
    requires t < |m.threads| && t < |l.accounts| && |l.stack| > 0
    requires m.threads[t].pc.PopCas? && m.head == Head(At(m.threads[t].pc.top), m.threads[t].pc.tag)
    requires ThreadInv(m, l, t)
    ensures var o := TickPop(m, t, false);
      && ThreadInv(o.m, Record(l, o.e), t)
      && (HoldsLock(o.m.threads[t].task) <==> HoldsLock(m.threads[t].task))
  {
    PoppedTask(m.mem, l.accounts[t], m.threads[t].task, m.threads[t].pc, m.threads[t].pc.top);
  }

  lemma PoppedStack(m: Machine, l: Ledger, t: nat)
    requires t < |m.threads| && t < |l.accounts| && |l.stack| > 0
    requires m.threads[t].pc.PopCas? && m.head == Head(At(m.threads[t].pc.top), m.threads[t].pc.tag)
    requires m.threads[t].pc.next == First(l.stack[1..])
    requires StackInv(m, l)
    ensures var o := TickPop(m, t, false); StackInv(o.m, Record(l, o.e))
  {
  }

  lemma EmptyTask(mem: map<Block, Ptr>, acc: Account, task: Task)
    requires TaskInv(mem, acc, Thread(task, PopLoad))
    ensures TaskInv(mem, acc.(empties := acc.empties + 1), AfterPop(task, Null))
    ensures AfterPop(task, Null).pc.Between?
    ensures HoldsLock(AfterPop(task, Null).task) == HoldsLock(task)
  {
  }

  lemma PopTickPc(m: Machine, l: Ledger, t: nat, weak: bool)
    requires t < |m.threads| && t < |l.accounts| && PopPc(m.threads[t].pc)
    requires PcInv(m, Changes(l), l.accounts[t], m.threads[t].pc) && StackInv(m, l)
    requires !TickPop(m, t, weak).e.Popped? && !TickPop(m, t, weak).e.Empty?
    ensures var o := TickPop(m, t, weak);
      PcInv(o.m, Changes(Record(l, o.e)), Record(l, o.e).accounts[t], o.m.threads[t].pc)
  {
    if m.head.ptr.At? {
      assert m.head.ptr.block == l.stack[0];
    }
  }

  /** The steps of `pop` that neither take a block nor find none. */
  lemma PopOnTheWay(m: Machine, l: Ledger, t: nat, weak: bool)
    requires t < |m.threads| && t < |l.accounts| && PopPc(m.threads[t].pc)
    requires !TickPop(m, t, weak).e.Popped? && !TickPop(m, t, weak).e.Empty?
    ensures var o := TickPop(m, t, weak);
      && o.m.mem == m.mem && o.m.threads[t].task == m.threads[t].task && PopPc(o.m.threads[t].pc)
      && |Record(l, o.e).accounts| == |l.accounts|
      && Record(l, o.e).accounts[t] == l.accounts[t].(loadedAt := Record(l, o.e).accounts[t].loadedAt)
  {
  }

  lemma PopEmptyThread(m: Machine, l: Ledger, t: nat, weak: bool)
    requires t < |m.threads| && t < |l.accounts| && m.threads[t].pc.PopLoad? && m.head.ptr.Null?
    requires TaskInv(m.mem, l.accounts[t], m.threads[t])
    ensures var o := TickPop(m, t, weak);
      && ThreadInv(o.m, Record(l, o.e), t)
      && HoldsLock(o.m.threads[t].task) == HoldsLock(m.threads[t].task)
  {
    EmptyTask(m.mem, l.accounts[t], m.threads[t].task);
  }

  lemma PopTickThread(m: Machine, l: Ledger, t: nat, weak: bool)
    requires t < |m.threads| && t < |l.accounts| && PopPc(m.threads[t].pc)
    requires ThreadInv(m, l, t) && StackInv(m, l)
    requires !TickPop(m, t, weak).e.Popped?
    ensures var o := TickPop(m, t, weak);
      && ThreadInv(o.m, Record(l, o.e), t)
      && HoldsLock(o.m.threads[t].task) == HoldsLock(m.threads[t].task)
  {
    var o := TickPop(m, t, weak);
    if o.e.Empty? {
      PopEmptyThread(m, l, t, weak);
    } else {
      PopTickPc(m, l, t, weak);
      PopOnTheWay(m, l, t, weak);
      TaskSamePhase(m.mem, l.accounts[t], m.threads[t].task, m.threads[t].pc, o.m.threads[t].pc,
                    Record(l, o.e).accounts[t].loadedAt);
    }
  }

  lemma PopFootprint(m: Machine, l: Ledger, t: nat, weak: bool)
    requires t < |m.threads| == |l.accounts| && m.mem.Keys == l.place.Keys
    ensures Footprint(m, l, TickPop(m, t, weak).m, t)
  {
  }

  lemma PopOutward(m: Machine, l: Ledger, t: nat, weak: bool)
    requires t < |m.threads| == |l.accounts| && PopPc(m.threads[t].pc) && m.head.ptr == First(l.stack)
    ensures var o := TickPop(m, t, weak); Outward(m, l, o.m, o.e, t) && o.m.lock == m.lock
  {
  }

  lemma PopTickKeeps(m: Machine, l: Ledger, t: nat, weak: bool)
    requires Inv(m, l) && t < |m.threads| && PopPc(m.threads[t].pc)
    requires NoWrap(m, l, Tick(t, weak))
    ensures var o := TickPop(m, t, weak); EventOk(l, o.e) && Inv(o.m, Record(l, o.e))
  {
    var o := TickPop(m, t, weak);
    assert ThreadInv(m, l, t);
    PopFootprint(m, l, t, weak);
    PopOutward(m, l, t, weak);
    if o.e.Popped? {
      PopSeesTop(m, l, t);
      PoppedThread(m, l, t);
      PoppedStack(m, l, t);
    } else {
      PopTickThread(m, l, t, weak);
      StackFrame(m, l, o.m, o.e, t);
    }
    LockFrame(m, o.m, t);
    Conclude(m, l, o.m, o.e, t);
  }

  /** Writing the link of the last block of a held chain. */
  lemma LastLink(mem: map<Block, Ptr>, s: seq<Block>, p: Ptr)
    requires Linked(mem, s) && Distinct(s) && |s| > 0
    ensures Linked(mem[s[|s| - 1] := p], s)
  {
  }

  lemma PushSealTask(mem: map<Block, Ptr>, acc: Account, first: Block, last: Block)
    requires TaskInv(mem, acc, Thread(PushBulkSeal(first, last), Between)) && Distinct(acc.held)
    ensures TaskInv(mem[last := Null], acc, Thread(PushBulkWalk(At(first)), Between))
  {
    LastLink(mem, acc.held, Null);
  }

  lemma PushWalkTask(mem: map<Block, Ptr>, acc: Account, b: Block)
    requires TaskInv(mem, acc, Thread(PushBulkWalk(At(b)), Between))
    ensures TaskInv(mem, acc, Thread(PushBulkPush(Deref(mem, b)), PushLoad(b)))
  {
    var rest := acc.held[1..];
    assert Linked(mem, rest);
    assert |rest| > 0 ==> rest[|rest| - 1] == acc.held[|acc.held| - 1];
  }

  lemma PopLinkTask(mem: map<Block, Ptr>, acc: Account, n: nat, first: Block, last: Block, count: nat, got: Block)
    requires TaskInv(mem, acc, Thread(PopBulkLink(n, first, last, count, got), Between)) && Distinct(acc.held)
    ensures TaskInv(mem[last := At(got)], acc, MoreOrSeal(n, first, got, count + 1))
    ensures PopPc(MoreOrSeal(n, first, got, count + 1).pc) ==> MoreOrSeal(n, first, got, count + 1).pc.PopLoad?
  {
    var held := acc.held;
    var mem' := mem[last := At(got)];
    LastLink(mem, held[..count], At(got));
    forall i, j | 0 <= i < |held| && 0 <= j < |held| && j == i + 1 ensures mem'[held[i]] == At(held[j]) {
      if j < count {
        assert held[..count][i] == held[i] && held[..count][j] == held[j];
      }
    }
    assert forall i :: 0 <= i < count ==> held[..count][i] == held[i];
    assert Linked(mem', held);
  }

  lemma PopSealTask(mem: map<Block, Ptr>, acc: Account, n: nat, first: Block, last: Block)
    requires TaskInv(mem, acc, Thread(PopBulkSeal(n, first, last), Between)) && Distinct(acc.held)
    ensures TaskInv(mem[last := Null], acc, Thread(Leaving(At(first)), Between))
  {
    LastLink(mem, acc.held, Null);
  }

  /** Taking and releasing the lock, and returning to the client. */
  lemma DoorTask(m: Machine, l: Ledger, t: nat)
    requires t < |m.threads| && t < |l.accounts| && m.threads[t].pc.Between?
    requires TaskInv(m.mem, l.accounts[t], m.threads[t])
    requires var task := m.threads[t].task;
      task.PushBulkLock? || task.PopBulkLock? || task.Leaving? || task.Done? || task == PushBulkWalk(Null)
    ensures var o := TickTask(m, t); TaskInv(o.m.mem, Record(l, o.e).accounts[t], o.m.threads[t])
  {
    var acc, task := l.accounts[t], m.threads[t].task;
    if task == PushBulkWalk(Null) {
      assert acc.pushed + [] == acc.pushed;
    }
  }

  /** A bulk step that writes a link or picks the next block to push. */
  predicate ChainTask(task: Task) {
    task.PushBulkSeal? || (task.PushBulkWalk? && task.node.At?) || task.PopBulkLink? || task.PopBulkSeal?
  }

  lemma ChainTaskStep(m: Machine, l: Ledger, t: nat)
    requires t < |m.threads| && t < |l.accounts| && m.threads[t].pc.Between? && ChainTask(m.threads[t].task)
    requires TaskInv(m.mem, l.accounts[t], m.threads[t]) && Distinct(l.accounts[t].held)
    ensures var o := TickTask(m, t); TaskInv(o.m.mem, Record(l, o.e).accounts[t], o.m.threads[t])
  {
    var acc := l.accounts[t];
    match m.threads[t].task
    case PushBulkSeal(first, last) => PushSealTask(m.mem, acc, first, last);
    case PushBulkWalk(node) => PushWalkTask(m.mem, acc, node.block);
    case PopBulkLink(n, first, last, count, got) => PopLinkTask(m.mem, acc, n, first, last, count, got);
    case PopBulkSeal(n, first, last) => PopSealTask(m.mem, acc, n, first, last);
  }

  lemma BulkTask(m: Machine, l: Ledger, t: nat)
    requires t < |m.threads| && t < |l.accounts| && m.threads[t].pc.Between?
    requires TaskInv(m.mem, l.accounts[t], m.threads[t]) && Distinct(l.accounts[t].held)
    ensures var o := TickTask(m, t); TaskInv(o.m.mem, Record(l, o.e).accounts[t], o.m.threads[t])
  {
    if ChainTask(m.threads[t].task) {
      ChainTaskStep(m, l, t);
    } else if !m.threads[t].task.Outside? {
      DoorTask(m, l, t);
    }
  }

  /** After a bulk step a thread is between pushes and pops or about to load. */
  lemma BulkPc(m: Machine, l: Ledger, t: nat)
    requires t < |m.threads| && t < |l.accounts| && m.threads[t].pc.Between?
    requires TaskInv(m.mem, l.accounts[t], m.threads[t])
    ensures var o := TickTask(m, t);
      && t < |Record(l, o.e).accounts|
      && PcInv(o.m, Changes(Record(l, o.e)), Record(l, o.e).accounts[t], o.m.threads[t].pc)
  {
  }

  lemma BulkThread(m: Machine, l: Ledger, t: nat)
    requires t < |m.threads| && t < |l.accounts| && m.threads[t].pc.Between?
    requires ThreadInv(m, l, t) && Distinct(l.accounts[t].held)
    ensures var o := TickTask(m, t); t < |Record(l, o.e).accounts| && ThreadInv(o.m, Record(l, o.e), t)
  {
    BulkTask(m, l, t);
    BulkPc(m, l, t);
  }

  lemma BulkFootprint(m: Machine, l: Ledger, t: nat)
    requires t < |m.threads| == |l.accounts| && m.threads[t].pc.Between? && m.mem.Keys == l.place.Keys
    requires TaskInv(m.mem, l.accounts[t], m.threads[t]) && HandInv(l, t)
    ensures Footprint(m, l, TickTask(m, t).m, t)
  {
    var held := l.accounts[t].held;
    match m.threads[t].task
    case PushBulkSeal(first, last) => assert last in held;
    case PopBulkLink(n, first, last, count, got) => assert last in held;
    case PopBulkSeal(n, first, last) => assert last in held;
    case _ =>
  }

  lemma BulkLock(m: Machine, t: nat)
    requires t < |m.threads| && LockInv(m)
    ensures LockInv(TickTask(m, t).m)
  {
    var task, task' := m.threads[t].task, TickTask(m, t).m.threads[t].task;
    if HoldsLock(task) == HoldsLock(task') {
      LockFrame(m, TickTask(m, t).m, t);
    }
  }

  lemma BulkOutward(m: Machine, l: Ledger, t: nat)
    requires t < |m.threads| == |l.accounts|
    ensures var o := TickTask(m, t); Outward(m, l, o.m, o.e, t) && !o.e.Pushed? && !o.e.Popped?
  {
  }

  lemma TaskTickKeeps(m: Machine, l: Ledger, t: nat)
    requires Inv(m, l) && t < |m.threads| && m.threads[t].pc.Between?
    ensures var o := TickTask(m, t); EventOk(l, o.e) && Inv(o.m, Record(l, o.e))
  {
    var o := TickTask(m, t);
    assert ThreadInv(m, l, t) && HandInv(l, t);
    BulkThread(m, l, t);
    BulkLock(m, t);
    BulkFootprint(m, l, t);
    BulkOutward(m, l, t);
    StackFrame(m, l, o.m, o.e, t);
    Conclude(m, l, o.m, o.e, t);
  }

  /** The account of a call that has done nothing yet. */
  ghost predicate Untouched(acc: Account) {
    acc.held == Hands(acc.op) && acc.pushed == [] && acc.empties == 0
  }

  lemma StartSingle(mem: map<Block, Ptr>, acc: Account)
    requires Untouched(acc) && (acc.op.Push? || acc.op.Pop?)
    ensures TaskInv(mem, acc, Start(acc.op))
  {
    assert acc.pushed + acc.held == acc.held;
  }

  lemma StartPushBulk(mem: map<Block, Ptr>, acc: Account)
    requires Untouched(acc) && acc.op.PushBulk? && |acc.held| > 0 && Linked(mem, acc.held)
    ensures Batched(mem, acc, acc.held[0], acc.held[|acc.held| - 1])
    ensures Start(acc.op) == Thread(PushBulkLock(acc.held[0], acc.held[|acc.held| - 1]), Between)
  {
    assert acc.pushed + acc.held == acc.held;
  }

  lemma BatchedTask(mem: map<Block, Ptr>, acc: Account, first: Block, last: Block)
    requires Batched(mem, acc, first, last)
    ensures TaskInv(mem, acc, Thread(PushBulkLock(first, last), Between))
  {
  }

  lemma StartPopBulk(mem: map<Block, Ptr>, acc: Account)
    requires Untouched(acc) && acc.op.PopBulk?
    ensures TaskInv(mem, acc, Start(acc.op))
  {
  }

  lemma StartTask(mem: map<Block, Ptr>, acc: Account)
    requires Untouched(acc) && (acc.op.PushBulk? ==> |acc.held| > 0 && Linked(mem, acc.held))
    ensures TaskInv(mem, acc, Start(acc.op))
  {
    if acc.op.PushBulk? {
      StartPushBulk(mem, acc);
      BatchedTask(mem, acc, acc.held[0], acc.held[|acc.held| - 1]);
    } else if acc.op.PopBulk? {
      StartPopBulk(mem, acc);
    } else {
      StartSingle(mem, acc);
    }
  }

  lemma StartPc(m: Machine, op: Op, changes: nat)
    requires op.PushBulk? ==> |op.batch| > 0
    ensures PcInv(m, changes, Account(op, Hands(op), [], 0, changes), Start(op).pc)
    ensures !HoldsLock(Start(op).task)
  {
  }

  /** A call changes the calling thread and its account, and writes nothing. */
  lemma InvokeState(m: Machine, l: Ledger, t: nat, op: Op)
    requires t < |m.threads| == |l.accounts| && m.mem.Keys == l.place.Keys
    requires op.PushBulk? ==> |op.batch| > 0
    ensures var o := Perform(m, Invoke(t, op));
      && o.e == Invoked(t, op) && o.m == m.(threads := m.threads[t := Start(op)])
      && |Record(l, o.e).accounts| == |l.accounts| && Changes(Record(l, o.e)) == Changes(l)
      && Record(l, o.e).accounts[t] == Account(op, Hands(op), [], 0, Changes(l))
      && Footprint(m, l, o.m, t)
  {
  }

  lemma InvokeOutward(m: Machine, l: Ledger, t: nat, op: Op)
    requires t < |m.threads| == |l.accounts| && l.accounts[t].held == []
    requires op.PushBulk? ==> |op.batch| > 0
    requires Owned(l, Hands(op)) && Distinct(Hands(op))
    ensures var o := Perform(m, Invoke(t, op)); Outward(m, l, o.m, o.e, t)
  {
  }

  lemma InvokeThread(m: Machine, l: Ledger, t: nat, op: Op)
    requires t < |m.threads| == |l.accounts| && m.mem.Keys == l.place.Keys
    requires op.PushBulk? ==> |op.batch| > 0 && Linked(m.mem, op.batch)
    ensures var o := Perform(m, Invoke(t, op));
      |Record(l, o.e).accounts| == |l.accounts| && ThreadInv(o.m, Record(l, o.e), t)
  {
    InvokeState(m, l, t, op);
    StartTask(m.mem, Account(op, Hands(op), [], 0, Changes(l)));
    StartPc(Perform(m, Invoke(t, op)).m, op, Changes(l));
  }

  lemma InvokeKeeps(m: Machine, l: Ledger, t: nat, op: Op)
    requires Inv(m, l) && Enabled(m, l, Invoke(t, op))
    ensures var o := Perform(m, Invoke(t, op)); EventOk(l, o.e) && Inv(o.m, Record(l, o.e))
  {
    var o := Perform(m, Invoke(t, op));
    assert ThreadInv(m, l, t);
    InvokeState(m, l, t, op);
    InvokeOutward(m, l, t, op);
    InvokeThread(m, l, t, op);
    StartPc(o.m, op, Changes(l));
    StackFrame(m, l, o.m, o.e, t);
    LockFrame(m, o.m, t);
    Conclude(m, l, o.m, o.e, t);
  }

  /** A client may write anything into its own blocks at any time. */
  lemma ScribbleKeeps(m: Machine, l: Ledger, b: Block, p: Ptr)
    requires Inv(m, l) && Enabled(m, l, Scribble(b, p))
    ensures Inv(Perform(m, Scribble(b, p)).m, l)
  {
    var m' := Perform(m, Scribble(b, p)).m;
    assert b in [b];
    LinkedFrame(m.mem, m'.mem, l.stack);
    forall u | 0 <= u < |m'.threads| ensures ThreadInv(m', l, u) {
      assert ThreadInv(m, l, u) && HandInv(l, u);
      RelyKeepsThread(m, l, m', l, u);
    }
  }

  /** Every enabled step keeps the invariant, and its event is a legal step of
      the abstract stack. */
  lemma StepKeeps(m: Machine, l: Ledger, a: Action)
    requires Inv(m, l) && Enabled(m, l, a) && NoWrap(m, l, a)
    ensures var o := Perform(m, a); EventOk(l, o.e) && Inv(o.m, Record(l, o.e))
  {
    match a
    case Tick(t, weak) =>
      assert ThreadInv(m, l, t);
      var pc := m.threads[t].pc;
      if PushPc(pc) {
        PushTickKeeps(m, l, t, weak);
      } else if PopPc(pc) {
        PopTickKeeps(m, l, t, weak);
      } else {
        TaskTickKeeps(m, l, t);
      }
    case Invoke(t, op) => InvokeKeeps(m, l, t, op);
    case Scribble(b, p) => ScribbleKeeps(m, l, b, p);
  }
}
