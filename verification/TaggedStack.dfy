/** The lock-free free list: a Treiber stack whose head carries a version tag.

    `Machine` is the shared memory and the program counters of any number of
    threads running `push`, `pop`, `push_bulk` and `pop_bulk`; one `Tick` is
    one access to shared memory.  `Ledger` is bookkeeping for the proofs: it is
    a function of the events the machine emits and is never read by it. */
module TaggedStack {
  import opened Options
  import opened Sequences

  type Block = nat

  datatype Ptr = Null | At(block: Block)

  /** Number of values of the 64-bit tag. */
  const TAGS: nat := 0x1_0000_0000_0000_0000

  datatype Head = Head(ptr: Ptr, tag: nat)

  datatype Op =
    | Push(block: Block)
    | Pop
    | PushBulk(batch: seq<Block>)
    | PopBulk(n: nat)

  /** Where a thread stands inside `push` or `pop`. */
  datatype Pc =
    | Between
    | PushLoad(node: Block)
    | PushLink(node: Block, seen: Head)
    | PushCas(node: Block, seen: Head)
    | PopLoad
    | PopNext(top: Block, tag: nat)
    | PopCas(top: Block, tag: nat, next: Ptr)

  /** What a thread does around its pushes and pops. */
  datatype Task =
    | Outside
    | OnePush
    | OnePop
    | PushBulkLock(first: Block, last: Block)
    | PushBulkSeal(first: Block, last: Block)
    | PushBulkWalk(node: Ptr)
    | PushBulkPush(rest: Ptr)
    | PopBulkLock(n: nat)
    | PopBulkFirst(n: nat)
    | PopBulkMore(n: nat, first: Block, last: Block, count: nat)
    | PopBulkLink(n: nat, first: Block, last: Block, count: nat, got: Block)
    | PopBulkSeal(n: nat, first: Block, last: Block)
    | Leaving(value: Ptr)
    | Done(value: Ptr)

  datatype Thread = Thread(task: Task, pc: Pc)

  datatype Machine = Machine(
    head: Head,
    mem: map<Block, Ptr>,       // the `next` field of every block
    lock: Option<nat>,          // holder of `bulk_lock`
    threads: seq<Thread>)

  datatype Event =
    | Silent
    | Wrote(b: Block)
    | Invoked(t: nat, op: Op)
    | Loaded(t: nat)
    | Pushed(t: nat, b: Block)
    | Popped(t: nat, b: Block)
    | Empty(t: nat)
    | Failed(t: nat, genuine: bool)
    | Returned(t: nat, value: Ptr)

  /** `weak` lets a compare-exchange fail although the head is the expected one. */
  datatype Action =
    | Tick(t: nat, weak: bool)
    | Invoke(t: nat, op: Op)
    | Scribble(b: Block, p: Ptr)

  datatype Outcome = Outcome(m: Machine, e: Event)

  // ------------------------------------------------------------------
  // The machine
  // ------------------------------------------------------------------

  function Deref(mem: map<Block, Ptr>, b: Block): Ptr {
    if b in mem then mem[b] else Null
  }

  function Goto(m: Machine, t: nat, task: Task, pc: Pc): Machine
    requires t < |m.threads|
  {
    m.(threads := m.threads[t := Thread(task, pc)])
  }

  function Start(op: Op): Thread
    requires op.PushBulk? ==> |op.batch| > 0
  {
    match op
    case Push(b) => Thread(OnePush, PushLoad(b))
    case Pop => Thread(OnePop, PopLoad)
    case PushBulk(batch) => Thread(PushBulkLock(batch[0], batch[|batch| - 1]), Between)
    case PopBulk(n) => Thread(PopBulkLock(n), Between)
  }

  /** Continuation of a successful `push`. */
  function AfterPush(task: Task): Thread {
    if task.PushBulkPush? then Thread(PushBulkWalk(task.rest), Between)
    else Thread(Done(Null), Between)
  }

  /** The loop test of `pop_bulk`. */
  function MoreOrSeal(n: nat, first: Block, last: Block, count: nat): Thread {
    if count < n then Thread(PopBulkMore(n, first, last, count), PopLoad)
    else Thread(PopBulkSeal(n, first, last), Between)
  }

  /** Continuation of a `pop` that yielded `p`. */
  function AfterPop(task: Task, p: Ptr): Thread {
    match task
    case PopBulkFirst(n) =>
      if p.Null? then Thread(Leaving(Null), Between) else MoreOrSeal(n, p.block, p.block, 1)
    case PopBulkMore(n, first, last, count) =>
      if p.Null? then Thread(PopBulkSeal(n, first, last), Between)
      else Thread(PopBulkLink(n, first, last, count, p.block), Between)
    case _ => Thread(Done(p), Between)
  }

  /** One compare-exchange: the head moves only from the expected value. */
  function CasOk(m: Machine, expected: Head, weak: bool): bool {
    !weak && m.head == expected
  }

  function TickPush(m: Machine, t: nat, weak: bool): Outcome
    requires t < |m.threads|
  {
    var Thread(task, pc) := m.threads[t];
    match pc
    case PushLoad(node) =>
      Outcome(Goto(m, t, task, PushLink(node, m.head)), Loaded(t))
    case PushLink(node, seen) =>
      Outcome(Goto(m, t, task, PushCas(node, seen)).(mem := m.mem[node := seen.ptr]), Wrote(node))
    case PushCas(node, seen) =>
      if CasOk(m, seen, weak) then
        Outcome(m.(threads := m.threads[t := AfterPush(task)],
                   head := Head(At(node), (seen.tag + 1) % TAGS)), Pushed(t, node))
      else
        Outcome(Goto(m, t, task, PushLoad(node)), Failed(t, m.head != seen))
    case _ => Outcome(m, Silent)
  }

  function TickPop(m: Machine, t: nat, weak: bool): Outcome
    requires t < |m.threads|
  {
    var Thread(task, pc) := m.threads[t];
    match pc
    case PopLoad =>
      if m.head.ptr.Null? then
        Outcome(m.(threads := m.threads[t := AfterPop(task, Null)]), Empty(t))
      else
        Outcome(Goto(m, t, task, PopNext(m.head.ptr.block, m.head.tag)), Loaded(t))
    case PopNext(top, tag) =>
      Outcome(Goto(m, t, task, PopCas(top, tag, Deref(m.mem, top))), Silent)
    case PopCas(top, tag, next) =>
      if CasOk(m, Head(At(top), tag), weak) then
        Outcome(m.(threads := m.threads[t := AfterPop(task, At(top))],
                   head := Head(next, (tag + 1) % TAGS)), Popped(t, top))
      else
        Outcome(Goto(m, t, task, PopLoad), Failed(t, m.head != Head(At(top), tag)))
    case _ => Outcome(m, Silent)
  }

  /** Steps of the bulk operations outside their pushes and pops, and returns. */
  function TickTask(m: Machine, t: nat): Outcome
    requires t < |m.threads|
  {
    match m.threads[t].task
    case PushBulkLock(first, last) =>
      if m.lock.Some? then Outcome(m, Silent)
      else Outcome(Goto(m, t, PushBulkSeal(first, last), Between).(lock := Some(t)), Silent)
    case PushBulkSeal(first, last) =>
      Outcome(Goto(m, t, PushBulkWalk(At(first)), Between).(mem := m.mem[last := Null]), Wrote(last))
    case PushBulkWalk(node) =>
      if node.Null? then Outcome(Goto(m, t, Leaving(Null), Between), Silent)
      else Outcome(Goto(m, t, PushBulkPush(Deref(m.mem, node.block)), PushLoad(node.block)), Silent)
    case PopBulkLock(n) =>
      if m.lock.Some? then Outcome(m, Silent)
      else Outcome(Goto(m, t, PopBulkFirst(n), PopLoad).(lock := Some(t)), Silent)
    case PopBulkLink(n, first, last, count, got) =>
      Outcome(m.(threads := m.threads[t := MoreOrSeal(n, first, got, count + 1)],
                 mem := m.mem[last := At(got)]), Wrote(last))
    case PopBulkSeal(n, first, last) =>
      Outcome(Goto(m, t, Leaving(At(first)), Between).(mem := m.mem[last := Null]), Wrote(last))
    case Leaving(value) =>
      Outcome(Goto(m, t, Done(value), Between).(lock := None), Silent)
    case Done(value) =>
      Outcome(Goto(m, t, Outside, Between), Returned(t, value))
    case _ => Outcome(m, Silent)
  }

  predicate PushPc(pc: Pc) { pc.PushLoad? || pc.PushLink? || pc.PushCas? }

  predicate PopPc(pc: Pc) { pc.PopLoad? || pc.PopNext? || pc.PopCas? }

  /** One step of the shared memory machine. */
  function Perform(m: Machine, a: Action): Outcome
    requires a.Tick? || a.Invoke? ==> a.t < |m.threads|
    requires a.Invoke? && a.op.PushBulk? ==> |a.op.batch| > 0
  {
    match a
    case Tick(t, weak) =>
      var pc := m.threads[t].pc;
      if PushPc(pc) then TickPush(m, t, weak)
      else if PopPc(pc) then TickPop(m, t, weak)
      else TickTask(m, t)
    case Invoke(t, op) =>
      Outcome(m.(threads := m.threads[t := Start(op)]), Invoked(t, op))
    case Scribble(b, p) =>
      Outcome(m.(mem := m.mem[b := p]), Wrote(b))
  }

  // ------------------------------------------------------------------
  // The ledger
  // ------------------------------------------------------------------

  datatype Place = InStack | Client | Held(t: nat)

  /** What thread `t` has done since it was invoked. */
  datatype Account = Account(
    op: Op,
    held: seq<Block>,     // blocks in its hands, in chain order
    pushed: seq<Block>,   // blocks it has pushed, in order
    empties: nat,         // pops that found the stack empty
    loadedAt: nat)        // head changes so far at its latest load of the head

  datatype Ledger = Ledger(
    stack: seq<Block>,
    place: map<Block, Place>,
    accounts: seq<Account>,
    pushes: nat,
    pops: nat)

  function Changes(l: Ledger): nat { l.pushes + l.pops }

  function PlaceAll(place: map<Block, Place>, bs: seq<Block>, p: Place): map<Block, Place> {
    map b | b in place :: if b in bs then p else place[b]
  }

  function Hands(op: Op): seq<Block> {
    match op
    case Push(b) => [b]
    case PushBulk(batch) => batch
    case _ => []
  }

  /** The ledger after an event. Pushes and pops are taken on the abstract
      sequence `stack`, whatever the machine did to its memory. */
  function Record(l: Ledger, e: Event): Ledger {
    match e
    case Silent => l
    case Wrote(_) => l
    case Invoked(t, op) =>
      if t < |l.accounts| then
        l.(place := PlaceAll(l.place, Hands(op), Held(t)),
           accounts := l.accounts[t := Account(op, Hands(op), [], 0, Changes(l))])
      else l
    case Loaded(t) =>
      if t < |l.accounts| then l.(accounts := l.accounts[t := l.accounts[t].(loadedAt := Changes(l))]) else l
    case Pushed(t, b) =>
      if t < |l.accounts| && |l.accounts[t].held| > 0 then
        var acc := l.accounts[t];
        l.(stack := [b] + l.stack, place := l.place[b := InStack], pushes := l.pushes + 1,
           accounts := l.accounts[t := acc.(held := acc.held[1..], pushed := acc.pushed + [b])])
      else l
    case Popped(t, b) =>
      if t < |l.accounts| && |l.stack| > 0 then
        var acc := l.accounts[t];
        l.(stack := l.stack[1..], place := l.place[b := Held(t)], pops := l.pops + 1,
           accounts := l.accounts[t := acc.(held := acc.held + [b])])
      else l
    case Empty(t) =>
      if t < |l.accounts| then
        l.(accounts := l.accounts[t := l.accounts[t].(empties := l.accounts[t].empties + 1)])
      else l
    case Failed(_, _) => l
    case Returned(t, _) =>
      if t < |l.accounts| then
        l.(place := PlaceAll(l.place, l.accounts[t].held, Client),
           accounts := l.accounts[t := l.accounts[t].(held := [])])
      else l
  }

  // ------------------------------------------------------------------
  // Invariant
  // ------------------------------------------------------------------

  function First(s: seq<Block>): Ptr { if |s| == 0 then Null else At(s[0]) }

  /** Consecutive blocks of `s` are linked; the last link is unconstrained. */
  predicate Linked(mem: map<Block, Ptr>, s: seq<Block>) {
    && (forall i :: 0 <= i < |s| ==> s[i] in mem)
    && (forall i, j :: 0 <= i < |s| && 0 <= j < |s| && j == i + 1 ==> mem[s[i]] == At(s[j]))
  }

  /** `s` is a null-terminated chain in memory. */
  predicate Chain(mem: map<Block, Ptr>, s: seq<Block>) {
    && Linked(mem, s)
    && (|s| > 0 ==> mem[s[|s| - 1]] == Null)
  }

  /** Memory and head represent the abstract stack. */
  ghost predicate StackInv(m: Machine, l: Ledger) {
    && Chain(m.mem, l.stack)
    && m.head.ptr == First(l.stack)
    && m.head.tag == Changes(l) % TAGS
  }

  ghost predicate HandInv(l: Ledger, t: nat)
    requires t < |l.accounts|
  {
    && Distinct(l.accounts[t].held)
    && (forall b :: b in l.accounts[t].held ==> b in l.place && l.place[b] == Held(t))
  }

  /** Every block of the pool is where `place` says and nowhere else. */
  ghost predicate LedgerInv(l: Ledger) {
    && Distinct(l.stack)
    && l.pushes - l.pops == |l.stack|
    && (forall b :: b in l.stack ==> b in l.place && l.place[b] == InStack)
    && (forall b :: b in l.place && l.place[b] == InStack ==> b in l.stack)
    && (forall t :: 0 <= t < |l.accounts| ==> HandInv(l, t))
    && (forall b :: b in l.place && l.place[b].Held? ==>
          l.place[b].t < |l.accounts| && b in l.accounts[l.place[b].t].held)
  }

  predicate HoldsLock(task: Task) {
    task.PushBulkSeal? || task.PushBulkWalk? || task.PushBulkPush? || task.PopBulkFirst? ||
    task.PopBulkMore? || task.PopBulkLink? || task.PopBulkSeal? || task.Leaving?
  }

  ghost predicate LockInv(m: Machine) {
    forall t :: 0 <= t < |m.threads| ==> (HoldsLock(m.threads[t].task) <==> m.lock == Some(t))
  }

  /** A loaded head is the current one unless the head has changed since. */
  ghost predicate SeenInv(m: Machine, changes: nat, acc: Account, seen: Head) {
    && acc.loadedAt <= changes
    && seen.tag == acc.loadedAt % TAGS
    && (acc.loadedAt == changes ==> seen == m.head)
  }

  ghost predicate PcInv(m: Machine, changes: nat, acc: Account, pc: Pc) {
    match pc
    case Between => true
    case PushLoad(node) => |acc.held| > 0 && acc.held[0] == node
    case PushLink(node, seen) => |acc.held| > 0 && acc.held[0] == node && SeenInv(m, changes, acc, seen)
    case PushCas(node, seen) =>
      |acc.held| > 0 && acc.held[0] == node && SeenInv(m, changes, acc, seen) && Deref(m.mem, node) == seen.ptr
    case PopLoad => true
    case PopNext(top, tag) => top in m.mem && SeenInv(m, changes, acc, Head(At(top), tag))
    case PopCas(top, tag, next) =>
      top in m.mem && SeenInv(m, changes, acc, Head(At(top), tag))
        && (acc.loadedAt == changes ==> next == Deref(m.mem, top))
  }

  function Quota(op: Op): nat {
    match op
    case Pop => 1
    case PopBulk(n) => if n == 0 then 1 else n
    case _ => 0
  }

  /** What a finished call must have done to the stack, given its result. */
  ghost predicate Fulfilled(mem: map<Block, Ptr>, acc: Account, value: Ptr) {
    && acc.pushed == Hands(acc.op)
    && |acc.held| <= Quota(acc.op)
    && acc.empties == (if |acc.held| < Quota(acc.op) then 1 else 0)
    && value == First(acc.held)
    && (acc.op.PopBulk? ==> Chain(mem, acc.held))
  }

  ghost predicate PushTask(acc: Account) {
    (acc.op.Push? || acc.op.PushBulk?) && acc.pushed + acc.held == Hands(acc.op) && acc.empties == 0
  }

  /** A `push_bulk` that has not pushed yet. */
  ghost predicate Batched(mem: map<Block, Ptr>, acc: Account, first: Block, last: Block) {
    && acc.op.PushBulk? && PushTask(acc) && acc.pushed == [] && Linked(mem, acc.held)
    && |acc.held| > 0 && first == acc.held[0] && last == acc.held[|acc.held| - 1]
  }

  ghost predicate PopTask(acc: Account, n: nat) {
    acc.op == PopBulk(n) && acc.pushed == [] && acc.empties == 0
  }

  ghost predicate TaskInv(mem: map<Block, Ptr>, acc: Account, thread: Thread) {
    var held, pc := acc.held, thread.pc;
    match thread.task
    case Outside => pc.Between? && held == []
    case OnePush => PushPc(pc) && acc.op.Push? && PushTask(acc) && |held| == 1
    case OnePop => PopPc(pc) && acc.op.Pop? && acc.pushed == [] && held == [] && acc.empties == 0
    case PushBulkLock(first, last) => pc.Between? && Batched(mem, acc, first, last)
    case PushBulkSeal(first, last) => pc.Between? && Batched(mem, acc, first, last)
    case PushBulkWalk(node) =>
      pc.Between? && acc.op.PushBulk? && PushTask(acc) && Chain(mem, held) && node == First(held)
    case PushBulkPush(rest) =>
      && PushPc(pc) && acc.op.PushBulk? && PushTask(acc) && |held| > 0
      && Chain(mem, held[1..]) && rest == First(held[1..])
    case PopBulkLock(n) => pc.Between? && PopTask(acc, n) && held == []
    case PopBulkFirst(n) => PopPc(pc) && PopTask(acc, n) && held == []
    case PopBulkMore(n, first, last, count) =>
      && PopPc(pc) && PopTask(acc, n) && Linked(mem, held) && 0 < count == |held| < n
      && first == held[0] && last == held[count - 1]
    case PopBulkLink(n, first, last, count, got) =>
      && pc.Between? && PopTask(acc, n) && 0 < count < |held| == count + 1 <= n
      && Linked(mem, held[..count]) && held[count] == got && got in mem
      && first == held[0] && last == held[count - 1]
    case PopBulkSeal(n, first, last) =>
      && pc.Between? && acc.op == PopBulk(n) && acc.pushed == [] && Linked(mem, held)
      && 0 < |held| <= Quota(acc.op) && acc.empties == (if |held| < Quota(acc.op) then 1 else 0)
      && first == held[0] && last == held[|held| - 1]
    case Leaving(value) => pc.Between? && (acc.op.PushBulk? || acc.op.PopBulk?) && Fulfilled(mem, acc, value)
    case Done(value) => pc.Between? && Fulfilled(mem, acc, value)
  }

  ghost predicate ThreadInv(m: Machine, l: Ledger, t: nat)
    requires t < |m.threads| && t < |l.accounts|
  {
    && TaskInv(m.mem, l.accounts[t], m.threads[t])
    && PcInv(m, Changes(l), l.accounts[t], m.threads[t].pc)
  }

  ghost predicate Inv(m: Machine, l: Ledger) {
    && LedgerInv(l)
    && l.place.Keys == m.mem.Keys
    && |l.accounts| == |m.threads|
    && StackInv(m, l)
    && LockInv(m)
    && (forall t :: 0 <= t < |m.threads| ==> ThreadInv(m, l, t))
  }

  // ------------------------------------------------------------------
  // Environment
  // ------------------------------------------------------------------

  predicate Owned(l: Ledger, bs: seq<Block>) {
    forall b :: b in bs ==> b in l.place && l.place[b] == Client
  }

  /** A client frees only what it owns, hands `push_bulk` a linked chain, and
      writes only into its own blocks. */
  predicate Enabled(m: Machine, l: Ledger, a: Action) {
    match a
    case Tick(t, _) => t < |m.threads| && !m.threads[t].task.Outside?
    case Invoke(t, op) =>
      && t < |m.threads| && m.threads[t].task.Outside?
      && Owned(l, Hands(op)) && Distinct(Hands(op))
      && (op.PushBulk? ==> |op.batch| > 0 && Linked(m.mem, op.batch))
    case Scribble(b, _) => Owned(l, [b])
  }

  /** The step is not a pop's successful compare-exchange after 2^64 or more
      head changes since the pop's load. */
  predicate NoWrap(m: Machine, l: Ledger, a: Action) {
    a.Tick? && a.t < |m.threads| && a.t < |l.accounts| && Perform(m, a).e.Popped? ==>
      Changes(l) - l.accounts[a.t].loadedAt < TAGS
  }
}
