/** What holds over every run of the lock-free free list. */
module TaggedStackRuns {
  import opened Options
  import opened Sequences
  import opened TaggedStack
  import opened TaggedStackSteps
  import opened TaggedStackProgress

  datatype State = State(m: Machine, l: Ledger)

  predicate Can(s: State, a: Action) { Enabled(s.m, s.l, a) }

  function Next(s: State, a: Action): State
    requires Can(s, a)
  {
    var o := Perform(s.m, a);
    State(o.m, Record(s.l, o.e))
  }

  /** Any interleaving: `acts` is executable from `s`, one enabled step after the other. */
  predicate Runs(s: State, acts: seq<Action>)
    decreases |acts|
  {
    acts == [] || (Can(s, acts[0]) && Runs(Next(s, acts[0]), acts[1..]))
  }

  /** No pop's compare-exchange succeeds after 2^64 head changes since its load. */
  predicate Unwrapped(s: State, acts: seq<Action>)
    requires Runs(s, acts)
    decreases |acts|
  {
    acts == [] || (NoWrap(s.m, s.l, acts[0]) && Unwrapped(Next(s, acts[0]), acts[1..]))
  }

  function After(s: State, acts: seq<Action>): State
    requires Runs(s, acts)
    decreases |acts|
  {
    if acts == [] then s else After(Next(s, acts[0]), acts[1..])
  }

  function Events(s: State, acts: seq<Action>): seq<Event>
    requires Runs(s, acts)
    decreases |acts|
  {
    if acts == [] then [] else [Perform(s.m, acts[0]).e] + Events(Next(s, acts[0]), acts[1..])
  }

  /** A new free list: no block in it, every block with a client, any contents. */
  function Fresh(mem: map<Block, Ptr>, threads: nat): State {
    State(Idle(mem, threads),
          Ledger([], map b | b in mem :: Client, seq(threads, _ => Account(Pop, [], [], 0, 0)), 0, 0))
  }

  lemma FreshInv(mem: map<Block, Ptr>, threads: nat)
    ensures var s := Fresh(mem, threads); Inv(s.m, s.l)
  {
  }

  lemma {:induction false} RunKeeps(s: State, acts: seq<Action>)
    requires Inv(s.m, s.l) && Runs(s, acts) && Unwrapped(s, acts)
    ensures var s' := After(s, acts); Inv(s'.m, s'.l)
    decreases |acts|
  {
    if acts != [] {
      StepKeeps(s.m, s.l, acts[0]);
      RunKeeps(Next(s, acts[0]), acts[1..]);
    }
  }

  // ------------------------------------------------------------------
  // Linearisability
  // ------------------------------------------------------------------

  /** The sequential stack on which the events are replayed. */
  function ReplayOne(stack: seq<Block>, e: Event): Option<seq<Block>> {
    match e
    case Pushed(_, b) => Some([b] + stack)
    case Popped(_, b) => if |stack| > 0 && stack[0] == b then Some(stack[1..]) else None
    case Empty(_) => if stack == [] then Some([]) else None
    case _ => Some(stack)
  }

  function Replay(stack: seq<Block>, es: seq<Event>): Option<seq<Block>>
    decreases |es|
  {
    if es == [] then Some(stack)
    else
      var next := ReplayOne(stack, es[0]);
      if next.None? then None else Replay(next.value, es[1..])
  }

  ghost predicate Represents(m: Machine, stack: seq<Block>) {
    Distinct(stack) && Chain(m.mem, stack) && m.head.ptr == First(stack)
  }

  lemma {:induction false} RunReplays(s: State, acts: seq<Action>)
    requires Inv(s.m, s.l) && Runs(s, acts) && Unwrapped(s, acts)
    ensures Replay(s.l.stack, Events(s, acts)) == Some(After(s, acts).l.stack)
    decreases |acts|
  {
    if acts != [] {
      var o := Perform(s.m, acts[0]);
      StepKeeps(s.m, s.l, acts[0]);
      assert ReplayOne(s.l.stack, o.e) == Some(Next(s, acts[0]).l.stack);
      RunReplays(Next(s, acts[0]), acts[1..]);
      assert Events(s, acts)[1..] == Events(Next(s, acts[0]), acts[1..]);
    }
  }

  /** Every run of pushes, pops and bulk transfers is a run of a sequential
      stack, with each operation taking effect at its successful
      compare-exchange (a null pop at its load), and memory always holds
      exactly the stack so obtained. */
  lemma Linearizable(mem: map<Block, Ptr>, threads: nat, acts: seq<Action>)
    requires Runs(Fresh(mem, threads), acts) && Unwrapped(Fresh(mem, threads), acts)
    ensures var r := Replay([], Events(Fresh(mem, threads), acts));
      r.Some? && Represents(After(Fresh(mem, threads), acts).m, r.value)
  {
    FreshInv(mem, threads);
    RunKeeps(Fresh(mem, threads), acts);
    RunReplays(Fresh(mem, threads), acts);
  }

  /** A call returns only after exactly the stack operations its specification
      asks for, and returns what they yielded. */
  lemma CallsFulfilled(mem: map<Block, Ptr>, threads: nat, acts: seq<Action>, a: Action, value: Ptr)
    requires Runs(Fresh(mem, threads), acts) && Unwrapped(Fresh(mem, threads), acts)
    requires var s := After(Fresh(mem, threads), acts);
      Can(s, a) && a.Tick? && Perform(s.m, a).e == Returned(a.t, value)
    ensures var s := After(Fresh(mem, threads), acts);
      a.t < |s.l.accounts| && Fulfilled(s.m.mem, s.l.accounts[a.t], value)
  {
    FreshInv(mem, threads);
    RunKeeps(Fresh(mem, threads), acts);
    var s := After(Fresh(mem, threads), acts);
    assert ThreadInv(s.m, s.l, a.t);
  }

  // ------------------------------------------------------------------
  // No block is lost or duplicated
  // ------------------------------------------------------------------

  /** `b` is at `p` and at no other place. */
  ghost predicate OnlyAt(l: Ledger, b: Block, p: Place) {
    && (b in l.stack <==> p == InStack)
    && (forall t :: 0 <= t < |l.accounts| ==> (b in l.accounts[t].held <==> p == Held(t)))
    && (p.Held? ==> p.t < |l.accounts|)
  }

  ghost predicate Partitioned(s: State) {
    && (forall b :: b in s.m.mem ==> b in s.l.place && OnlyAt(s.l, b, s.l.place[b]))
    && Distinct(s.l.stack)
    && (forall t :: 0 <= t < |s.l.accounts| ==> Distinct(s.l.accounts[t].held))
    && (forall b :: b in s.l.stack ==> b in s.m.mem)
  }

  /** The ledger's stack and hands are those of the machine: memory and head hold
      the stack, and each thread's links and program counter fit its hands. */
  ghost predicate Embodied(s: State) {
    && Represents(s.m, s.l.stack) && |s.l.accounts| == |s.m.threads|
    && (forall t :: 0 <= t < |s.m.threads| ==> TaskInv(s.m.mem, s.l.accounts[t], s.m.threads[t]))
  }

  lemma NoBlockLost(mem: map<Block, Ptr>, threads: nat, acts: seq<Action>)
    requires Runs(Fresh(mem, threads), acts) && Unwrapped(Fresh(mem, threads), acts)
    ensures Partitioned(After(Fresh(mem, threads), acts)) && Embodied(After(Fresh(mem, threads), acts))
  {
    FreshInv(mem, threads);
    RunKeeps(Fresh(mem, threads), acts);
    var s := After(Fresh(mem, threads), acts);
    forall t | 0 <= t < |s.m.threads| ensures TaskInv(s.m.mem, s.l.accounts[t], s.m.threads[t]) {
      assert ThreadInv(s.m, s.l, t);
    }
    LedgerPartitions(After(Fresh(mem, threads), acts).l);
  }

  lemma LedgerPartitions(l: Ledger)
    requires LedgerInv(l)
    ensures forall b :: b in l.place ==> OnlyAt(l, b, l.place[b])
    ensures forall t :: 0 <= t < |l.accounts| ==> Distinct(l.accounts[t].held)
  {
    forall t | 0 <= t < |l.accounts| ensures Distinct(l.accounts[t].held) {
      assert HandInv(l, t);
    }
    forall b | b in l.place ensures OnlyAt(l, b, l.place[b]) {
      forall t | 0 <= t < |l.accounts| ensures b in l.accounts[t].held <==> l.place[b] == Held(t) {
        assert HandInv(l, t);
      }
    }
  }

  // ------------------------------------------------------------------
  // The machine's runs
  // ------------------------------------------------------------------

  /** Every run is one of the machine alone, with the same events, so that what
      `TaggedStackProgress` proves of all of these holds of it too. */
  lemma {:induction false} RunExecutes(s: State, acts: seq<Action>)
    requires Runs(s, acts)
    ensures Executes(s.m, acts) && Reached(s.m, acts) == After(s, acts).m && Trace(s.m, acts) == Events(s, acts)
    decreases |acts|
  {
    if acts != [] {
      RunExecutes(Next(s, acts[0]), acts[1..]);
    }
  }

  /** The tag has the parity of the stack's length. */
  lemma TagParity(mem: map<Block, Ptr>, threads: nat, acts: seq<Action>)
    requires Runs(Fresh(mem, threads), acts) && Unwrapped(Fresh(mem, threads), acts)
    ensures var s := After(Fresh(mem, threads), acts); s.m.head.tag % 2 == |s.l.stack| % 2
  {
    FreshInv(mem, threads);
    RunKeeps(Fresh(mem, threads), acts);
    var l := After(Fresh(mem, threads), acts).l;
    Parity(l.pushes, l.pops);
  }

  lemma Parity(pushes: nat, pops: nat)
    requires pops <= pushes
    ensures (pushes + pops) % TAGS % 2 == (pushes - pops) % 2
  {
    var n := pushes + pops;
    assert n == TAGS * (n / TAGS) + n % TAGS;
  }
}
