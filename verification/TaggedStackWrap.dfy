/** The bound on the tag is tight: with exactly 2^64 head changes between its
    load and its compare-exchange, a pop succeeds and breaks the free list. */
module TaggedStackWrap {
  import opened Sequences
  import opened TaggedStack
  import opened TaggedStackSteps
  import opened TaggedStackRuns

  ghost predicate Reaches(s: State, s': State) {
    exists acts :: Runs(s, acts) && Unwrapped(s, acts) && After(s, acts) == s'
  }

  lemma {:induction false} RunSnoc(s: State, acts: seq<Action>, a: Action)
    requires Runs(s, acts) && Unwrapped(s, acts)
    requires var s' := After(s, acts); Can(s', a) && NoWrap(s'.m, s'.l, a)
    ensures Runs(s, acts + [a]) && Unwrapped(s, acts + [a])
    ensures After(s, acts + [a]) == Next(After(s, acts), a)
    decreases |acts|
  {
    if acts == [] {
      assert [] + [a] == [a] && [a][1..] == [];
    } else {
      RunSnoc(Next(s, acts[0]), acts[1..], a);
      assert (acts + [a])[1..] == acts[1..] + [a] && (acts + [a])[0] == acts[0];
    }
  }

  lemma ReachStep(s0: State, s: State, a: Action)
    requires Reaches(s0, s) && Can(s, a) && NoWrap(s.m, s.l, a)
    ensures Reaches(s0, Next(s, a))
  {
    var acts :| Runs(s0, acts) && Unwrapped(s0, acts) && After(s0, acts) == s;
    RunSnoc(s0, acts, a);
  }

  /** Until the tag wraps around, head and memory represent the stack. */
  lemma ReachedHead(s0: State, s: State)
    requires Inv(s0.m, s0.l) && Reaches(s0, s)
    ensures s.m.head.ptr == First(s.l.stack) && s.m.head.tag == Changes(s.l) % TAGS
    ensures forall b :: b in s.l.stack ==> b in s.m.mem
    ensures |s.l.stack| > 1 ==> Deref(s.m.mem, s.l.stack[0]) == At(s.l.stack[1])
  {
    var acts :| Runs(s0, acts) && Unwrapped(s0, acts) && After(s0, acts) == s;
    RunKeeps(s0, acts);
  }

  /** Two threads; `stack` is on the list, thread 1 holds `held`, and all other
      blocks are with clients. */
  ghost predicate Scene(s: State, stack: seq<Block>, changes: nat, held: seq<Block>) {
    && |s.m.threads| == 2 && |s.l.accounts| == 2
    && s.l.stack == stack && Changes(s.l) == changes && s.l.accounts[1].held == held
    && s.l.place.Keys == s.m.mem.Keys
    && (forall b :: b in s.l.place ==>
          s.l.place[b] == (if b in stack then InStack else if b in held then Held(1) else Client))
  }

  /** Thread 0 and its account: the victim of the wrap-around. */
  ghost predicate SameVictim(s: State, s': State) {
    && |s.m.threads| == |s'.m.threads| == |s.l.accounts| == |s'.l.accounts| == 2
    && s'.m.threads[0] == s.m.threads[0] && s'.l.accounts[0] == s.l.accounts[0]
    && s'.m.mem.Keys == s.m.mem.Keys
  }

  lemma InvokeScene(s: State, op: Op, stack: seq<Block>, changes: nat)
    requires Scene(s, stack, changes, []) && s.m.threads[1] == Thread(Outside, Between)
    requires op.Pop? || (op.Push? && op.block in s.m.mem && op.block !in stack)
    ensures var a := Invoke(1, op);
      && Can(s, a) && NoWrap(s.m, s.l, a)
      && Scene(Next(s, a), stack, changes, Hands(op)) && SameVictim(s, Next(s, a))
      && Next(s, a).m.threads[1] == Start(op) && Next(s, a).m.head == s.m.head
  {
  }

  lemma PushLoadScene(s: State, b: Block, stack: seq<Block>, changes: nat)
    requires Scene(s, stack, changes, [b]) && s.m.threads[1] == Thread(OnePush, PushLoad(b))
    ensures var a := Tick(1, false);
      && Can(s, a) && NoWrap(s.m, s.l, a)
      && Scene(Next(s, a), stack, changes, [b]) && SameVictim(s, Next(s, a))
      && Next(s, a).m.threads[1] == Thread(OnePush, PushLink(b, s.m.head)) && Next(s, a).m.head == s.m.head
  {
  }

  lemma PushLinkScene(s: State, b: Block, stack: seq<Block>, changes: nat)
    requires Scene(s, stack, changes, [b]) && b in s.m.mem
    requires s.m.threads[1] == Thread(OnePush, PushLink(b, s.m.head))
    ensures var a := Tick(1, false);
      && Can(s, a) && NoWrap(s.m, s.l, a)
      && Scene(Next(s, a), stack, changes, [b]) && SameVictim(s, Next(s, a))
      && Next(s, a).m.threads[1] == Thread(OnePush, PushCas(b, s.m.head)) && Next(s, a).m.head == s.m.head
  {
  }

  lemma PushCasScene(s: State, b: Block, stack: seq<Block>, changes: nat)
    requires Scene(s, stack, changes, [b]) && b in s.m.mem && b !in stack
    requires s.m.threads[1] == Thread(OnePush, PushCas(b, s.m.head))
    ensures var a := Tick(1, false);
      && Can(s, a) && NoWrap(s.m, s.l, a)
      && Scene(Next(s, a), [b] + stack, changes + 1, []) && SameVictim(s, Next(s, a))
      && Next(s, a).m.threads[1] == Thread(Done(Null), Between)
  {
    assert forall x :: x in [b] + stack <==> x == b || x in stack;
    assert [b][1..] == [];
  }

  lemma ReturnScene(s: State, value: Ptr, stack: seq<Block>, changes: nat, held: seq<Block>)
    requires Scene(s, stack, changes, held) && s.m.threads[1] == Thread(Done(value), Between)
    requires forall b :: b in held ==> b !in stack
    ensures var a := Tick(1, false);
      && Can(s, a) && NoWrap(s.m, s.l, a)
      && Scene(Next(s, a), stack, changes, []) && SameVictim(s, Next(s, a))
      && Next(s, a).m.threads[1] == Thread(Outside, Between)
  {
  }

  lemma PopLoadScene(s: State, stack: seq<Block>, changes: nat)
    requires Scene(s, stack, changes, []) && |stack| > 0 && s.m.head.ptr == At(stack[0])
    requires s.m.threads[1] == Thread(OnePop, PopLoad)
    ensures var a := Tick(1, false);
      && Can(s, a) && NoWrap(s.m, s.l, a)
      && Scene(Next(s, a), stack, changes, []) && SameVictim(s, Next(s, a))
      && Next(s, a).m.threads[1] == Thread(OnePop, PopNext(stack[0], s.m.head.tag))
      && Next(s, a).l.accounts[1].loadedAt == changes && Next(s, a).m.head == s.m.head
  {
  }

  lemma PopNextScene(s: State, stack: seq<Block>, changes: nat)
    requires Scene(s, stack, changes, []) && |stack| > 0
    requires s.m.threads[1] == Thread(OnePop, PopNext(stack[0], s.m.head.tag))
    ensures var a := Tick(1, false);
      && Can(s, a) && NoWrap(s.m, s.l, a)
      && Scene(Next(s, a), stack, changes, []) && SameVictim(s, Next(s, a))
      && Next(s, a).m.threads[1] == Thread(OnePop, PopCas(stack[0], s.m.head.tag, Deref(s.m.mem, stack[0])))
      && Next(s, a).l.accounts[1].loadedAt == s.l.accounts[1].loadedAt && Next(s, a).m.head == s.m.head
  {
  }

  lemma PopCasScene(s: State, stack: seq<Block>, changes: nat, next: Ptr)
    requires Scene(s, stack, changes, []) && |stack| > 0 && Distinct(stack) && stack[0] in s.m.mem
    requires s.m.head.ptr == At(stack[0]) && s.l.accounts[1].loadedAt == changes
    requires s.m.threads[1] == Thread(OnePop, PopCas(stack[0], s.m.head.tag, next))
    ensures var a := Tick(1, false);
      && Can(s, a) && NoWrap(s.m, s.l, a)
      && Scene(Next(s, a), stack[1..], changes + 1, [stack[0]]) && SameVictim(s, Next(s, a))
      && Next(s, a).m.threads[1] == Thread(Done(At(stack[0])), Between)
  {
    assert stack == [stack[0]] + stack[1..];
    assert forall x :: x in stack <==> x == stack[0] || x in stack[1..];
    assert [] + [stack[0]] == [stack[0]];
  }

  /** A whole `push` by thread 1. */
  lemma PushOne(s0: State, s: State, b: Block, stack: seq<Block>, changes: nat) returns (s': State)
    requires Reaches(s0, s) && Scene(s, stack, changes, []) && s.m.threads[1] == Thread(Outside, Between)
    requires b in s.m.mem && b !in stack
    ensures Reaches(s0, s') && Scene(s', [b] + stack, changes + 1, []) && s'.m.threads[1] == Thread(Outside, Between)
    ensures SameVictim(s, s')
  {
    InvokeScene(s, Push(b), stack, changes);
    ReachStep(s0, s, Invoke(1, Push(b)));
    var s1 := Next(s, Invoke(1, Push(b)));
    PushLoadScene(s1, b, stack, changes);
    ReachStep(s0, s1, Tick(1, false));
    var s2 := Next(s1, Tick(1, false));
    PushLinkScene(s2, b, stack, changes);
    ReachStep(s0, s2, Tick(1, false));
    var s3 := Next(s2, Tick(1, false));
    PushCasScene(s3, b, stack, changes);
    ReachStep(s0, s3, Tick(1, false));
    var s4 := Next(s3, Tick(1, false));
    ReturnScene(s4, Null, [b] + stack, changes + 1, []);
    ReachStep(s0, s4, Tick(1, false));
    s' := Next(s4, Tick(1, false));
  }

  /** A whole `pop` by thread 1. */
  lemma PopOne(s0: State, s: State, stack: seq<Block>, changes: nat) returns (s': State)
    requires Reaches(s0, s) && Scene(s, stack, changes, []) && s.m.threads[1] == Thread(Outside, Between)
    requires |stack| > 0 && Distinct(stack) && s.m.head.ptr == At(stack[0]) && stack[0] in s.m.mem
    ensures Reaches(s0, s') && Scene(s', stack[1..], changes + 1, []) && s'.m.threads[1] == Thread(Outside, Between)
    ensures SameVictim(s, s')
  {
    InvokeScene(s, Pop, stack, changes);
    ReachStep(s0, s, Invoke(1, Pop));
    var s1 := Next(s, Invoke(1, Pop));
    PopLoadScene(s1, stack, changes);
    ReachStep(s0, s1, Tick(1, false));
    var s2 := Next(s1, Tick(1, false));
    PopNextScene(s2, stack, changes);
    ReachStep(s0, s2, Tick(1, false));
    var s3 := Next(s2, Tick(1, false));
    PopCasScene(s3, stack, changes, Deref(s2.m.mem, stack[0]));
    ReachStep(s0, s3, Tick(1, false));
    var s4 := Next(s3, Tick(1, false));
    ReturnScene(s4, At(stack[0]), stack[1..], changes + 1, [stack[0]]);
    ReachStep(s0, s4, Tick(1, false));
    s' := Next(s4, Tick(1, false));
  }

  /** A step of the victim that leaves the scene as it is. */
  ghost predicate VictimStep(s: State, a: Action, stack: seq<Block>, changes: nat) {
    && Can(s, a) && NoWrap(s.m, s.l, a)
    && Scene(Next(s, a), stack, changes, []) && Next(s, a).m.threads[1] == s.m.threads[1]
    && Next(s, a).m.head == s.m.head && Next(s, a).m.mem == s.m.mem
  }

  lemma VictimCalls(s: State, stack: seq<Block>, changes: nat)
    requires Scene(s, stack, changes, []) && s.m.threads[0] == Thread(Outside, Between)
    ensures VictimStep(s, Invoke(0, Pop), stack, changes)
    ensures Next(s, Invoke(0, Pop)).m.threads[0] == Thread(OnePop, PopLoad)
  {
  }

  lemma VictimLoads(s: State, stack: seq<Block>, changes: nat, top: Block)
    requires Scene(s, stack, changes, []) && s.m.threads[0] == Thread(OnePop, PopLoad) && s.m.head.ptr == At(top)
    ensures VictimStep(s, Tick(0, false), stack, changes)
    ensures var s' := Next(s, Tick(0, false));
      s'.m.threads[0] == Thread(OnePop, PopNext(top, s.m.head.tag)) && s'.l.accounts[0].loadedAt == changes
  {
  }

  lemma VictimReads(s: State, stack: seq<Block>, changes: nat, top: Block)
    requires Scene(s, stack, changes, []) && s.m.threads[0] == Thread(OnePop, PopNext(top, s.m.head.tag))
    ensures VictimStep(s, Tick(0, false), stack, changes)
    ensures var s' := Next(s, Tick(0, false));
      && s'.m.threads[0] == Thread(OnePop, PopCas(top, s.m.head.tag, Deref(s.m.mem, top)))
      && s'.l.accounts[0].loadedAt == s.l.accounts[0].loadedAt
  {
  }

  /** The victim loads the head and reads the link of the top block. */
  lemma VictimLooks(s0: State, s: State, stack: seq<Block>, changes: nat) returns (s': State)
    requires Reaches(s0, s) && Scene(s, stack, changes, []) && s.m.threads[1] == Thread(Outside, Between)
    requires s.m.threads[0] == Thread(Outside, Between)
    requires |stack| > 1 && s.m.head == Head(At(stack[0]), changes % TAGS)
    requires Deref(s.m.mem, stack[0]) == At(stack[1])
    ensures Reaches(s0, s') && Scene(s', stack, changes, []) && s'.m.threads[1] == Thread(Outside, Between)
    ensures s'.m.threads[0] == Thread(OnePop, PopCas(stack[0], changes % TAGS, At(stack[1])))
    ensures s'.l.accounts[0].loadedAt == changes && s'.m.mem.Keys == s.m.mem.Keys
  {
    VictimCalls(s, stack, changes);
    ReachStep(s0, s, Invoke(0, Pop));
    var s1 := Next(s, Invoke(0, Pop));
    VictimLoads(s1, stack, changes, stack[0]);
    ReachStep(s0, s1, Tick(0, false));
    var s2 := Next(s1, Tick(0, false));
    VictimReads(s2, stack, changes, stack[0]);
    ReachStep(s0, s2, Tick(0, false));
    s' := Next(s2, Tick(0, false));
  }

  const POOL: map<Block, Ptr> := map[1 := Null, 2 := Null, 3 := Null]

  ghost predicate Reached(s: State) { Reaches(Fresh(POOL, 2), s) }

  lemma StartReached()
    ensures Reached(Fresh(POOL, 2))
  {
    var s, acts: seq<Action> := Fresh(POOL, 2), [];
    assert Runs(s, acts) && Unwrapped(s, acts) && After(s, acts) == s;
  }

  /** Thread 1 is idle and every block off the list is with a client. */
  ghost predicate Calm(s: State, stack: seq<Block>, changes: nat) {
    && Scene(s, stack, changes, []) && s.m.threads[1] == Thread(Outside, Between)
    && s.m.mem.Keys == {1, 2, 3}
  }

  lemma HeadNow(s: State)
    requires Reached(s)
    ensures s.m.head.ptr == First(s.l.stack) && s.m.head.tag == Changes(s.l) % TAGS
    ensures |s.l.stack| > 1 ==> Deref(s.m.mem, s.l.stack[0]) == At(s.l.stack[1])
  {
    FreshInv(POOL, 2);
    ReachedHead(Fresh(POOL, 2), s);
  }

  lemma CalmPush(s: State, b: Block, stack: seq<Block>, changes: nat) returns (s': State)
    requires Reached(s) && Calm(s, stack, changes) && b in {1, 2, 3} && b !in stack
    ensures Reached(s') && Calm(s', [b] + stack, changes + 1) && SameVictim(s, s')
  {
    s' := PushOne(Fresh(POOL, 2), s, b, stack, changes);
  }

  lemma CalmPop(s: State, b: Block, rest: seq<Block>, changes: nat) returns (s': State)
    requires Reached(s) && Calm(s, [b] + rest, changes) && Distinct([b] + rest) && b in {1, 2, 3}
    ensures Reached(s') && Calm(s', rest, changes + 1) && SameVictim(s, s')
  {
    HeadNow(s);
    assert ([b] + rest)[1..] == rest;
    s' := PopOne(Fresh(POOL, 2), s, [b] + rest, changes);
  }

  lemma SpinOnce(s: State, changes: nat) returns (s': State)
    requires Reached(s) && Calm(s, [1], changes)
    ensures Reached(s') && Calm(s', [1], changes + 2) && SameVictim(s, s')
  {
    assert [1] + [] == [1];
    s' := CalmPop(s, 1, [], changes);
    s' := CalmPush(s', 1, [], changes + 1);
  }

  /** Popping and pushing the only block `k` times: `2 * k` head changes. */
  lemma {:induction false} Spin(s: State, changes: nat, k: nat) returns (s': State)
    requires Reached(s) && Calm(s, [1], changes)
    ensures Reached(s') && Calm(s', [1], changes + 2 * k) && SameVictim(s, s')
    decreases k
  {
    if k == 0 {
      s' := s;
    } else {
      s' := SpinOnce(s, changes);
      s' := Spin(s', changes + 2, k - 1);
    }
  }

  /** Blocks 1, 2 and 3 go on the list. */
  lemma FillList() returns (s': State)
    ensures Reached(s') && Calm(s', [1, 2, 3], 3) && s'.m.threads[0] == Thread(Outside, Between)
  {
    var s0 := Fresh(POOL, 2);
    StartReached();
    assert Calm(s0, [], 0);
    var s1 := CalmPush(s0, 3, [], 0);
    assert [3] + [] == [3];
    var s2 := CalmPush(s1, 2, [3], 1);
    assert [2] + [3] == [2, 3];
    s' := CalmPush(s2, 1, [2, 3], 2);
    assert [1] + [2, 3] == [1, 2, 3];
  }

  /** The victim is about to replace the head, having seen 1 on top of 2. */
  ghost predicate Misled(s: State) {
    && |s.m.threads| == 2 && |s.l.accounts| == 2
    && s.m.threads[0] == Thread(OnePop, PopCas(1, 3, At(2))) && s.l.accounts[0].loadedAt == 3
  }

  lemma SetUp() returns (s': State)
    ensures Reached(s') && Calm(s', [1, 2, 3], 3) && Misled(s')
  {
    var s := FillList();
    HeadNow(s);
    s' := VictimLooks(Fresh(POOL, 2), s, [1, 2, 3], 3);
  }

  /** Thread 1 takes all three blocks and puts only block 1 back. */
  lemma TakeAll(s: State) returns (s': State)
    requires Reached(s) && Calm(s, [1, 2, 3], 3) && Misled(s)
    ensures Reached(s') && Calm(s', [1], 7) && Misled(s')
  {
    assert [1, 2, 3] == [1] + [2, 3] && [2, 3] == [2] + [3] && [3] == [3] + [];
    var s1 := CalmPop(s, 1, [2, 3], 3);
    var s2 := CalmPop(s1, 2, [3], 4);
    var s3 := CalmPop(s2, 3, [], 5);
    s' := CalmPush(s3, 1, [], 6);
    assert [1] + [] == [1];
  }

  /** A reachable state in which exactly 2^64 head changes lie between a pop's
      load and its compare-exchange: the exchange succeeds and makes block 2 the
      head, which a client owns, while the list should be empty. */
  lemma WrapBreaks() returns (s: State)
    ensures Reached(s) && Can(s, Tick(0, false))
    ensures |s.l.accounts| == 2 && Changes(s.l) - s.l.accounts[0].loadedAt == TAGS
    ensures var s' := Next(s, Tick(0, false));
      && Perform(s.m, Tick(0, false)).e == Popped(0, 1)
      && s'.l.stack == [] && s'.m.head.ptr == At(2)
      && 2 in s'.l.place && s'.l.place[2] == Client
  {
    var s1 := SetUp();
    var s2 := TakeAll(s1);
    s := Spin(s2, 7, (TAGS - 4) / 2);
    HeadNow(s);
    Strike(s);
  }

  lemma Strike(s: State)
    requires Calm(s, [1], TAGS + 3) && Misled(s) && s.m.head == Head(At(1), 3)
    ensures Can(s, Tick(0, false)) && Perform(s.m, Tick(0, false)).e == Popped(0, 1)
    ensures var s' := Next(s, Tick(0, false));
      s'.l.stack == [] && s'.m.head.ptr == At(2) && 2 in s'.l.place && s'.l.place[2] == Client
  {
  }
}
