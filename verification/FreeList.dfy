/** The free list as it works in place on linked blocks,
    one thread at a time. */
module FreeList {
  import opened CacheSpec
  import opened Sequences

  class FreeBlock {
    const address: nat
    var next: FreeBlock?

    constructor (at: nat)
      ensures next == null && address == at
    {
      next, address := null, at;
    }
  }

  function First(s: seq<FreeBlock>): FreeBlock? { if s == [] then null else s[0] }

  /** Consecutive blocks of `s` are linked; the last link is unconstrained. */
  ghost predicate Linked(s: seq<FreeBlock>)
    reads s
  {
    && Distinct(s)
    && (forall i, j :: 0 <= i < |s| && 0 <= j < |s| && j == i + 1 ==> s[i].next == s[j])
  }

  /** `s` is an acyclic null-terminated chain. */
  ghost predicate Chain(s: seq<FreeBlock>)
    reads s
  {
    Linked(s) && (|s| > 0 ==> s[|s| - 1].next == null)
  }

  lemma ChainSplit(s: seq<FreeBlock>, k: nat)
    requires k <= |s|
    ensures Linked(s) ==> Linked(s[..k]) && Linked(s[k..])
    ensures Chain(s) ==> Chain(s[k..])
  {
  }

  lemma ChainJoin(s: seq<FreeBlock>, t: seq<FreeBlock>)
    requires Linked(s) && Chain(t) && |s| > 0 && s[|s| - 1].next == First(t)
    requires forall b :: b in s ==> b !in t
    ensures Chain(s + t)
  {
    var st := s + t;
    forall i, j | 0 <= i < j < |st| ensures st[i] != st[j] {
      assert i < |s| ==> st[i] in s;
      assert j >= |s| ==> st[j] in t;
    }
  }

  /** Ends a chain after its `k`-th block: `last->next = nullptr`. */
  method CutAfter(last: FreeBlock, ghost whole: seq<FreeBlock>, ghost k: nat)
    requires Chain(whole) && 0 < k <= |whole| && last == whole[k - 1]
    modifies last
    ensures Chain(whole[..k]) && Chain(whole[k..]) && last.next == null
  {
    ChainSplit(whole, k);
    last.next := null;
  }

  class FreelistAllocator {
    var head: FreeBlock?
    var tag: bv64
    ghost var stack: seq<FreeBlock>

    ghost predicate Valid()
      reads this, stack
    {
      Chain(stack) && head == First(stack)
    }

    constructor ()
      ensures Valid() && stack == [] && tag == 0
    {
      head, tag, stack := null, 0, [];
    }

    /** Without interference and spurious failure: moves head and tag together. */
    method CompareExchange(ptr: FreeBlock?, expected: bv64, desired: FreeBlock?) returns (ok: bool)
      modifies this`head, this`tag
      ensures ok <==> old(head) == ptr && old(tag) == expected
      ensures ok ==> head == desired && tag == expected + 1
      ensures !ok ==> head == old(head) && tag == old(tag)
    {
      ok := head == ptr && tag == expected;
      if ok {
        head, tag := desired, tag + 1;
      }
    }

    method Push(node: FreeBlock)
      requires Valid() && node !in stack
      modifies this, node
      ensures Valid() && stack == [node] + old(stack) && tag == old(tag) + 1
    {
      var ok := false;
      while !ok
        invariant !ok ==> Valid() && stack == old(stack) && tag == old(tag)
        invariant ok ==> head == node && node.next == old(head) && stack == old(stack) && tag == old(tag) + 1
        invariant forall b :: b in stack ==> b.next == old(b.next)
        decreases !ok
      {
        var seen, version := head, tag;
        node.next := seen;
        ok := CompareExchange(seen, version, node);
      }
      stack := [node] + stack;
    }

    method Pop() returns (top: FreeBlock?)
      requires Valid()
      modifies this
      ensures Valid() && top == First(old(stack))
      ensures top == null ==> stack == [] && tag == old(tag)
      ensures top != null ==> stack == old(stack)[1..] && tag == old(tag) + 1
    {
      var ok := false;
      top := null;
      while !ok
        invariant !ok ==> Valid() && head == old(head) && tag == old(tag)
        invariant ok ==> top == old(head) != null && head == top.next && tag == old(tag) + 1
        invariant stack == old(stack)
        decreases !ok
      {
        var version := tag;
        top := head;
        if top == null {
          return;
        }
        ok := CompareExchange(top, version, top.next);
      }
      ChainSplit(stack, 1);
      stack := stack[1..];
    }

    /** The blocks of the batch from position `done` on are still to be pushed. */
    ghost predicate Pending(batch: seq<FreeBlock>, done: nat)
      reads this, batch
    {
      forall i :: done <= i < |batch| ==>
        batch[i] !in stack && batch[i].next == (if i == |batch| - 1 then null else batch[i + 1])
    }

    /** One round of the loop of `PushBulk`: the link is read before the push
        overwrites it. */
    method PushNext(node: FreeBlock, ghost batch: seq<FreeBlock>, ghost done: nat) returns (next: FreeBlock?)
      requires Valid() && Distinct(batch) && done < |batch| && node == batch[done] && Pending(batch, done)
      modifies this, node
      ensures Valid() && stack == [node] + old(stack) && Pending(batch, done + 1)
      ensures next == (if done == |batch| - 1 then null else batch[done + 1])
    {
      next := node.next;
      assert forall i :: done < i < |batch| ==> batch[i] != node && batch[i] !in [node] + stack;
      Push(node);
    }

    /** The loop of `PushBulk`, over a chain that is already sealed. */
    method PushChain(first: FreeBlock, ghost batch: seq<FreeBlock>)
      requires Valid() && Chain(batch) && first == First(batch)
      requires forall i :: 0 <= i < |batch| ==> batch[i] !in stack
      modifies this, batch
      ensures Valid() && stack == Reverse(batch) + old(stack)
    {
      var node: FreeBlock? := first;
      ghost var done := 0;
      while node != null
        invariant done <= |batch| && node == (if done < |batch| then batch[done] else null)
        invariant Valid() && Pending(batch, done) && stack == Reverse(batch[..done]) + old(stack)
        decreases |batch| - done
      {
        ReverseGrows(batch, done, old(stack));
        node := PushNext(node, batch, done);
        done := done + 1;
      }
      assert batch[..done] == batch;
    }

    /** Pushes the chain from `first` to `last` block by block. */
    method PushBulk(first: FreeBlock, last: FreeBlock, ghost batch: seq<FreeBlock>)
      requires Valid() && Linked(batch) && |batch| > 0
      requires first == batch[0] && last == batch[|batch| - 1]
      requires forall i :: 0 <= i < |batch| ==> batch[i] !in stack
      modifies this, batch
      ensures Valid() && stack == Reverse(batch) + old(stack)
    {
      last.next := null;
      PushChain(first, batch);
    }

    /** One round of the loop of `PopBulk`: the popped block is linked behind
        `last`, where it was linked already. */
    method PopOnto(last: FreeBlock, ghost whole: seq<FreeBlock>, ghost count: nat) returns (next: FreeBlock?)
      requires Valid() && Chain(whole) && 0 < count <= |whole| && last == whole[count - 1] && stack == whole[count..]
      modifies this, last
      ensures Valid() && last.next == old(last.next)
      ensures next == (if count < |whole| then whole[count] else null)
      ensures stack == whole[(if count < |whole| then count + 1 else count)..]
    {
      next := Pop();
      if next != null {
        assert last.next == next;
        last.next := next;
      }
    }

    /** The loop of `PopBulk`: pops after `first` until `n` blocks are taken. */
    method PopMore(n: nat, first: FreeBlock, ghost whole: seq<FreeBlock>) returns (last: FreeBlock)
      requires Valid() && Chain(whole) && |whole| > 0 && first == whole[0] && stack == whole[1..]
      modifies this, whole
      ensures Valid() && stack == whole[Taken(n, |whole|)..]
      ensures last == whole[Taken(n, |whole|) - 1]
      ensures forall b :: b in whole ==> b.next == old(b.next)
    {
      var count := 1;
      last := first;
      while count < n
        invariant 1 <= count <= |whole| && (count <= n || count == 1)
        invariant last == whole[count - 1]
        invariant Valid() && Chain(whole) && stack == whole[count..]
        invariant forall b :: b in whole ==> b.next == old(b.next)
      {
        var next := PopOnto(last, whole, count);
        if next == null {
          break;
        }
        last := next;
        count := count + 1;
      }
    }

    /** Takes the first `Taken(n, |stack|)` blocks as a null-terminated chain. */
    method PopBulk(n: nat) returns (first: FreeBlock?)
      requires Valid()
      modifies this, stack
      ensures Valid() && stack == old(stack)[Taken(n, |old(stack)|)..]
      ensures first == First(old(stack)[..Taken(n, |old(stack)|)])
      ensures Chain(old(stack)[..Taken(n, |old(stack)|)])
      ensures forall b :: b in stack ==> b.next == old(b.next)
    {
      ghost var whole := stack;
      first := Pop();
      if first == null {
        return;
      }
      var last := PopMore(n, first, whole);
      assert Chain(whole);
      CutAfter(last, whole, Taken(n, |whole|));
    }
  }
}
