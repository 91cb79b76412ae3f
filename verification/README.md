# Pool allocators: a verified model

The repository provides fixed-size pool allocators: a lock-free free list, a
per-thread cache over it, a bitmap allocator, its per-thread-region variant, and
a NUMA allocator with one free list per node. This project models the
algorithms of all five and proves what they keep over every run.

Two styles are used side by side, and connected by theorems.

- **In place.** Classes follow the code loop by loop: linked blocks with `next`
  fields in `FreeList`, `ThreadCaches`, `CachedPools` and `NumaAllocators`, arrays
  of 64-bit words and hints in `BitmapAllocators` and `RegionAllocators`. Each
  method is proved against a function on sequences (`CacheSpec`, `Bitmap`,
  `NumaSpec`), and the laws of the allocators are proved about these functions.
- **Interleaved.** Transition systems with any number of threads, one access to
  shared memory per step (`TaggedStack`, `BitmapRegions`), or one bulk transfer
  per step (`TwoLevel`, `Numa`, `NumaCalls`); `CachedStack` is the cache code over
  `TaggedStack`. Theorems quantify over every run. A ledger or observer beside the
  machine is a function of what the machine does; the machine never reads it.

The models are tied together by theorems. `CachedStackRuns.CachesOverStack` runs
the code of the caches, access by access, on the compare-exchange machine of
`TaggedStack` and maps every such run to a run of `TwoLevel`.
`TwoLevel.AllocAtomic` and `TwoLevel.DeallocAtomic`, and the theorems of
`TaggedStackSolo`, `CachedStackSolo`, `BitmapSolo` and `NumaSolo`, tie the interleaved
models to the functions the in-place methods are proved against: a call that runs
alone ends, with the answer and the state of these functions. `CacheLaws` and
`NumaLaws` say what the functions compute, on the lists before and after.

## Main results

1. *Free list* (`TaggedStackRuns`). Racing `push`, `pop`, `push_bulk` and
   `pop_bulk`, with spuriously failing compare-exchanges and clients overwriting
   their own blocks at any time, always replay on a sequential stack, each
   operation at its successful compare-exchange, and no block is lost,
   duplicated or handed out twice. This needs that no pop's compare-exchange
   succeeds after 2^64 or more head changes since its load;
   `TaggedStackWrap.WrapBreaks` shows that with exactly 2^64 it fails. A push, and
   a compare-exchange that fails, need no such bound. Three results hold in every
   run, wrapped around or not (`TaggedStackProgress`): failed compare-exchanges
   are at most (threads - 1) times the successful ones, the bulk lock admits one
   thread, and the tag counts the successes modulo 2^64. A thread that runs alone
   finishes its call wherever in it it stands (`TaggedStackSolo.Finishes`).
2. *Thread caches* (`TwoLevel`). Over every run with blocks freed by any thread,
   shared list, local lists, batches in transit and live blocks partition the
   pool, and the calls refine a set of live blocks. Watermarks, statistics,
   distance between flushes and the bound on stranded blocks hold for every
   batch size, 0 and 1 included; a null answer means that all blocks were live
   but the stranded ones when the call began. The cache code over the lock-free
   stack refines this model (`CachedStackRuns`).
3. *Bitmaps* (`Bitmap`, `BitmapRuns`). In every interleaving a bit is set
   exactly when one party holds it, although the word compare-exchange has no
   tag. "`alloc` returns null only if the pool is full" is **false**: with
   padding bits in the last word it gives up there, whatever the words before
   the hint hold (`Bitmap.NullWithFreeBlock`). `Bitmap.NullIffExhausted` states
   exactly when it returns null, `Bitmap.NullWhileFree` exactly when that answer
   is wrong, and `BitmapNulls.NullMeansSpent` what null means under interference.
   Otherwise `alloc` takes the first free block from the hint's word on, going round
   (`Bitmap.AllocOrder`).
4. *NUMA* (`Numa`, `NumaSpec`). In every run the lists of a node hold exactly the
   blocks of its region and frees go to the owning node. Taken one at a time, a
   call returns null exactly when the thread's caches and all shared lists are
   empty; interleaved, another node than the chosen one is used only after the
   chosen one and all nodes before it had nothing at some moment of the call
   (`NumaCallRuns.FallbackJustified`), and answered and freed blocks alone show that
   no block is answered while it is live (`NumaAnswers.AnswersNeverTwice`).

## Assumptions

- Shared memory is sequentially consistent.
- Clients free only blocks they own and hand `push_bulk` a linked chain. The
  region allocator also accepts null and foreign pointers, as its code does.
- Regions were obtained, do not overlap and do not contain address 0; there is at
  least one region or node; block sizes are at least 1.
- `batch * 2`, `block_size * block_count` and the counters do not overflow
  `size_t`; the 64-bit tag of the free list does wrap around in the model.
- There is one allocator instance per class, because the caches and the region
  index are `thread_local` per function or class
  (src/tl_freelist_allocator.cpp:179, src/tl_bitmap_allocator.cpp:8,
  src/numa_allocator.cpp:83).
- Node count, current node and the addresses of the regions are inputs.

## Model

| member | source | states |
|---|---|---|
| `TaggedStackSteps.PopSeesTop` | src/freelist_allocator.cpp:33-44 | When head pointer and tag equal those a pop loaded, and fewer than 2^64 head changes intervened, none did: the loaded block is still the top and the link read after the load is still its true successor |
| `TaggedStackSteps.StepKeeps` | src/freelist_allocator.cpp:13-98 | Every step of any thread inside push, pop, push_bulk or pop_bulk, every call, and every client write into its own block keeps memory, lock, program counters and block ownership consistent, and its event is legal on the abstract stack |
| `TaggedStackSteps.ScribbleKeeps` | src/freelist_allocator.cpp:40-42 | A client may overwrite a block it owns while a pop that saw the block earlier is about to use its link |
| `TaggedStackSteps.PushTickKeeps` | src/freelist_allocator.cpp:18-26 | Load, link and compare-exchange of push keep the invariant with no bound on the head changes in between |
| `TaggedStackSteps.PopTickKeeps` | src/freelist_allocator.cpp:33-46 | Load, link read and compare-exchange of pop keep the invariant; only a compare-exchange that succeeds needs that fewer than 2^64 head changes intervened |
| `TaggedStackSteps.TaskTickKeeps` | src/freelist_allocator.cpp:49-98 | Locking, sealing, walking, linking and unlocking in the bulk operations keep the invariant while single pushes and pops race |
| `TaggedStackRuns.Linearizable` | src/freelist_allocator.cpp:13-98 | For every run from an empty list with arbitrary block contents: the successful compare-exchanges and null loads replay on a sequential stack, and memory holds exactly the resulting stack as an acyclic null-terminated list |
| `TaggedStackRuns.CallsFulfilled` | src/freelist_allocator.cpp:13-98 | In every run a call returns only after exactly the stack operations it owes: push and push_bulk have pushed all their blocks in order, pop has one block or saw the list empty, pop_bulk returns a null-terminated chain of the blocks it popped and fewer than asked only after seeing the list empty once |
| `TaggedStackRuns.NoBlockLost` | src/freelist_allocator.cpp:13-98 | In every reachable state each block is in exactly one place: the list, the hands of one thread in a call, or a client; the list is the one that head and memory hold, and the hands fit each thread's program counter and links |
| `TaggedStackProgress.BulkExclusive` | src/freelist_allocator.cpp:53-71 | In every run of the machine, whoever owns the blocks and however often the tag wraps around, at most one thread is between taking and releasing the bulk lock |
| `TaggedStackProgress.TagCountsChanges` | src/freelist_allocator.cpp:22-44 | In every run the tag is the number of changes of the head modulo 2^64 |
| `TaggedStackRuns.TagParity` | src/freelist_allocator.cpp:22-44 | The tag has the parity of the list length |
| `TaggedStackRuns.RunExecutes` | src/freelist_allocator.cpp:13-98 | Every run with owned blocks is a run of the bare machine with the same events, so the three results about all runs apply to it |
| `TaggedStackProgress.LockFree` | src/freelist_allocator.cpp:18-44 | In every run of T threads, wrapped around or not, compare-exchanges made while the head differs from the one loaded are at most (T - 1) times the changes of the head; both are counted on memory and agree with the events |
| `TaggedStackWrap.WrapBreaks` | src/freelist_allocator.cpp:33-44 | A reachable state with exactly 2^64 head changes between a pop's load and its compare-exchange: the exchange succeeds, and the head then points to a block a client owns while the list should be empty |
| `TaggedStackBulk.HolderMoves` | src/freelist_allocator.cpp:49-98 | When only bulk operations are in progress, only the lock holder changes or observes the stack; it pushes in push_bulk and pops in pop_bulk |
| `TaggedStackBulk.BulkIsAtomic` | src/freelist_allocator.cpp:49-98 | In every run whose calls are bulk calls while the lock is held: pop_bulk takes the first min(max(1, n), length) blocks of the stack it found and push_bulk leaves the reversed batch on top of it |
| `TaggedStackShared.SharedKept` | src/freelist_allocator.cpp:49-98 | With bulk operations only, no step but the release of the lock changes the list as its clients see it |
| `TaggedStackShared.ReleaseTransfers` | src/freelist_allocator.cpp:49-98 | The release makes the whole transfer of the operation visible at once |
| `TaggedStackSolo.Finishes` | src/freelist_allocator.cpp:13-98 | From any state inside any of the four operations, a thread that runs alone without spurious failures comes to return, unless another thread holds the lock it waits for or 2^64 head changes lie behind a pop's load; the lock is then not its own |
| `TaggedStackSolo.CallAlone` | src/freelist_allocator.cpp:13-98 | A whole call run alone with the lock free returns: push and push_bulk leave the reversed blocks on top, pop and pop_bulk take the first blocks, up to the number asked for, and return the first or null, pop_bulk as a null-terminated chain; lock and other threads are as before |
| `CachedStackInv.MoveKeeps` | src/tl_freelist_allocator.cpp:29-123 | The cache code over the compare-exchange stack, one access per step: every move of any thread can be made, and keeps each local list an acyclic chain in memory, each block with one owner, and the stack consistent, while clients overwrite their blocks |
| `CachedStackRuns.CachesOverStack` | src/tl_freelist_allocator.cpp:29-123 | Every run of the cache code over the compare-exchange stack, from any reachable stack at rest, is a run of the two-level model with the same answers and frees, the same lists, batches in transit and live blocks |
| `CachedStackRuns.CodeRefinesPool` | src/tl_freelist_allocator.cpp:29-123 | In every such run alloc hands out only blocks of the pool that are not live, dealloc ends the life of the freed block alone, and a cache at rest holds at most 2 * batch blocks |
| `CachedStackSolo.AllocAlone` | src/tl_freelist_allocator.cpp:80-101 | The cache code over the compare-exchange stack: an alloc run alone comes to an end, answers the block and leaves the local and shared list of CacheSpec.Alloc, exactly that block becomes live, and the other caches are as before |
| `CachedStackSolo.DeallocAlone` | src/tl_freelist_allocator.cpp:103-123 | A dealloc run alone comes to an end, flush included, and leaves the local and shared list of CacheSpec.Dealloc; exactly the freed block is no longer live |
| `FreeList.FreelistAllocator.constructor` | src/freelist_allocator.cpp:11 | A new free list is empty with tag 0 |
| `FreeList.FreelistAllocator.Push` | src/freelist_allocator.cpp:13-27 | The block becomes the first of the list, the tag grows by one modulo 2^64, and no link but the block's own is written |
| `FreeList.FreelistAllocator.Pop` | src/freelist_allocator.cpp:29-47 | Returns and removes the first block, or null when the list is empty; writes no link |
| `FreeList.FreelistAllocator.PushNext` | src/freelist_allocator.cpp:61-65 | One round reads the link before the push overwrites it, and leaves the rest of the batch linked and off the list |
| `FreeList.FreelistAllocator.PushChain` | src/freelist_allocator.cpp:57-66 | The loop ends and leaves the reversed chain in front of the old list, although each push overwrites the link the walk follows |
| `FreeList.FreelistAllocator.PushBulk` | src/freelist_allocator.cpp:49-67 | Leaves the reversed batch followed by the old list; only links of the batch are written |
| `FreeList.FreelistAllocator.PopOnto` | src/freelist_allocator.cpp:84-91 | One round pops the next block and links it where it was linked already |
| `FreeList.FreelistAllocator.PopMore` | src/freelist_allocator.cpp:78-94 | Takes blocks until min(max(1, n), length) are taken; relinking them rewrites the links they had |
| `FreeList.CutAfter` | src/freelist_allocator.cpp:96 | Ending a chain after k blocks yields two null-terminated chains |
| `FreeList.FreelistAllocator.PopBulk` | src/freelist_allocator.cpp:69-98 | Returns the first min(max(1, n), length) blocks in order as an acyclic null-terminated chain, and leaves the rest of the list with its links |
| `CacheSpec.ReverseAt` | src/freelist_allocator.cpp:57-66 | Pushing a batch block by block puts its k-th block from the end at position k |
| `CacheSpec.RefillConserves` | src/tl_freelist_allocator.cpp:29-51 | A refill moves blocks between the two lists and neither loses nor duplicates one |
| `CacheSpec.FlushConserves` | src/tl_freelist_allocator.cpp:53-78 | A flush moves blocks between the two lists and neither loses nor duplicates one |
| `CacheSpec.AllocNull` | src/tl_freelist_allocator.cpp:80-101 | alloc returns null exactly when the local and the shared list are empty, for every batch size, and then changes neither |
| `CacheSpec.AllocConserves` | src/tl_freelist_allocator.cpp:80-101 | alloc removes exactly the block it returns from the two lists together |
| `CacheSpec.DeallocConserves` | src/tl_freelist_allocator.cpp:103-123 | dealloc adds exactly the freed block to the two lists together, with or without a flush |
| `CacheLaws.AllocLaw` | src/tl_freelist_allocator.cpp:80-101 | What alloc leaves, by position: at or below half a batch, a batch (at least one block, or all there are) moves from the front of the shared list to the front of the local one, else nothing moves; the first block of the result is handed out |
| `CacheLaws.FlushLaw` | src/tl_freelist_allocator.cpp:53-78 | A flush cuts the given number of blocks, or all, off the front of the local list and puts them backwards in front of the shared list |
| `CacheLaws.DeallocLaw` | src/tl_freelist_allocator.cpp:103-123 | dealloc puts the block in front of the local list; up to twice the batch nothing else moves, above it all but one batch goes, backwards, to the front of the shared list |
| `CacheSpec.AllocInTakesOut` | src/tl_freelist_allocator.cpp:184-187 | With the caches of all threads over one list: a block that alloc hands out is in no list afterwards |
| `CacheSpec.AllocInSimple` | src/tl_freelist_allocator.cpp:184-187 | alloc by any thread leaves all lists without common blocks |
| `CacheSpec.DeallocInSimple` | src/tl_freelist_allocator.cpp:189-192 | dealloc by any thread of a block that is in no list leaves all lists without common blocks; that the block is then in exactly one is CacheLaws.DeallocInLaw |
| `CacheLaws.AllocInLaw` | src/tl_freelist_allocator.cpp:184-187 | Over the lists of all threads: alloc takes exactly the block it returns out of them, and leaves the caches of all other threads as they are |
| `CacheLaws.DeallocInLaw` | src/tl_freelist_allocator.cpp:189-192 | Over the lists of all threads: dealloc brings exactly the freed block into them; the calling thread's list starts with it up to twice the batch, and is one batch long after a flush; all other caches stay as they are |
| `CacheLaws.NullDeallocLaw` | src/tl_freelist_allocator.cpp:189-192 | A dealloc of null changes no list of any thread |
| `ThreadCaches.WalkToTail` | src/tl_freelist_allocator.cpp:36-43 | The walk ends at the last block and counts the chain |
| `ThreadCaches.WalkAtMost` | src/tl_freelist_allocator.cpp:58-67 | The walk ends after min(excess, length) blocks |
| `ThreadCaches.ThreadCache.constructor` | src/tl_freelist_allocator.cpp:19-27 | A new cache is empty, with half and twice the batch as watermarks |
| `ThreadCaches.ThreadCache.Splice` | src/tl_freelist_allocator.cpp:36-47 | The popped chain goes in front of the local list, in place |
| `ThreadCaches.ThreadCache.Refill` | src/tl_freelist_allocator.cpp:29-51 | The first min(max(1, batch), length) shared blocks are prepended to the local list; the local size is the true length and the counters still explain it |
| `ThreadCaches.ThreadCache.Detach` | src/tl_freelist_allocator.cpp:58-72 | Exactly min(excess, length) blocks are cut off the front |
| `ThreadCaches.ThreadCache.Flush` | src/tl_freelist_allocator.cpp:53-78 | Those blocks go to the shared list in reverse order; nothing happens for an empty cache or no excess; the counters still explain the local size |
| `ThreadCaches.ThreadCache.Trim` | src/tl_freelist_allocator.cpp:119-122 | Above twice the batch, all but one batch goes back to the shared list; otherwise nothing changes |
| `ThreadCaches.ThreadCache.Alloc` | src/tl_freelist_allocator.cpp:80-101 | The linked lists do what CacheSpec.Alloc says: refill at or below the low watermark, then hand out the first local block or null; allocs counts the blocks handed out |
| `ThreadCaches.ThreadCache.Dealloc` | src/tl_freelist_allocator.cpp:103-123 | The linked lists do what CacheSpec.Dealloc says: prepend, and above the high watermark flush down to one batch; null is ignored |
| `ThreadCaches.BuildPool` | src/tl_freelist_allocator.cpp:156-162 | After construction the shared list holds every block once, last block on top |
| `CachedPools.MakePool` | src/tl_freelist_allocator.cpp:127-163 | The block size is the least multiple of 64 that is at least 64 and the requested size; the blocks at their addresses do not overlap and are 64-aligned if the region is; all of them are on the shared list |
| `CachedPools.CachedPool.constructor` | src/tl_freelist_allocator.cpp:156-162 | A new pool has all given blocks on the shared list, last on top, and no caches |
| `CachedPools.CachedPool.GetCache` | src/tl_freelist_allocator.cpp:177-182 | A thread gets its cache, empty, on first use and the same object afterwards; no list changes |
| `CachedPools.CachedPool.Alloc` | src/tl_freelist_allocator.cpp:184-187 | With the caches of all threads on one linked list: the calling thread's cache does what CacheSpec.Alloc says, every other cache stays valid and unchanged, the block is in no list afterwards, and of the blocks only links on the shared list are written |
| `CachedPools.CachedPool.Dealloc` | src/tl_freelist_allocator.cpp:189-192 | The same for dealloc, which does what CacheLaws.DeallocInLaw says of CacheSpec.DeallocIn and writes only links of the thread's local list and of the freed block; null is ignored |
| `TwoLevel.AllocAtomic` | src/tl_freelist_allocator.cpp:80-101 | An uninterleaved alloc of the transition system is CacheSpec.Alloc |
| `TwoLevel.DeallocAtomic` | src/tl_freelist_allocator.cpp:103-123 | An uninterleaved dealloc of the transition system is CacheSpec.Dealloc |
| `TwoLevel.StepConserves` | src/tl_freelist_allocator.cpp:29-123 | Every step keeps each block in exactly one of shared list, local lists, transfers and live blocks, and is a step of the abstract pool |
| `TwoLevel.StepCaches` | src/tl_freelist_allocator.cpp:80-123 | Every step of any thread keeps watermarks, statistics and hysteresis of all caches |
| `TwoLevel.RefinesPool` | src/tl_freelist_allocator.cpp:29-123 | Over every run with cross-thread frees the blocks are partitioned, alloc hands out only non-live blocks of the pool, and dealloc ends the life of exactly the freed block |
| `TwoLevel.CacheTheorem` | src/tl_freelist_allocator.cpp:45-123 | In every reachable state: a resting cache holds at most 2 * batch blocks, a flush leaves exactly batch; local size is refill_blocks + deallocs - allocs - flush_blocks; calls since the last flush are at least the distance of local size from batch, and (flushes - 1) * (batch + 1) plus these is at most all calls |
| `TwoLevel.FlushesApart` | src/tl_freelist_allocator.cpp:117-122 | A flush leaves exactly one batch and comes at least batch + 1 calls after the previous flush of that cache, whatever other threads do to the shared list |
| `TwoLevel.Stranding` | src/tl_freelist_allocator.cpp:80-123 | When a thread finds nothing, at least block_count - (caches - 1) * 2 * batch blocks are live if no call is in progress, with one more block per other cache otherwise; caches are never dissolved |
| `TwoLevel.NullMeansStranded` | src/tl_freelist_allocator.cpp:80-123 | In every run a call that returns null began in a state in which the shared list and its own cache were empty and that bound on live blocks held |
| `Words.FindFreeBit` | src/bitmap_allocator.cpp:50-59 | For a word that is not full, a clear bit below which all bits are set |
| `Words.BitsSet` | src/bitmap_allocator.cpp:88-89 | On 64-bit words, or-ing the shifted one adds that bit to the set of one-bits |
| `Words.BitsClear` | src/bitmap_allocator.cpp:122-124 | On 64-bit words, and-ing the complemented mask removes that bit from the set of one-bits |
| `Words.BitsEqual` | src/bitmap_allocator.cpp:91-95 | Two words are equal iff they have the same one-bits, so the compare-exchange on words is that on sets |
| `Words.BitsFull` | src/bitmap_allocator.cpp:81-84 | A word is FULL iff all 64 bits are in its set |
| `Words.FindFreeIsTrailingZeros` | src/bitmap_allocator.cpp:50-59 | The lowest clear bit of a word is the number of trailing zeros of its complement |
| `Bitmap.ProbeIsModulo` | src/bitmap_allocator.cpp:77 | The cyclic probe sequence is the modulo expression of the code |
| `Bitmap.AllocEffect` | src/bitmap_allocator.cpp:71-113 | A successful alloc returns a free index below block_count, sets that bit and no other and points the hint at its word; on null bitmap and hint are unchanged |
| `Bitmap.AllocOrder` | src/bitmap_allocator.cpp:71-113 | The block returned is the first free one cyclically from the hint's word: all words that come before its word, going up from the hint and round, have all 64 bits set, and so have the bits of its word below it |
| `Bitmap.DeallocEffect` | src/bitmap_allocator.cpp:115-127 | dealloc clears that bit and no other, and points the hint at its word |
| `Bitmap.NullIffExhausted` | src/bitmap_allocator.cpp:71-113 | alloc returns null iff block_count is a multiple of 64 and every word is full, or it is not and all words from the hint to the last but one are full and all valid bits of the last are set |
| `Bitmap.NullIffTaken` | src/bitmap_allocator.cpp:71-113 | The same in terms of blocks: null iff every block is taken, or, with padding bits, every block from the hint's word on |
| `Bitmap.NullWhileFree` | src/bitmap_allocator.cpp:99-103 | The wrong answers: null while a block is free, iff the last word has padding bits, no block from the hint's word on is free, and one before it is |
| `Bitmap.NullWithFreeBlock` | src/bitmap_allocator.cpp:99-103 | With 65 blocks, a reachable state in which block 5 is free and alloc returns null |
| `Bitmap.DrainOrder` | src/bitmap_allocator.cpp:71-113 | A new allocator hands out 0, 1, ..., block_count - 1 in this order and then null, for every block_count |
| `Bitmap.FreeThenAlloc` | src/bitmap_allocator.cpp:71-127 | From any bitmap and hint, alloc right after dealloc of a taken block succeeds in the same word with an index no greater than the freed one |
| `BitmapAllocators.BitmapAllocator.constructor` | src/bitmap_allocator.cpp:8-37 | All bits clear, hint 0, block size the least multiple of 64 that is at least 16 and the requested size |
| `BitmapAllocators.FindFree` | src/bitmap_allocator.cpp:50-59 | For a machine word other than FULL, the number of trailing zeros of its complement, which is its lowest clear bit |
| `BitmapAllocators.BitmapAllocator.ClaimIn` | src/bitmap_allocator.cpp:84-95 | On the array of 64-bit words: claims the lowest clear bit of the word and changes nothing else |
| `BitmapAllocators.BitmapAllocator.TryWord` | src/bitmap_allocator.cpp:84-107 | A claim below block_count moves the hint; a claim on a padding bit is undone and leaves bitmap and hint as they were |
| `BitmapAllocators.BitmapAllocator.Alloc` | src/bitmap_allocator.cpp:71-113 | The probe loop over the word array computes Bitmap.Alloc and returns the address of the index; the undo on padding bits restores the word |
| `BitmapAllocators.BitmapAllocator.Dealloc` | src/bitmap_allocator.cpp:115-127 | Any address inside a block of the pool frees exactly that block |
| `BitmapRegions.Locate` | src/tl_bitmap_allocator.cpp:164-186 | A pointer has a slot iff it lies in some region, and the slot is one of a block |
| `BitmapRegions.LocatePointer` | src/tl_bitmap_allocator.cpp:83-97 | The pointer handed out for a bit is not null and leads dealloc back to that bit |
| `BitmapRegions.StepKeeps` | src/tl_bitmap_allocator.cpp:61-198 | Every step of any thread keeps "bit set iff held by one party"; a claim takes a bit nobody holds, an undo or free clears only a bit its thread holds |
| `BitmapRuns.NeverTwice` | src/tl_bitmap_allocator.cpp:99-198 | Judged by returned and freed pointers alone, no run hands out a live block or a pointer outside the regions, with regions shared and blocks freed by any thread |
| `BitmapRuns.BitsHaveHolders` | src/bitmap_allocator.cpp:71-127 | In every reachable state a bit is set exactly when a client or the one thread between claim and return or undo holds it, and no next step touches a bit of another holder |
| `BitmapRuns.PaddingClear` | src/bitmap_allocator.cpp:97-103 | With no operation in flight the set bits are exactly those of live blocks, and padding bits are clear |
| `BitmapRuns.FreeTargets` | src/tl_bitmap_allocator.cpp:164-198 | dealloc clears exactly the bit of the only region that contains the pointer, and is a no-op for null and foreign pointers |
| `BitmapShares.FairShares` | src/tl_bitmap_allocator.cpp:61-69 | In every run, after k assignments, the number of threads whose region is r is floor(k/m) or ceil(k/m), and every hint is below a nonzero word count |
| `BitmapNulls.NullMeansSpent` | src/tl_bitmap_allocator.cpp:108-161 | In every run, when a thread is about to return null: each word of its region (with padding bits: each from the loaded hint to the last) had no free block at some moment of the call |
| `BitmapProgress.WordLockFree` | src/tl_bitmap_allocator.cpp:117-158 | In every run of T threads, whatever they call and free, compare-exchanges made while the word differs from the one read are at most (T - 1) times the claims, undos and frees |
| `BitmapSolo.AllocAlone` | src/tl_bitmap_allocator.cpp:99-162 | From every state, the steps of an uninterleaved alloc lead to the region and pointer of Bitmap.Alloc and change nothing else |
| `BitmapSolo.DeallocAlone` | src/tl_bitmap_allocator.cpp:164-198 | From every state, the steps of an uninterleaved dealloc lead to the region of Bitmap.Dealloc and change nothing else |
| `BitmapSolo.AllocCallAlone` | src/tl_bitmap_allocator.cpp:61-162 | A whole uninterleaved alloc, with the choice of a region in turn on a thread's first call and up to its return: the region becomes that of Bitmap.Alloc, and the caller gets the block's address or null |
| `BitmapSolo.DeallocCallAlone` | src/tl_bitmap_allocator.cpp:164-198 | A whole uninterleaved dealloc: a pointer into a region frees its block there as Bitmap.Dealloc, any other pointer changes nothing |
| `RegionAllocators.RegionAllocator.constructor` | src/tl_bitmap_allocator.cpp:10-45 | One fresh bitmap per region, counter 0, sizes rounded up to 64 |
| `RegionAllocators.RegionAllocator.AssignRegion` | src/tl_bitmap_allocator.cpp:61-69 | Regions are assigned round robin |
| `RegionAllocators.RegionAllocator.Alloc` | src/tl_bitmap_allocator.cpp:99-162 | A thread without a region gets one; that region alone is searched, as by Bitmap.Alloc, and no other region changes |
| `RegionAllocators.RegionAllocator.Dealloc` | src/tl_bitmap_allocator.cpp:164-198 | The search loop frees the block of the located slot in its region and leaves all others; null and foreign pointers change nothing |
| `Geometry.RoundUpLeast` | src/bitmap_allocator.cpp:16-17 | Divide-and-multiply rounding yields the least multiple of 64 that is not smaller |
| `Geometry.AlignUpAgrees` | src/tl_freelist_allocator.cpp:12-15 | The bit-mask rounding equals divide-and-multiply for every size whose rounding does not overflow |
| `Geometry.AlignUpWraps` | src/tl_freelist_allocator.cpp:12-15 | The rounded size is at least the size exactly up to 2^64 - 64; above, the sum wraps around |
| `Geometry.AlignUpFormula` | src/tl_freelist_allocator.cpp:12-15 | On machine words the mask takes the remainder off the sum, which is the formula used on numbers |
| `Geometry.MaskUpAgrees` | src/numa_allocator.cpp:5-8 | That formula with its wrap-around is the rounding up to a multiple of 64 iff the size is at most 2^64 - 64 |
| `Geometry.BlockSizeLeast` | src/tl_freelist_allocator.cpp:131-137 | The block size is the least multiple of 64 that is not below the requested and the least size |
| `Geometry.IndexOfAddress` | src/bitmap_allocator.cpp:61-69 | Every address inside block i maps back to i |
| `Geometry.IndexInRange` | src/bitmap_allocator.cpp:66-69 | An address in the region has an index below block_count |
| `Geometry.BlocksApart` | src/tl_freelist_allocator.cpp:141-162 | Two blocks of a region do not overlap and end inside it |
| `Geometry.BlocksAligned` | src/tl_freelist_allocator.cpp:131-159 | With a 64-aligned region and block size every block is 64-aligned |
| `Regions.FindRegionUnique` | src/tl_bitmap_allocator.cpp:166-174 | The search finds the only region that contains the pointer |
| `Regions.BlocksDisjoint` | src/numa_allocator.cpp:19-36 | No two blocks of all regions overlap, and each lies in its region |
| `Numa.BlockOwner` | src/numa_allocator.cpp:50-60 | owner_node of a block is the node whose pool the block came from |
| `Numa.FreeIsRouted` | src/numa_allocator.cpp:119-124 | A free by any thread of any live block can be carried out at the node owner_node names: the block is live there |
| `Numa.NodesKeepTheirBlocks` | src/numa_allocator.cpp:93-124 | In every run, node n's shared list, caches, transfers and live blocks are together the blocks of region n, each once, and every next free goes to the block's own node |
| `NumaCalls.StepKeeps` | src/numa_allocator.cpp:64-124 | Every step of interleaved calls can be carried out, keeps each cache with one thread and busy only for its call, and keeps each node's blocks at that node |
| `NumaCallRuns.NeverStuck` | src/numa_allocator.cpp:93-124 | In every run each call can take its next step, and each free of a live block can be carried out at the node of its address |
| `NumaCallRuns.FallbackJustified` | src/numa_allocator.cpp:93-115 | In every run: null is returned only if each node's shared list and the thread's cache for it were empty at some moment of the call; a block of another node than the one the thread ran on when it made the call (node 0 if out of range) only if this holds of that node and of all nodes before the other one |
| `NumaAnswers.AnswersNeverTwice` | src/numa_allocator.cpp:93-124 | In every run of interleaved calls, judged by answered and freed blocks alone: each answered block is one of the regions and not live, each freed block was live, and the blocks then live are those live at the nodes |
| `NumaAnswers.FreeEffect` | src/numa_allocator.cpp:119-124 | A free removes exactly that block from the live blocks of the node that owns its address and changes no other node; the block is in the thread's cache there, in the local list or in the batch being flushed |
| `NumaAnswers.NodesConserve` | src/numa_allocator.cpp:93-124 | In every run, shared list, caches and transfers of a node and its live blocks are together the blocks of its region, each once |
| `NumaSolo.AllocAlone` | src/numa_allocator.cpp:93-115 | A whole alloc whose steps are not interleaved, from its call with the current node to its answer: block and lists of all nodes are those of NumaSpec.AllocOn |
| `NumaSolo.DeallocAlone` | src/numa_allocator.cpp:119-124 | A whole dealloc whose steps are not interleaved, flush included: the lists of all nodes are those of NumaSpec.DeallocAt at the owning node |
| `NumaSpec.AllocAtEffect` | src/numa_allocator.cpp:100-111 | One attempt at a node fails exactly when the thread's cache and the shared list there are empty, then leaves all lists alone; else only that cache and list change |
| `NumaSpec.AllocFromEffect` | src/numa_allocator.cpp:105-114 | The fallback loop stops at the first other node that has a block, or leaves all lists alone |
| `NumaSpec.AllocServed` | src/numa_allocator.cpp:93-115 | alloc returns null iff the thread's caches and all shared lists are empty; the node the thread runs on serves it if it has a block (node 0 if the number is out of range), else the first node that has one |
| `NumaLaws.AllocAtLaw` | src/numa_allocator.cpp:100-111 | One attempt takes exactly the block it answers out of that node's lists; other nodes and other threads' caches stay as they are |
| `NumaLaws.AllocOnLaw` | src/numa_allocator.cpp:93-115 | A whole alloc takes exactly the block it returns out of the lists of one node; the lists of all other nodes and threads stay as they are |
| `NumaLaws.DeallocAtLaw` | src/numa_allocator.cpp:119-124 | dealloc brings exactly the block into the lists of the owning node, at the front of the thread's cache unless it flushes; all other nodes and caches stay as they are |
| `NumaLaws.NullDeallocAtLaw` | src/numa_allocator.cpp:119-124 | A dealloc of null changes no list of any node |
| `NumaAllocators.NumaAllocator.ListsOwned` | src/numa_allocator.cpp:93-124 | Every block on a list of node n, shared or local to any thread, is owned by node n by its address; every method keeps this |
| `NumaAllocators.BuildPools` | src/numa_allocator.cpp:19-36 | The loop over the nodes yields pools that share no object, each with the blocks of its region linked, last on top |
| `NumaAllocators.NumaAllocator.constructor` | src/numa_allocator.cpp:12-37 | At most 16 nodes; every pool holds the linked blocks of its region, last on top; no caches; every block is owned by its node |
| `NumaAllocators.NumaAllocator.AllocAt` | src/numa_allocator.cpp:100-109 | One attempt at a node works in place on that node's linked list and the calling thread's cache object, is NumaSpec.AllocAt, and leaves every other pool as it was |
| `NumaAllocators.NumaAllocator.OwnerNode` | src/numa_allocator.cpp:50-60 | The search loop finds the node whose region contains the pointer, else node 0 |
| `NumaAllocators.NumaAllocator.DeallocNull` | src/numa_allocator.cpp:50-89 | The search on null finds no region and yields node 0; the thread gets its cache there and no list changes |
| `NumaAllocators.NumaAllocator.AllocElsewhere` | src/numa_allocator.cpp:105-114 | The loop over the other nodes computes NumaSpec.AllocFrom |
| `NumaAllocators.NumaAllocator.Alloc` | src/numa_allocator.cpp:93-115 | On the linked lists the outcome is NumaSpec.AllocOn for the current node, of which NumaSpec.AllocServed says which node serves; the block is in no list afterwards |
| `NumaAllocators.NumaAllocator.Dealloc` | src/numa_allocator.cpp:119-124 | The block goes to the calling thread's cache of the owning node, with the flush to that node's linked list, as NumaLaws.DeallocAtLaw says of NumaSpec.DeallocAt; null changes no list |

## Left out

- Benchmarks, build files: no allocator logic. Some free-list benchmarks lay blocks out with a stride smaller than a `FreeBlock`, which breaks the assumption that blocks are distinct memory.
- src/multi_size_allocator.cpp: a lookup among five sizes; all its pools share one `thread_local` cache per thread (src/tl_freelist_allocator.cpp:177-182), so a model with one cache per pool would not describe the code.
- Several instances of one allocator class in a thread, for the same reason.
- src/numa_utils.cpp: operating-system calls; their results are inputs.
- Weak memory orders, the data race on the plain region hint (src/tl_bitmap_allocator.cpp:152), prefetching, padding and cache-line layout.
- Destructors, `std::bad_alloc`, and regions that could not be allocated (src/numa_allocator.cpp:28-29).
- The live sets of `ALLOC_DEBUG`, double frees, and frees of blocks the client does not own.
- Spurious compare-exchange failures in the classes: `FreelistAllocator` and `BitmapAllocator` run without interference; the transition systems have both interference and spurious failure.
- TwoLevel.Stranding: says nothing about a thread that ended; a cache whose thread is gone keeps its blocks (include/tl_freelist_allocator.hpp:23) and stays counted.
- Termination of a single operation under interference: the free list is lock-free, not wait-free; `TaggedStackProgress.LockFree` bounds failures over the whole run, and the theorems on calls that run alone need that nobody interferes.
- BitmapShares.FairShares: the region counter is unbounded, so its wrap-around after 2^64 assignments is not modelled.
- BitmapRegions: the interleaved bitmap words are the sets of their one-bits; `Words` proves that the 64-bit operations act on them as the model does, and the classes work on the 64-bit words themselves.
- Counters of a thread that has caches at several nodes: each cache of the model counts for itself, while the source adds them up per thread.
- CachedStack: the caches of all threads exist from the start, and a cache takes the chain that `pop_bulk` returned as a sequence instead of walking its links one read at a time; `TaggedStackRuns.CallsFulfilled` and `ThreadCaches.WalkToTail` say that the walk yields this sequence.
