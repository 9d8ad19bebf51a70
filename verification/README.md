# Verified models of the concurrent queues and their memory reclamation

This project models the lock-free and imperative algorithms vendored by a benchmark of concurrent
priority queues, and proves what they promise:

- **The Lindén priority queue** (`lib/linden/prioq.c`) as a machine that makes one shared-memory
  access a step, with any number of threads, all 32 levels and the calls of `free_node`. Its runs are
  runs of an atomic priority queue (`AtomicQueue`), so the queue is linearizable; every reachable
  memory has the promised shape; nodes are freed once and only when they are out of reach. Every
  nonzero 32-bit key may be inserted: no pointer behind the list is followed and no assertion of the
  code fails exactly for keys up to the stored sentinel. No level ever runs in a circle, and from every
  reachable state a call that is left alone returns within a stated number of steps, with the answer
  and the contents of the atomic queue, the new node linked or the head's pointers off every node that
  is freed. `Prioq*.dfy`.
- **The same queue in sequential runs** as a class over heap nodes, every level exact: the levels stay
  nested although `locate_preds` may see them shifted against each other, `insert` and `deletemin`
  are proved against a set of pairs, and the deleted prefix is bounded. `SeqPrioq.dfy`.
- **The epoch collector** (`lib/linden/gc/gc.c`, `ptst.c`): the protocol as a step machine in which
  the three accesses at the end of `gc_enter` are separate steps, with the exact condition under
  which the last of them leaves every continuation safe, and a run that shows what happens otherwise;
  no block is lost or doubled over any run, and an attempt to reclaim, left alone, advances the epoch
  exactly if every thread is up to date (`Epoch*.dfy`); and the circular chunk lists as pointer code,
  with every block in exactly one place (`ChunkRings.dfy`, `Gc*.dfy`).
- **Hazard pointers** (`lib/libcds/src/hzp_gc.cpp`): both scans as array code, when they agree, what
  concurrently rewritten slots cannot spoil (`HazardScan.dfy`); the records that threads hand over to
  each other as a step machine (`HazardAdoption.dfy`, `HazardRuns.dfy`), in which a call of `HelpScan`
  left alone strands no pointer (`HazardAlone.dfy`); and the same machine with the hazard slots in it,
  over whose runs a held pointer is never freed (`HazardSlots.dfy`).
- **Pass-the-Buck** (`lib/libcds/src/ptb_gc.cpp`): the intrusive hash set with its two links a node,
  and `liberate` (`PassTheBuck.dfy`, `PtbLiberate.dfy`), over the bucket arithmetic of
  `cds/int_algo.h` (`IntAlgo.dfy`).
- **The Fraser skip list and the delete-min operations on it** (`lib/spraylist/fraser.c`,
  `pqueue.c`): a step machine refining an atomic set (`AtomicSet`), with a single winner for every
  node, conservation of values, hindsight arguments for negative answers and for the minimality of
  what `naive_delete_min` returns, the exact condition under which it crashes, and the exact answer
  and effect of every operation that is left alone (`Fraser*.dfy`).
- **The sequential skip list** (`lib/spraylist/intset.c`) against a set (`SeqSkipList.dfy`), the
  level generators (`Levels.dfy`), and **the ring allocator** with its 8-bit counters
  (`lib/spraylist/ssalloc.c`, `SsAlloc.dfy`).

In the step machines a step is an indivisible access, memory is sequentially consistent, and the
number of threads and the interleaving are arbitrary. Invariants are inductive; history (the order of
deletion, the nodes ever linked, who owes which `free_node`) is recorded only where no modelled step
reads it. Random draws are arbitrary choices.

Where code and documentation differ, the model follows the code:

- `prioq.c` line 170 compares the key with the sentinel before it is cut to 32 bits, so the assertion
  admits the stored sentinel key 0xFFFFFFFE and the one above it. Inserting the first is silently
  dropped, inserting the second follows the null pointer behind the tail on the topmost level; an
  insertion does what `AtomicQueue` says exactly when its key is below the stored sentinel
  (`PrioqKeys.KeysExactly`, `SentinelKeyDropped`, `LargerKeyFaults`).
- The two scans of `hzp_gc.cpp` are meant to be interchangeable; they are so exactly when no guarded
  pointer was retired twice (`HazardScan.ScansAgree`).
- `gc_enter` is safe exactly when its last step is not held up too long: a belated entry can always be
  continued to a state that is not safe, a prompt one never, as long as the entries after it are
  prompt (`EpochExact.PromptExactly`, `EpochExact.BelatedBreaks`); and such a run goes wrong from the
  initial state on (`EpochBelated.SafetyNeedsPromptness`).
- `naive_delete_min` on an empty list claims the tail, and the next call on an empty list follows a
  null pointer: run alone, a call does so exactly when no value is present and the tail has been
  claimed before (`FraserAlone.NaiveExactly`, `EmptyTwice`); in any interleaving, every value was then
  absent at some moment of the call (`FraserMinimum.SmallerWasAbsent`).
- `restructure` is to take the head's pointer of every upper level to the first node there whose own
  pointer is not marked. Run alone after a swing it does so exactly if the walk that it brings from the
  level above ends where a walk from the head would (`PrioqSkew.LandsFirst`, `OnLevelExactly`), and there is a well-formed
  state in which it passes over such a node (`PrioqSkew.PassesOver`); in every state the node it takes
  instead is unmarked, and nothing the head leads to is freed (`PrioqReclaim.SwingAlone`).
- `fraser_remove` called to remove a successor should take the least value not below the given one. Run
  alone, it looks at the first such node whose pointer is not marked and misses exactly if that is the tail or claimed, even
  when values are present behind it (`FraserSearch.RemoveSuccAlone`, `FraserSearch.SuccHidden`).
- `alloc_node` asserts levels up to 32 but never draws 32 (`Levels.NodeLevel`).
- The free ring of `ssalloc.c` forgets everything it holds when the 256th block enters
  (`SsAlloc.FifoExactly`, `SsAlloc.Forgets`).

## Model

| member | source | states |
|---|---|---|
| PrioqRuns.Linearizable | lib/linden/prioq.c:120-378 | every run of any number of inserts and deletemins is, step by step, a run of the atomic queue with the same calls and returns, whose contents are at every moment what the memory represents: insert adds an absent key or changes nothing because the key is there, deletemin removes the minimum and returns its value, and returns without one only when the queue is empty; an insertion of the sentinel's key alone may return without having been performed, and no such key is ever in the contents |
| PrioqRuns.HoldsUnique | lib/linden/prioq.c:310-336 | a memory represents at most one map: the pairs of the nodes behind unmarked pointers on the way from head to tail |
| PrioqRuns.InvHolds | lib/linden/prioq.c:310-336 | the invariant makes level 0 a path from head to tail that represents the abstract contents |
| PrioqRuns.MachineStep | lib/linden/prioq.c:120-378 | every step of every thread keeps the invariant, matches a step of the atomic queue or drops an insertion of the sentinel's key, only extends the history, and clears no mark |
| PrioqRuns.InitInv | lib/linden/prioq.c:383-414 | the memory of pq_init satisfies the invariant and represents the empty queue |
| PrioqRuns.NeverFaults | lib/linden/prioq.c:130-372 | in every state that satisfies the invariant a thread's next step faults (a null or foreign pointer, an assertion of lines 133, 145, 281, 370) if and only if it is the search for a key above the sentinel standing behind the tail on the topmost level; every other thread can take its step |
| PrioqRuns.ReachableShape | lib/linden/prioq.c:135-198 | in every reachable state level 0 leads from head to tail without repetition, the marked pointers are a prefix of it, the nodes behind are strictly sorted by key, and no pointer to the tail is marked |
| PrioqRuns.LeftBehind | lib/linden/prioq.c:325-357 | a linked node stays reachable as long as its own pointer is unmarked, and the head never passes a node that is still being inserted |
| PrioqRuns.NeverComesBack | lib/linden/prioq.c:352-357 | the head only moves forward: a node it has passed is never reachable again |
| PrioqRuns.FreedOnce | lib/linden/prioq.c:362-373 | over a run each node is passed to free_node at most once, is then unreachable on level 0 and, if it was ever linked, marked |
| PrioqRuns.MarksStay | lib/linden/prioq.c:331-336 | no step clears a mark, and a marked pointer of a node other than the head never changes |
| PrioqKeys.KeysExactly | lib/linden/prioq.c:120-236 | for every nonzero 32-bit key: in no run can an insertion of it fault if and only if the key is at most the stored sentinel; and in all runs its steps are also those of the atomic queue, on the maps that the memory represents, if and only if the key is below it |
| PrioqKeys.LargerKeyFaults | lib/linden/prioq.c:126-135 | a run from the initial state in which an insertion of a larger key follows the tail's null pointer on the topmost level |
| PrioqKeys.LargerNeverReturns | lib/linden/prioq.c:126-151 | in every run an insertion of a larger key stays at the allocation or in the search of the topmost level |
| PrioqKeys.SentinelKeyDropped | lib/linden/prioq.c:170-188 | a run from the initial state, from the call of an insertion of the sentinel's key to its return, before and after which the queue is empty |
| PrioqLevelZero.LinkEffect | lib/linden/prioq.c:189-198 | the compare-and-swap of line 193 succeeds only for an absent key and adds it with its value to the contents |
| PrioqLevelZero.MarkEffect | lib/linden/prioq.c:331-340 | a fetch-and-or that finds the pointer unmarked removes the pair with the smallest key and leaves the node as the last of the deleted prefix |
| PrioqLevelZero.FirstIsMin | lib/linden/prioq.c:331-340 | the first live node carries the minimum of the contents, and dropping it drops exactly that pair |
| PrioqLevelZero.SwingEffect | lib/linden/prioq.c:343-357 | moving the head leaves the contents alone and hands exactly the nodes it passes to the thread that moved it |
| PrioqEffects.UpperWrite | lib/linden/prioq.c:200-226 | a write on an upper level, by insert or restructure, changes neither the invariant nor the contents nor what other threads rely on |
| PrioqEffects.FreeClaimed | lib/linden/prioq.c:367-373 | the owner of a passed node frees it once, and it had not been freed before |
| PrioqInsertSteps.LocateTestStep | lib/linden/prioq.c:126-151 | one turn of the loop of locate_preds, on any level, moves on only over nodes behind which the key belongs, records only such neighbours, and cannot fail |
| PrioqInsertSteps.DupSameStep | lib/linden/prioq.c:182-188 | the duplicate return happens at a read at which the key is in the queue, unless it is the sentinel's |
| PrioqInsertSteps.UpCasStep | lib/linden/prioq.c:200-226 | linking an upper level keeps the invariant and the contents, disturbs nobody, and goes on with the next level or to the end |
| PrioqDeleteSteps.ReCasStep | lib/linden/prioq.c:266-286 | restructure's swap and the assertion before it are safe in every interleaving and change no contents |
| PrioqStability.ThreadStable | lib/linden/prioq.c:120-378 | what one thread relies on between its steps survives every step of any other thread |
| PrioqLinearizable.ThreadStep | lib/linden/prioq.c:120-378 | one step of a thread at any program counter: a fault exactly behind the tail; otherwise the invariant is kept, the rely condition of the others met, and the atomic queue makes the corresponding step unless an insertion of the sentinel's key is dropped |
| PrioqHeights.RunHeights | lib/linden/prioq.c:120-287 | in every reachable state every node on an upper level has a rank there such that the level's pointers lead to nodes of higher rank: no level runs in a circle, however insertions, restructurings and swings overlap |
| PrioqHeights.HeightsStep | lib/linden/prioq.c:120-287 | every step of every thread keeps such ranks, which may be chosen so that no node's rank ever changes |
| PrioqHeights.ThreadClimbs | lib/linden/prioq.c:120-287 | a step changes the ranks only where it links a node, which it puts between the two nodes whose pointer it splits; the nodes a thread holds keep their order |
| PrioqInsertAlone.InsertAlone | lib/linden/prioq.c:154-236 | from every state of the invariant, an insertion of a key below the sentinel that runs alone returns within 64 steps a node and 133 more; then the contents are c with the pair if the key was absent and c otherwise, the inserting flag is clear, the new node stands between its neighbours on its bottom levels, and a refused one is freed with nothing else changed |
| PrioqReturns.InsertReturns | lib/linden/prioq.c:154-236 | so does an insertion started in any reachable state by any thread that is between two calls |
| PrioqDeleteAlone.DeleteAlone | lib/linden/prioq.c:290-378 | from every state of the invariant, a deletemin that runs alone returns within 67 steps a node and 191 more, with 0 and nothing changed if the queue is empty, and otherwise with the value of the least key, which is then gone; the head is swung exactly when the deleted prefix, this node included, is longer than max_offset and there was one before, and then exactly the nodes passed over are freed |
| PrioqReturns.DeleteReturns | lib/linden/prioq.c:290-378 | so does a deletemin started in any reachable state by any thread that is between two calls |
| PrioqDeleteAlone.HeadOffFreed | lib/linden/prioq.c:352-373 | after such a call the head leads on no level to a node that the call has freed |
| PrioqRestructure.RestructureTurn | lib/linden/prioq.c:238-287 | each turn of restructure by a thread that runs alone keeps what it has done so far: above its level the head's pointers lead where they should, below they are untouched |
| PrioqRestructure.LandsOnce | lib/linden/prioq.c:255-275 | where the head's pointer of a level has to lead after restructure is determined by the memory at the swing |
| PrioqReclaim.SwingAlone | lib/linden/prioq.c:238-287 | from every well-formed state in which a deletemin has just swung the head, whatever all threads did before, the call alone reaches the reclamation loop, where every stale head pointer of levels 1 to 31 leads to the node restructure's walk determines and all others are as before; when it returns, within 64 steps a node and 188 more, the head leads on no level to a freed node |
| PrioqSkew.LandsFirst | lib/linden/prioq.c:238-287 | on each level that node is the first along the level whose own pointer is unmarked if and only if the head's pointer there was not stale or the walk brought from the level above is in step with a walk from the head |
| PrioqSkew.OnLevelExactly | lib/linden/prioq.c:255-275 | when the node at which restructure starts the level is still on it, the pointer is taken to the first unmarked node if and only if no unmarked node lies between the head and that start |
| PrioqSkew.OnTheWay | lib/linden/prioq.c:255-275 | it is in step when the node at which the walk starts lies on the walk from the head |
| PrioqSkew.PassesOver | lib/linden/prioq.c:255-286 | a well-formed state just after a swing in which restructure takes the head's pointer of level 1 to the tail, past an unmarked node on that level |
| SeqPrioq.Queue.LocatePreds | lib/linden/prioq.c:94-152 | on every level the pair of neighbours between which the key belongs, the successor's own pointer unmarked; on level 0 the successor is not deleted; a deleted successor on a level above is the node returned as del |
| SeqPrioq.Queue.SpotUnique | lib/linden/prioq.c:126-151 | any two places on level 0 that meet that description behind the deleted prefix are the same, so the descent through the levels agrees with a plain scan from the head |
| SeqPrioq.Queue.ScanBottom | lib/linden/prioq.c:130-148 | the level-0 scan passes the whole deleted prefix and reports its last node, the only deleted one whose own pointer is unmarked, if it comes from before it |
| SeqPrioq.Queue.LiveAt | lib/linden/prioq.c:182-188 | a live node with the key can only be the successor found, so the duplicate test decides membership |
| SeqPrioq.Queue.Insert | lib/linden/prioq.c:154-236 | adds the pair exactly if no pair with the key is present and else leaves all levels alone and frees the new node, which is on none; the new node stands on the bottom h of the levels drawn for it, short of them only in front of a deleted node; order and nesting of all levels are kept |
| SeqPrioq.Queue.LinkAt | lib/linden/prioq.c:189-226 | splicing the node in on one level keeps every level sorted and each a sublist of the one below |
| SeqPrioq.Queue.Restructure | lib/linden/prioq.c:238-287 | terminates; every upper level keeps the head and exactly its nodes with an unmarked pointer, which makes the levels nested again; level 0 is untouched |
| SeqPrioq.Queue.HeadOrder | lib/linden/prioq.c:239-245 | the head's pointer at level i-1 leads to the same node as the one at level i or to one before it |
| SeqPrioq.Queue.DeleteMin | lib/linden/prioq.c:290-378 | on an empty queue returns 0 and changes nothing; otherwise removes the pair with the smallest key and returns its value; the nodes freed are the oldest deleted ones in the order of deletion, each freed once over all calls, all marked and on no level afterwards; at most max(1, max_offset) deleted nodes stay behind |
| SeqPrioq.Queue.FirstLive | lib/linden/prioq.c:313-340 | the node behind the deleted prefix holds the smallest pair, and is the tail only when there is none |
| SeqPrioq.Queue.MarkFirst | lib/linden/prioq.c:331-336 | marking the pointer to the first live node makes it the last deleted one and keeps all levels in order |
| SeqPrioq.Queue.Walk | lib/linden/prioq.c:310-336 | the walk ends at the pointer to the first live node, having counted one more than the deleted nodes on level 0 |
| SeqPrioq.Queue.Advance | lib/linden/prioq.c:355-373 | the head is swung to the last deleted node, every node before it is freed once in order, and none of them is left on any level |
| SeqPrioq.Queue.constructor | lib/linden/prioq.c:383-414 | pq_init builds an empty well-formed queue |
| Levels.NodeLevel | lib/linden/prioq.c:67-75 | the level is one more than the number of ones behind the lowest bit, and lies between 1 and 31 |
| Levels.RandLevel | lib/spraylist/skiplist.c:28-41 | the level is one more than the number of heads before the first tail, at least 1 and at most levelmax |
| EpochSafety.StepInv | lib/linden/gc/gc.c:336-570 | every step of entering, leaving, retiring, registering, checking, moving and advancing keeps the invariant, except a belated entry |
| EpochSafety.EntryExact | lib/linden/gc/gc.c:534-547 | the last step of gc_enter keeps the invariant if and only if it is prompt: the epoch read is still current, or has advanced once and no reclaimer under way has passed over the thread |
| EpochExact.PromptExactly | lib/linden/gc/gc.c:345-405 | when nobody else is about to enter belatedly, the last step of gc_enter is prompt if and only if every state that can follow it by prompt entries is safe |
| EpochExact.BelatedBreaks | lib/linden/gc/gc.c:345-405 | from every state of the invariant a belated entry can be continued to a state in which the thread is two epochs behind inside its critical section: the threads a reclaimer has still to check leave or enter again, and it moves the garbage and advances |
| EpochExact.Walk | lib/linden/gc/gc.c:356-359 | a reclaimer past a lagging thread can always reach the moves, everybody it has still to check getting out of its way |
| EpochExact.Moves | lib/linden/gc/gc.c:369-401 | nothing stops a reclaimer between its checks and the advance |
| EpochSafety.RunInv | lib/linden/gc/gc.c:336-570 | the invariant holds in every state of every run whose entries are prompt |
| EpochSafety.EpochSafe | lib/linden/gc/gc.c:336-405 | in every state of every prompt run no block on an allocation list may be held by a thread inside a critical section that it entered before the block was passed to gc_free, and every thread inside is at most one epoch behind |
| EpochSafety.MoveUndisturbed | lib/linden/gc/gc.c:361-382 | while garbage lists are moved no thread inside a critical section retires into the slot that is moved |
| EpochSafety.RegisterStep | lib/linden/gc/ptst.c:58-73 | a thread that registers while a reclaimer walks an older list does no harm |
| EpochSafety.RetireStep | lib/linden/gc/gc.c:456-478 | a block retired now can be held only by threads at most one epoch away |
| EpochSafety.AdvanceStep | lib/linden/gc/gc.c:399-404 | advancing the counter keeps everybody inside within one epoch |
| EpochSafety.OldEnough | lib/linden/gc/gc.c:361-382 | when all threads inside have seen the current epoch, nobody may hold a block of the slot two epochs back |
| EpochBelated.SafetyNeedsPromptness | lib/linden/gc/gc.c:534-541 | there is a run of two threads, from the initial state, in which a belated entry leaves a block on the allocation list that a thread inside a critical section may hold |
| EpochConserve.NothingLost | lib/linden/gc/gc.c:369-382 | in every state of every run, prompt or not, the blocks passed to gc_free so far are, as a multiset, those on the garbage lists of all threads and on the allocation lists |
| EpochConserve.GivenOnce | lib/linden/gc/gc.c:456-478 | no passing to gc_free is counted twice |
| EpochConserve.OnePlace | lib/linden/gc/gc.c:369-382 | so no block is on two lists or twice on one |
| EpochConserve.MoveLeavesNewest | lib/linden/gc/gc.c:373-382 | a list move hands a multiple of 100 blocks to the allocation list, the oldest, in order; of a nonempty list it leaves the newest 1 to 100, in order |
| EpochAlone.ReclaimAlone | lib/linden/gc/gc.c:336-405 | gc_reclaim run alone ends within a stated number of steps; if the lock is free and every listed thread is outside its critical sections or has seen the epoch, the epoch advances by one and of the garbage of three epochs ago of every listed thread and size exactly the newest chunk is left, and otherwise nothing changes |
| EpochAlone.EnterAlone | lib/linden/gc/gc.c:524-562 | gc_enter run alone comes back inside the critical section with the epoch it finds; it has reclaimed before exactly at the entry after a hundred in one epoch, if the attempt could succeed, and else changed only its own record |
| EpochAlone.EnterReturns | lib/linden/gc/gc.c:524-562 | so it does in every state of every run |
| ChunkRings.AddChunks | lib/linden/gc/gc.c:206-214 | the ring of chunks goes in behind the head as one ring; no chunk changes and the blocks add up |
| ChunkRings.AllocMoreChunks | lib/linden/gc/gc.c:184-203 | a well-formed ring of new chunks |
| ChunkRings.TakeChunks | lib/linden/gc/gc.c:223-244 | the first n chunks leave the list as a ring of their own, both rings well-formed, the blocks divided between them |
| ChunkRings.SplitNewest | lib/linden/gc/gc.c:375-380 | the newest chunk of a garbage ring becomes a ring alone, the others a ring ending at the old tail |
| GcBlocks.Gc.GetEmptyChunks | lib/linden/gc/gc.c:217-244 | the first n chunks of the list of empty ones if it has more than n, as a ring; otherwise the list is refilled as often as needed |
| GcBlocks.Gc.GetFilledChunks | lib/linden/gc/gc.c:247-277 | n full chunks holding each of n * 100 new blocks once |
| GcBlocks.Gc.GetAllocChunk | lib/linden/gc/gc.c:299-326 | if the allocation list has a chunk to spare, its first one leaves it, full, and nothing is taken from the heap; only otherwise is the list refilled; the assertion of line 324 holds and no block is lost or doubled |
| GcThreads.ChunkCache.Take | lib/linden/gc/gc.c:437-453 | an empty chunk on no ring, the cache refilled when its last chunk goes |
| GcThreads.GarbageList.Free | lib/linden/gc/gc.c:456-479 | the block is added to the garbage of the list, whose chunks except the newest stay full and whose tail pointer stays right |
| GcThreads.GarbageList.MoveOld | lib/linden/gc/gc.c:375-382 | exactly the newest chunk stays; the others, all full, go to the allocation list with all their blocks |
| GcThreads.AllocRing.Alloc | lib/linden/gc/gc.c:409-434 | hands out the last block of the thread's current chunk if it has one; otherwise the last block of the first chunk to spare on the allocation list, if there is one; the heap is asked only when both are empty, through all branches of the refill |
| GcSystem.OnePlace | lib/linden/gc/gc.c:409-521 | every block obtained from the heap is in exactly one place: on the lists of one thread, on the global list, or handed out |
| GcSystem.Alloc | lib/linden/gc/gc.c:409-434 | gc_alloc by any of the threads keeps that, handing one block out |
| GcSystem.Free | lib/linden/gc/gc.c:456-479 | gc_free keeps it, the block becoming garbage of the epoch the thread has seen |
| GcSystem.UnsafeFree | lib/linden/gc/gc.c:507-521 | gc_unsafe_free keeps it, the block becoming allocatable at once if the current chunk has room and garbage otherwise |
| GcSystem.SeeEpoch | lib/linden/gc/gc.c:538-541 | noting another epoch moves no block |
| GcSystem.Move | lib/linden/gc/gc.c:373-382 | moving one garbage list of one thread keeps it and leaves only the newest chunk |
| GcSystem.MoveAll | lib/linden/gc/gc.c:369-382 | the loop over all threads keeps it and leaves every thread the newest chunk of its list |
| GcSystem.Register | lib/linden/gc/gc.c:573-603 | a thread's new lists are well-formed, disjoint from all others, and lose no block |
| GcSystem.Start | lib/linden/gc/gc.c:606-657 | the collector starts with all blocks on its allocation list |
| HazardScan.ClassicScan | lib/libcds/src/hzp_gc.cpp:161-205 | keeps the guarded pointers in order and frees the others in order, overwriting the array while reading it |
| HazardScan.InplaceScan | lib/libcds/src/hzp_gc.cpp:207-265 | for every content: the classic result if some pointer is odd; otherwise the array is sorted, the first copy of each guarded pointer is kept with its tag removed, and the rest is freed |
| HazardScan.TagOne | lib/libcds/src/hzp_gc.cpp:234-248 | tagging what lower_bound finds, even in an array with tags already set, tags exactly the first copy of the guard |
| HazardScan.Compact | lib/libcds/src/hzp_gc.cpp:250-264 | moves the tagged pointers to the front with their original values and frees the others |
| HazardScan.LowerBound | lib/libcds/src/hzp_gc.cpp:240-241 | in an array in any order the search stops at an index whose element is not smaller, the one before it being smaller |
| HazardScan.BinarySearch | lib/libcds/src/hzp_gc.cpp:197-197 | decides membership in a sorted sequence |
| HazardScan.SortedGuards | lib/libcds/src/hzp_gc.cpp:165-183 | the sorted list holds exactly the non-null values read from the slots |
| HazardScan.Partition | lib/libcds/src/hzp_gc.cpp:196-204 | kept and freed pointers together are the retired ones |
| HazardScan.FilterCount | lib/libcds/src/hzp_gc.cpp:196-204 | the classic scan keeps every copy of a guarded pointer and no other |
| HazardScan.KeepCount | lib/libcds/src/hzp_gc.cpp:250-264 | the in-place scan keeps one copy of each guarded pointer that was retired and frees the rest |
| HazardScan.ScansAgree | lib/libcds/src/hzp_gc.cpp:161-265 | on even pointers both scans keep and free the same multisets if and only if no guarded pointer was retired twice |
| HazardScan.DistinctAgree | lib/libcds/src/hzp_gc.cpp:161-265 | on distinct even pointers the two scans agree |
| HazardScan.HeldNotFreed | lib/libcds/src/hzp_gc.cpp:169-248 | a pointer that one slot of a listed record holds throughout the reading of the slots is freed by neither scan if it was retired once, whatever is written to the other slots between the reads |
| HazardRuns.StepInv | lib/libcds/src/hzp_gc.cpp:106-316 | every step of attaching, detaching, retiring, scanning and helping can be taken and keeps the invariant: no push finds its array full |
| HazardRuns.NothingLost | lib/libcds/src/hzp_gc.cpp:267-316 | in every reachable state the pointers retired are those pending in some record plus those freed, none pending twice; a record with the free flag set holds none, and an unowned record is not full |
| HazardSlots.HeldNeverFreed | lib/libcds/src/hzp_gc.cpp:161-265 | over any run in which threads write their slots and scans read one slot a step, a pointer that one slot holds since before it was retired is not freed, whatever the other slots, threads and scans do: if it was retired meanwhile it is pending |
| HazardSlots.MachineStepInv | lib/libcds/src/hzp_gc.cpp:106-316 | every step of the machine with slots keeps its invariant and is a step of the machine without them or changes nothing there, so that nothing is lost and no push overflows here either |
| HazardSlots.ScanGoesOn | lib/libcds/src/hzp_gc.cpp:169-248 | a scan can always read on or divide its array |
| HazardRuns.NoOverflow | lib/libcds/src/hzp_gc.cpp:300-309 | no push of any reachable step overflows when the capacity is above records times slots |
| HazardRuns.RoomExactly | lib/libcds/src/hzp_gc.cpp:55-55 | a scan of a full array of distinct pointers is sure to make room if and only if the capacity is above the number of slots |
| HazardRuns.ScanSplits | lib/libcds/src/hzp_gc.cpp:161-265 | either scan divides the array, and keeps no more than there are guards when no pointer occurs twice |
| HazardRuns.GuardsBound | lib/libcds/src/hzp_gc.cpp:169-180 | the slots of n records hold at most n times slots different pointers |
| HazardAlone.HelpAlone | lib/libcds/src/hzp_gc.cpp:267-316 | HelpScan run alone from any state of the invariant returns within a stated number of steps, and then no record without an owner, or with a dead one, holds a retired pointer |
| HazardAlone.AttachAlone | lib/libcds/src/hzp_gc.cpp:106-147 | AllocateHPRec run alone takes the newest record that has no owner, with the pointers pending in it, and publishes a new one exactly if every record has an owner |
| IntAlgo.Ceil2Least | lib/libcds/cds/int_algo.h:56-59 | ceil2 is a power of two, not below n, and the least such |
| IntAlgo.Log2FloorBounds | lib/libcds/cds/int_algo.h:11-14 | n lies between the power of two of log2floor and the next one |
| IntAlgo.ShiftInRange | lib/libcds/cds/int_algo.h:17-21 | for 1 <= n < 2^31 the shift of an int in log2ceil stays below the sign bit and the result is at most 31 |
| IntAlgo.IsPower2Exactly | lib/libcds/cds/int_algo.h:62-65 | the bit trick accepts exactly the powers of two |
| IntAlgo.MaskIsMod | lib/libcds/src/ptb_gc.cpp:26-29 | masking with a power of two less one is the remainder |
| PtbLiberate.LiberateSet.IndexInRange | lib/libcds/src/ptb_gc.cpp:26-29 | bucket indexing stays inside the array |
| PassTheBuck.InsertInBucket | lib/libcds/src/ptb_gc.cpp:47-68 | the node joins the group of its pointer on the free link or becomes a new group at the front; the bucket keeps one group a pointer and covers exactly its nodes |
| PassTheBuck.EraseFromBucket | lib/libcds/src/ptb_gc.cpp:70-90 | the group taken out holds exactly the nodes with the pointer, linked on the free link; the rest of the bucket stays well-formed |
| PassTheBuck.FreeBucket | lib/libcds/src/ptb_gc.cpp:108-125 | every node of the bucket is freed once, and the free links thread them all, across groups, into one list |
| PtbLiberate.LiberateSet.Insert | lib/libcds/src/ptb_gc.cpp:47-68 | the set gains the node, all buckets stay well-formed |
| PtbLiberate.LiberateSet.Erase | lib/libcds/src/ptb_gc.cpp:70-90 | the nodes with the pointer, all of them and no others, leave the set as a group |
| PtbLiberate.LiberateSet.FreeAll | lib/libcds/src/ptb_gc.cpp:94-132 | the nodes left are each freed once and come back as one null-terminated list with its head and tail |
| PtbLiberate.RetiredBuffer.Push | lib/libcds/src/ptb_gc.cpp:222-222 | the node goes to the front of the buffer |
| PtbLiberate.Liberate | lib/libcds/src/ptb_gc.cpp:190-243 | a retired node returns to the buffer exactly if some guard was read to hold its pointer; all others are freed, once; the threshold doubles exactly when there were nodes and none was freed |
| FraserRuns.Linearizable | lib/spraylist/fraser.c:47-206 | every run is a run of the atomic set with the same calls and replies: an insertion adds an absent value, or is refused at a moment when the value is present, and every claim removes a present value and reports it |
| FraserRuns.ReachableShape | lib/spraylist/fraser.c:47-117 | in every reachable state the bottom level is strictly sorted, holds every unmarked linked node, no value has two unclaimed nodes, and only claimed nodes are marked |
| FraserRuns.MachineStep | lib/spraylist/fraser.c:47-206 | every step of every thread keeps the invariant and matches a step of the atomic set |
| FraserRuns.SingleWinner | lib/spraylist/pqueue.c:56-168 | over any interleaving of fraser_remove, naive_delete_min and spray_delete_min a node is won by at most one fetch-and-increment |
| FraserRuns.Conservation | lib/spraylist/pqueue.c:56-168 | the values inserted so far are, as a multiset, those claimed so far plus those present |
| FraserRuns.CrashOnly | lib/spraylist/pqueue.c:56-65 | the only access that can follow a null pointer is naive_delete_min's read behind the tail |
| FraserRuns.CrashPath | lib/spraylist/pqueue.c:56-65 | in any interleaving, the steps of a call that lead to that read are finding the tail already claimed at the fetch-and-increment, and reading behind it |
| FraserAlone.NaiveExactly | lib/spraylist/pqueue.c:50-84 | in any memory of the machine, a call of naive_delete_min run alone follows the null pointer if and only if no value is present and the tail has been claimed before; returns without a value, claiming the tail, if and only if no value is present and the tail has not been claimed; and otherwise claims the least value as its answer |
| FraserAlone.EmptyTwice | lib/spraylist/pqueue.c:50-70 | on a list without values, however it got empty, the first call returns without a value and the second follows the null pointer |
| FraserAlone.Settled | lib/spraylist/pqueue.c:73-84 | once a value is claimed, a call run alone never faults, keeps its answer and changes no value |
| FraserSpray.SprayAlone | lib/spraylist/pqueue.c:136-168 | from the node where its walk stops, a spray run alone misses and changes nothing if that is the head; otherwise it claims the first unclaimed node from there on and returns its value, and misses only if there is none before the tail |
| FraserSpray.MissedWhy | lib/spraylist/pqueue.c:136-168 | in any interleaving, when a spray misses there was a moment of the call at which it stood at the head or the tail, or the node it gave up on was claimed |
| FraserSearch.SearchAlone | lib/spraylist/fraser.c:47-83 | a search run alone ends, in at most four steps more than there are nodes, at the two adjacent neighbours of the value, with no mark, flag or value changed |
| FraserSearch.ContainsAlone | lib/spraylist/fraser.c:86-99 | fraser_find run alone answers whether the value is present |
| FraserSearch.RemoveAlone | lib/spraylist/fraser.c:120-164 | fraser_remove run alone returns and removes the value if it is present, and otherwise misses and changes no value |
| FraserSearch.RemoveSuccAlone | lib/spraylist/fraser.c:120-164 | fraser_remove with remove_succ, run alone, removes the value of the first node not below the given one whose pointer is not marked, unless that node is the tail or claimed, and exactly then misses |
| FraserSearch.SuccIsLeast | lib/spraylist/fraser.c:120-164 | the value of that node is not above any value present that is not below the given one |
| FraserSearch.SuccHidden | lib/spraylist/fraser.c:120-164 | a memory in which a larger value is present and that node is claimed, so that a call run alone misses |
| FraserSearch.InsertAlone | lib/spraylist/fraser.c:167-206 | fraser_insert run alone adds an absent value and refuses a present one, and changes no other value |
| FraserSearch.NaiveReturns | lib/spraylist/pqueue.c:50-84 | while any value is present naive_delete_min run alone returns the least one and removes exactly it |
| FraserEffects.LinkEffect | lib/spraylist/fraser.c:194-206 | the successful compare-and-swap puts the node between its neighbours, its value having been absent |
| FraserEffects.SnipEffect | lib/spraylist/fraser.c:75-78 | the search unlinks only marked nodes and changes no value |
| FraserEffects.BumpEffect | lib/spraylist/fraser.c:146-146 | incrementing the flag of an unclaimed node removes exactly its value, of a claimed one nothing |
| FraserEffects.MarkEffect | lib/spraylist/fraser.c:101-117 | marking the pointer of a claimed node changes no value |
| FraserMinimum.SmallerWasAbsent | lib/spraylist/pqueue.c:50-84 | when naive_delete_min returns a value, every smaller value was absent at some moment during the call; when it returns without one or follows the null pointer, every value was |
| FraserHindsight.MissedWasAbsent | lib/spraylist/fraser.c:86-164 | when fraser_remove or fraser_find answers 0 for a value, the value was absent at some moment during the call |
| SeqSkipList.SkipList.Contains | lib/spraylist/intset.c:34-46 | decides membership in the set the list stands for |
| SeqSkipList.SkipList.Add | lib/spraylist/intset.c:94-119 | succeeds exactly for an absent value, adds it, and changes exactly the levels below the one drawn; every level stays sorted and a sublist of the one below |
| SeqSkipList.SkipList.Remove | lib/spraylist/intset.c:207-226 | succeeds exactly for a present value and removes it from every level; the node given back to the allocator is the one that held it, and is on no level |
| SeqSkipList.SkipList.Search | lib/spraylist/intset.c:99-108 | the neighbours of the value on every level |
| SeqSkipList.SkipList.FoundAt | lib/spraylist/intset.c:109-110 | a value is on a level exactly when the search stops in front of it there |
| SeqSkipList.SkipList.constructor | lib/spraylist/skiplist.c:124-144 | an empty list with all levels from head to tail |
| SsAlloc.Ring.Alloc | lib/spraylist/ssalloc.c:92-119 | hands out the oldest block of the ring if more than two are in it and a new one otherwise; it overlaps no live block; the warning comes exactly when a new block ends beyond the arena |
| SsAlloc.Ring.Free | lib/spraylist/ssalloc.c:133-143 | the block enters the ring, or the ring forgets all 256 blocks when the 8-bit count wraps |
| SsAlloc.Ring.InArena | lib/spraylist/ssalloc.c:108-113 | while the bump pointer is inside the arena every live block is |
| SsAlloc.NeverTwice | lib/spraylist/ssalloc.c:92-143 | over any run the next block handed out is none of the live ones, and every block is live, in the ring, or forgotten, and only one of these |
| SsAlloc.FifoExactly | lib/spraylist/ssalloc.c:92-143 | blocks come out of the ring in the order in which they were freed if and only if no free found 255 blocks in it |
| SsAlloc.LostForGood | lib/spraylist/ssalloc.c:139-141 | a forgotten block is never handed out again |
| SsAlloc.Forgets | lib/spraylist/ssalloc.c:139-141 | after 256 allocations and 256 frees the ring is empty and the next allocation makes a new block |
| SsAlloc.FirstReuse | lib/spraylist/ssalloc.c:92-143 | after n allocations and n frees of these blocks, n up to 255, the next allocation hands out the first block again if n is at least 3 and a new one otherwise |

## Left out

- Memory barriers and weaker memory orders: all machines are sequentially consistent.
- Progress under contention: returns within bounds are shown for calls that run alone, from any reachable state on. The rank distribution of the spray and all probabilities.
- `pq_destroy`, `sequential_length`, the wrappers and benchmark drivers, statistics counters, STM branches, failing allocation, and the copies under `lib/spraylist/gc` and `lib/spraylist/linden.c`.
- `hrc_gc.cpp`, the libcds containers and atomics: they rest on code that is not part of this model.
- The queue machine takes node addresses as never reused, which the epoch collector is there to justify, and leaves the calls of `critical_enter` and `critical_exit` around it to the epoch model.
- In the queue machine the null pointers of the tail, which `pq_init` leaves uninitialised, are taken as null; the assertions of lines 281 and 370 and the read beside them are one step; `alloc_node` may draw any level from 1 to 32.
- Keys: the concurrent queue is for every nonzero 32-bit key, the sequential one for keys below the stored sentinel.
- The epoch machine models one list of threads and any number of block sizes but no hooks and no yielding; a garbage list is a sequence that is moved in one step, the ring surgery being in the chunk model.
- The chunk model has one block size; each compare-and-swap loop is one indivisible step, so ABA is not examined; hook lists and the destruction of the collector are missing.
- EpochSafety.StepInv: a belated entry is excluded, because it is not safe (EpochExact.PromptExactly).
- EpochSafety.RunInv: prompt runs only, for the same reason.
- EpochSafety.EpochSafe: prompt runs only; EpochExact.BelatedBreaks and EpochBelated.SafetyNeedsPromptness say why that is needed.
- EpochSafety.MoveUndisturbed: prompt runs only.
- HazardRuns.NothingLost: thread identifiers are never reused, and a thread ends only between two calls; deleter functions are not modelled; a whole scan is one step with arbitrary slot readings, which HazardSlots takes apart into reads, the division of the array remaining one step.
- HazardScan.InplaceScan: `std::sort` is taken as a function that sorts; pointers are natural numbers.
- PtbLiberate.Liberate: pushes of other threads to the buffer while it runs are not modelled, and the guards are given as the sequence of values read from them.
- FraserRuns.Linearizable: upper levels only choose where a traversal enters the bottom level, so linking them (lines 208-233) is not modelled; the clean-up test of `pqueue.c` line 81 is an arbitrary choice; the counter `deleted` does not wrap; AtomicSet lets a null answer of delete-min, spray or remove-successor come at any time and delete-min and remove-successor take any value; FraserMinimum and FraserSpray.MissedWhy say for any interleaving what justifies the answers of the first two, FraserSearch and FraserSpray what all of them answer alone.
- FraserHindsight.MissedWasAbsent: not for remove-successor, which has no value of its own and may miss with values present (FraserSearch.SuccHidden).
- FraserSearch.SearchAlone: for searches whose entries to the bottom level are unmarked nodes, as one that enters at a marked node starts again; so for the operations that search.
- SsAlloc.Ring.Alloc: one allocator number, one block size, and an offset that does not overflow its type.
- `ssalloc_align_alloc` and `ssalloc_offset`, which only shift the start of the arena.
