# A verified model of the memory manager core of MMTk

This project models five parts of `mmtk-core` in Dafny and proves what they are for.

1. **The packed free list.** One table of 32-bit words holds a tiling of the units into blocks, with sizes
   at both ends of each block, and circular lists of the free blocks, with flags and links sharing words.
   `PackedWord` ties the bit operations to a record of two flags and a field. `FreeListModel` is the heap
   that the table stands for: blocks, lists and fences. `FreeListEncoding` says when a table encodes a heap
   (stale bits inside blocks are allowed) and proves it for each primitive; `FreeLists` holds the methods of
   the trait, `RawMemoryFreeLists` the list that grows, `FreeListTheorems` what whole runs keep, and
   `FreeListMisuse` what happens outside the preconditions.
2. **Lisp-2 compaction.** `Compaction` is the theory of layouts, forwarding pointers and moving;
   `MarkCompactSpaces` holds the two passes of the space and the linear scan.
3. **Workers, buckets and the monitor.** `WorkBuckets` and `WorkerGoals` hold the code that the last parked
   worker executes. `SchedulerProtocol` is a state machine in which every step is one atomic action of a
   worker or a mutator; `SchedulerInvariants`, `SchedulerSteps` and `SchedulerLastPark` prove that every step
   keeps the invariants, `SchedulerTheorems` draws the conclusions for all reachable states, and
   `SchedulerProgress` and `SchedulerTermination` show that the protocol never deadlocks, and when it makes progress.
   `SchedulerConservation` shows that no packet is lost or made up, and `SchedulerRuns` holds runs that show where a
   condition is needed.
4. **Forwarding and tracing.** `ObjectForwarding` is the state machine of the compare-and-exchange protocol,
   with the packed forwarding word. `Tracing` proves that processing slots computes an isomorphic image of
   the reachable graph, and `ProcessEdges` holds the packets that do it, for the mark and the copy trace.
   `ConcurrentTracing` runs the copy trace and the forwarding protocol together, access by access.
5. **Two tables over many collections.** `LargeObjects`, `LargeObjectSpaces` and `LargeObjectRaces` treat the
   large object space with its treadmill; `Finalizers` the table of finalizable objects.

Code that updates state is modelled by classes and methods whose contracts equate the new state with a
function of the old one; what these functions mean is proved in the lemmas. Atomic operations are
sequentially consistent steps.

Where the code does not do what one would expect of it, the model follows the code:

- `new` of the raw list checks the limit in pages, but memory is mapped in whole blocks, so growth can reach
  the clip in `raise_high_water`, which then computes a negative extent and fails. `ClipIsReachable` gives such
  a limit, `NeverClipped` says exactly which limits are safe, and `GrowFreelist` when growth fails.
- `new` of the raw list accepts up to about 2^30 units, but the byte offset of an entry is computed in 32 bits
  and turns negative at entry 2^29. `EntryBelowBase` gives such a size and `EveryEntryAddressed` the exact bound,
  which the class carries in `Configured`.
- Growth of a raw list by 0 units carves for ever, unless the list is empty (`GrowthByNothingIsEndless`,
  `CarvingEnds`).
- `alloc` accepts sizes of 0 and less, and any table it then leaves is wrong (`AllocNeedsPositiveSize`). A block
  that is first or last on the list of another head cannot be taken (`TakeNeedsOwnList`).
- Growth of a raw list by a number of units that the grain does not divide leaves the first units of the new
  range in use; `GrowthMeaning` states this as an equivalence.
- Comments call the first stop-the-world stage `Prepare`; in the code it is whichever stage comes after
  `Unconstrained`, and the model uses the position.
- A worker that parks last while all designated work waits for workers that are notified already wakes itself,
  finds nothing and parks again; nothing but the operating system's scheduling ends this.
  `OvertakingGoesInCircles` shows the cycle in a reachable state, and `NextStepIsProgress` proves that every other
  step makes progress and this one does not.
- `on_all_workers_exited` does not wait for the mutex and panics if a mutator holds it.
  `LastSurrenderCanPanic` is a run that does so, `PanicsOnlyAtLastSurrender` says exactly when it happens, and
  `ForkRuleAvoidsPanic` that a virtual machine that follows the documented rule is safe.
- `respawn` does not look whether all workers have surrendered; if not, one of them panics later
  (`EarlyRespawnPanics`).
- A packed forwarding word at offsets 2 to 55 does not give back the pointer (`WorkingShifts`), and at offset 63
  not the bits, although the code accepts them; `PackedRoundTrip` states the exact condition.

## What is taken for granted

- Compaction: an object reference is the start of the object, size and alignment do not change when it is
  copied, and every region can hold any single object. Between the two passes every slot of a live object is
  mapped once. Addresses count units of the minimum alignment.
- Scheduling: while a collection runs, only workers add to open buckets; disabled buckets hold nothing; packets
  add packets, sentinels and designated work only to their own or later stages; designated work and sentinels
  belong to stages behind the first one; `StopMutators` is added once by `ScheduleCollection` and is, with it,
  all that enters the unconstrained bucket; when the mutators have stopped, none is in the middle of a request.
  The virtual machine respawns the workers after all of them have exited, as `prepare_to_fork` asks it to.
- Tracing: a slot belongs to one object or is one root, and the virtual machine enumerates the fields of an
  object completely. `copy` returns a fresh object with the same fields. In `Tracing` and `ProcessEdges` a slot
  is processed as one step; for the copy trace `ConcurrentTracing` takes this apart, and the mark trace has one
  atomic access to an object and stores nothing.
- Finalizers: whether an object is live does not change during a scan, as keeping a live object alive marks
  nothing new.

## Model

| member | source | states |
|---|---|---|
| `PackedWord.AndCut` | src/util/freelist.rs:3-15 | `&` acts on the two parts of a word independently, wherever it is cut |
| `PackedWord.OrCut` | src/util/freelist.rs:3-15 | the same for the bitwise or |
| `PackedWord.TestFlags` | src/util/freelist.rs:258-280 | masking with FREE/MULTI or COALESC tells exactly whether that flag is set, whatever the 30-bit field holds |
| `PackedWord.ReadLow` | src/util/freelist.rs:173-179 | masking with SIZE/NEXT/PREV gives the 30-bit field, whatever the flags are |
| `PackedWord.SetFlags` | src/util/freelist.rs:267-270 | setting one flag changes neither the other flag nor the field |
| `PackedWord.ClearFlags` | src/util/freelist.rs:262-265 | clearing one flag changes neither the other flag nor the field |
| `PackedWord.WriteLink` | src/util/freelist.rs:225-248 | writing a link through the mask keeps both flags and stores the link, negative head numbers included |
| `PackedWord.WriteSizeTag` | src/util/freelist.rs:181-190 | the size tag of a block of several units is the size with the MULTI flag |
| `PackedWord.LinkDecodes` | src/util/freelist.rs:216-241 | the comparison with MAX_UNITS separates units from heads for every link that can be stored, and recovers units exactly |
| `PackedWord.IndexFits` | src/util/freelist.rs:282-300 | with MAX_HEADS and MAX_UNITS respected, entry indices stay inside an `i32` |
| `FreeListEncoding.LinkFirstRing` | src/util/freelist.rs:153-162 | linking a unit at the head inserts it at the front of the circular list: next and prev stay inverse to each other |
| `FreeListEncoding.UnlinkRing` | src/util/freelist.rs:332-337 | unlinking a unit leaves the ring of the others, in order |
| `FreeListEncoding.SetFreeEncodes` | src/util/freelist.rs:196-214 | set_free moves the flag at both ends of a block and keeps the rest of the encoding |
| `FreeListEncoding.AddToFreeEncodes` | src/util/freelist.rs:153-162 | after add_to_free the table encodes the heap with the block free and first on the list |
| `FreeListEncoding.UnlinkEncodes` | src/util/freelist.rs:332-337 | after unlinking, the table encodes the heap with the block off its list; stale links inside are never read |
| `FreeListEncoding.SplitEncodes` | src/util/freelist.rs:313-319 | rewriting both size tags makes the table encode the split block |
| `FreeListEncoding.JoinEncodes` | src/util/freelist.rs:321-330 | one new size tag makes the table encode the joined blocks, although the tags inside are still there |
| `FreeListEncoding.SetFenceEncodes` | src/util/freelist.rs:258-270 | setting or clearing the coalescing bit changes only the fence of that unit |
| `FreeListEncoding.LeftIsRead` | src/util/freelist.rs:250-256 | get_left finds the start of the left neighbour |
| `FreeListEncoding.RightIsRead` | src/util/freelist.rs:164-166 | get_right finds the start of the right neighbour, and its flags are read right |
| `FreeListInit.FreshEncodes` | src/util/freelist.rs:129-137 | a zeroed table with the head and bottom sentinels encodes the heap of single used units with empty lists |
| `FreeListInit.AllCarved` | src/util/freelist.rs:138-151 | carving the remainder first and then grain by grain gives exactly the blocks and the list order of the initial heap |
| `FreeListInit.ExtendEncodes` | src/util/raw_memory_freelist.rs:158-174 | growth turns the old bottom sentinel into an ordinary unit and keeps every block, list and fence |
| `FreeLists.FreeList.New` | src/util/int_array_freelist.rs:31-43 | the new table encodes a heap that is all free, in blocks of the grain and one remainder, listed in address order |
| `FreeLists.FreeList.FromParent` | src/util/int_array_freelist.rs:44-72 | a child list shares its parent's table and uses its own head |
| `FreeLists.FreeList.InitializeHeap` | src/util/freelist.rs:129-151 | initialize_heap builds that heap from a zeroed table |
| `FreeLists.FreeList.AddToFree` | src/util/freelist.rs:153-162 | the block becomes the first of the list; the table stays a faithful encoding |
| `FreeLists.FreeList.RemoveFromFree` | src/util/freelist.rs:332-337 | the block leaves its list; the table stays a faithful encoding |
| `FreeLists.FreeList.Split` | src/util/freelist.rs:313-319 | the block is cut in two and the second part becomes the first of the list |
| `FreeLists.FreeList.AllocFirstFit` | src/util/freelist.rs:27-53 | FAILURE exactly when no block on this list fits, and then nothing changes; otherwise the earliest fitting block of the list, cut to the exact size; the walk terminates |
| `FreeLists.FreeList.AllocBestFit` | src/util/freelist.rs:55-77 | FAILURE exactly when no block on this list fits; otherwise a smallest fitting block, and the earliest of the list with that size |
| `FreeListMisuse.AllocNeedsPositiveSize` | src/util/freelist.rs:302-319 | for every size the code accepts: the writes of an allocation leave a table that encodes some heap with all other blocks as they were, exactly if the size is positive |
| `FreeListMisuse.TakeNeedsOwnList` | src/util/freelist.rs:332-337 | taking a block through a head on whose list it is not leaves such a table exactly if the block is neither first nor last on its own list |
| `FreeLists.FreeList.AllocFromUnit` | src/util/freelist.rs:87-95 | succeeds exactly when the block at the unit is free and large enough, and then allocates there |
| `FreeLists.FreeList.Coalesce` | src/util/freelist.rs:321-330 | the free neighbours leave their list and one block remains |
| `FreeLists.FreeList.Free` | src/util/freelist.rs:98-123 | the block and every free neighbour that no fence keeps apart become one free block; the returned size is that of the block, or of the merged block if asked for |
| `FreeLists.FreeList.SetUncoalescable` | src/util/freelist.rs:267-270 | adds the fence of the unit and nothing else |
| `FreeLists.FreeList.ClearUncoalescable` | src/util/freelist.rs:262-265 | removes the fence of the unit and nothing else |
| `FreeListTheorems.AllocMeaning` | src/util/freelist.rs:302-319 | allocation makes a used block of exactly the requested size out of the front of the chosen block, leaves the rest free at the front of the list, and changes no other block or list |
| `FreeListTheorems.FreeMeaning` | src/util/freelist.rs:98-123 | release replaces the block and its mergeable neighbours by one free block, and changes no other block or list |
| `FreeListTheorems.FreeKeepsFences` | src/util/freelist.rs:98-123 | release never merges a block that starts behind a fence into its left neighbour |
| `FreeListTheorems.FreeKeepsOrder` | src/util/freelist.rs:98-123 | the blocks that stay on the list of the head stay in their order |
| `FreeListTheorems.CoveredOnce` | src/util/freelist.rs:98-337 | in every valid heap each unit lies in exactly one block |
| `FreeListTheorems.AllocConserves` | src/util/freelist.rs:302-319 | exactly the returned units leave this head's free units; the other heads' free units stay |
| `FreeListTheorems.FreeConserves` | src/util/freelist.rs:98-123 | exactly the released units join this head's free units; the other heads' free units stay |
| `FreeListTheorems.AllocKeepsMerged` | src/util/freelist.rs:302-319 | allocation never leaves two free neighbours without a fence between them |
| `FreeListTheorems.FreeKeepsMerged` | src/util/freelist.rs:98-123 | release never leaves two free neighbours without a fence between them |
| `FreeListTheorems.ZonedMayFree` | src/util/freelist.rs:98-123 | with fences between the zones of different heads, every used block may be released through its head |
| `FreeListTheorems.AllocLeavesZone` | src/util/freelist.rs:216-270 | allocation through one head leaves the lists and blocks of other heads alone |
| `FreeListTheorems.FreeLeavesZone` | src/util/freelist.rs:216-270 | release through one head leaves the lists and blocks of other heads alone |
| `FreeListTheorems.RunKeeps` | src/util/freelist.rs:27-123 | every run of alloc, alloc_from_unit and free keeps a valid heap with the same units and fences, never merges over a fence, and stays fully merged |
| `FreeListTheorems.RunLeavesZone` | src/util/int_array_freelist.rs:44-72 | every run through other heads leaves the list and the blocks of a head as they were |
| `FreeListTheorems.NewListMerged` | src/util/freelist.rs:129-151 | the heap that initialize_heap makes is fully merged exactly if the grain is at least the number of units |
| `FreeListTheorems.NewListStaysMerged` | src/util/freelist.rs:27-151 | a list made with such a grain is fully merged after every run of alloc, alloc_from_unit and free |
| `RawMemoryFreeLists.GrowthReachesCapacity` | src/util/raw_memory_freelist.rs:118-136 | the computed number of blocks always satisfies the capacity assertion, and is the least that does |
| `RawMemoryFreeLists.SizeIsLeast` | src/util/raw_memory_freelist.rs:86-89 | size_in_pages is the least number of pages that hold the entries of all units, heads and the sentinel |
| `RawMemoryFreeLists.NeverClipped` | src/util/raw_memory_freelist.rs:188-199 | growth up to the maximum never reaches the clip at the limit exactly if the limit covers whole blocks |
| `RawMemoryFreeLists.ClipIsReachable` | src/util/raw_memory_freelist.rs:91-105 | a limit that `new` accepts and that growth runs past: 17 pages in blocks of 16 |
| `RawMemoryFreeLists.OffsetIs` | src/util/raw_memory_freelist.rs:38-53 | the 32-bit byte offset of an entry is right exactly below index 2^29; from there on it is negative, and from 2^30 on it is that of an earlier entry |
| `RawMemoryFreeLists.EveryEntryAddressed` | src/util/raw_memory_freelist.rs:38-53 | get_entry and set_entry address every entry of a table right exactly if its last index is below 2^29 |
| `RawMemoryFreeLists.EntryBelowBase` | src/util/raw_memory_freelist.rs:91-105 | a size that `new` accepts and at which the address of the last unit lies below the base: 2^28 units with one head |
| `RawMemoryFreeLists.RawMemoryFreeList.EntriesInMemory` | src/util/raw_memory_freelist.rs:38-53 | in a list of addressable size every entry of every unit lies between the base and the high-water mark, as the assertion demands |
| `RawMemoryFreeLists.CarvingEnds` | src/util/raw_memory_freelist.rs:177-185 | the carving loop ends exactly if units are added and the grain is positive |
| `RawMemoryFreeLists.GrowthByNothingIsEndless` | src/util/raw_memory_freelist.rs:177-185 | growth by 0 units leaves the carving cursor where it is, for ever |
| `RawMemoryFreeLists.RawMemoryFreeList.RaiseHighWater` | src/util/raw_memory_freelist.rs:188-199 | maps the requested blocks as zeroed entries exactly if they stay within the limit; otherwise it fails and nothing changes |
| `RawMemoryFreeLists.RawMemoryFreeList.GrowListByBlocks` | src/util/raw_memory_freelist.rs:138-186 | fails without a change exactly if the blocks pass the limit; otherwise the new range is opened behind the old units and carved into free grains, and the table stays a faithful encoding |
| `RawMemoryFreeLists.RawMemoryFreeList.GrowFreelist` | src/util/raw_memory_freelist.rs:124-136 | refuses exactly when the maximum would be exceeded, fails exactly when the blocks needed would pass the limit, changes nothing in both cases, and otherwise grows by the requested units |
| `RawMemoryFreeLists.RawMemoryFreeList.Alloc` | src/util/raw_memory_freelist.rs:55-74 | FAILURE exactly when nothing is mapped or no block fits; otherwise first fit |
| `RawMemoryFreeLists.GrowthMeaning` | src/util/raw_memory_freelist.rs:138-186 | growth, the first included, keeps every existing block and other list and puts the new blocks in front; all new units are free exactly if the grain divides the number added |
| `Compaction.AlignUpLeast` | src/util/alloc/allocator.rs:46-84 | the aligned address is the least one that is not below the given one and has the alignment and offset |
| `Compaction.FitsInOwnRegion` | src/policy/markcompactspace.rs:375-385 | in the region an object comes from there is always room for it, so the target region is never behind the source |
| `Compaction.SlidIsLeast` | src/policy/markcompactspace.rs:359-403 | no layout that keeps the order of the objects puts any of them before the slot that was calculated for it |
| `Compaction.StoreForwards` | src/policy/markcompactspace.rs:205-214 | writing a header word leaves every other object, header and forwarding pointer intact |
| `Compaction.SlotClearOfLater` | src/policy/markcompactspace.rs:405-438 | a slot never overlaps the body or header word of a live object that has not been moved yet |
| `Compaction.MoveStep` | src/policy/markcompactspace.rs:414-430 | moving one object keeps the moved ones arrived and the others intact |
| `Compaction.BitsStep` | src/policy/markcompactspace.rs:411-428 | clearing and setting VO bits while scanning hides no object that is still to be visited and shows none twice |
| `Compaction.UpdateKeepsForwarding` | src/policy/markcompactspace.rs:260-278 | mapping every live slot once keeps what compaction reads |
| `Compaction.GraphPreserved` | src/policy/markcompactspace.rs:359-438 | after updating and compacting every live object has its contents at its new address, references lead to the new addresses of their targets, and different objects have different places |
| `Compaction.CycleMeaning` | src/policy/markcompactspace.rs:359-438 | the same from the memory before forwarding pointers were calculated, and the space meets the preconditions of the next cycle |
| `MarkCompactSpaces.MarkCompactSpace.CalculateForwardingPointer` | src/policy/markcompactspace.rs:359-403 | every marked object, and no other, gets a forwarding pointer in its header word, to the first aligned place that fits behind the slot before it, in the same region or else in the next; slots are disjoint, in order, and never behind their objects |
| `MarkCompactSpaces.MarkCompactSpace.ClearHeaderForwardingPointer` | src/policy/markcompactspace.rs:216-221 | the header word is zeroed, and no other cell changes |
| `MarkCompactSpaces.MarkCompactSpace.Compact` | src/policy/markcompactspace.rs:405-438 | every live object arrives at its forwarding pointer with its original contents, the VO bits are exactly those of the moved objects, and all header words are zero again |
| `MarkCompactSpaces.ObjectIterator.Next` | src/util/linear_scan.rs:54-71 | finds the next object by its VO bit, skips none, and steps over it by its size |
| `WorkBuckets.ResumeIsRestart` | src/scheduler/scheduler.rs:452-513 | resuming behind the stages opened so far opens what a scan from the first stage would open |
| `WorkBuckets.FoundWasClosed` | src/scheduler/scheduler.rs:452-513 | the stage that is found was closed and enabled before, and is open now |
| `WorkBuckets.OpenWidens` | src/scheduler/scheduler.rs:452-513 | opening only activates buckets: open buckets stay as they are, and packets plus sentinels are conserved |
| `WorkBuckets.OpenKeepsOrder` | src/scheduler/scheduler.rs:65-86 | a stage is opened only when all earlier stages are open or disabled, and finished |
| `WorkBuckets.NothingMeansAll` | src/scheduler/scheduler.rs:452-513 | if nothing is found, every stage is open or disabled, and finished |
| `WorkBuckets.DoneFindsNothing` | src/scheduler/scheduler.rs:452-513 | if nothing is left to do, nothing is found |
| `WorkBuckets.SentinelsKeepOrder` | src/scheduler/scheduler.rs:434-444 | turning sentinels into packets keeps the order of the stages |
| `WorkBuckets.BucketScheduler.UpdateBuckets` | src/scheduler/scheduler.rs:452-513 | opens exactly what a scan from the first stage would open, and remembers the stage it found |
| `WorkBuckets.BucketScheduler.AddSentinels` | src/scheduler/scheduler.rs:434-450 | in every open bucket the sentinel becomes one more packet, and nothing else changes; tells whether there was one |
| `WorkBuckets.BucketScheduler.DeactivateAll` | src/scheduler/scheduler.rs:515-523 | all stop-the-world buckets are closed and enabled, and the progress is reset |
| `WorkBuckets.BucketScheduler.FindMoreWork` | src/scheduler/scheduler.rs:739-759 | designated work, then sentinels, then the next stage |
| `WorkerGoals.GoalTable.SetRequest` | src/scheduler/worker_goals.rs:41-48 | the goal is requested, and the result tells whether it was not before |
| `WorkerGoals.GoalTable.PollNextGoal` | src/scheduler/worker_goals.rs:52-63 | the requested goal of the highest priority becomes current |
| `WorkerGoals.LastParkedScheduler.RespondToRequests` | src/scheduler/scheduler.rs:700-736 | Gc before StopForFork; without requests the worker parks too |
| `WorkerGoals.LastParkedScheduler.Run` | src/scheduler/scheduler.rs:652-698 | on_last_parked does what the protocol's last-parked step does |
| `SchedulerTheorems.StepKeeps` | src/scheduler/scheduler.rs:577-759 | every step of workers and mutators keeps all invariants of the protocol |
| `SchedulerTheorems.RunKeeps` | src/scheduler/worker_monitor.rs:131-245 | every run of any number of workers, in any interleaving, keeps them |
| `SchedulerTheorems.LastParkedFindsNothing` | src/scheduler/worker_monitor.rs:183-225 | in every reachable state in which the last worker parks, all open buckets, local queues and the unconstrained bucket are empty and nobody executes a packet |
| `SchedulerTheorems.StagesRunInOrder` | src/scheduler/scheduler.rs:947-978 | in every reachable state, while a packet of a stage runs, no packet or sentinel of an earlier stage is waiting, owned or running, even if the second stage was opened early |
| `SchedulerTheorems.CollectionEndsWhenDone` | src/scheduler/scheduler.rs:677-690 | the last parked worker ends the collection exactly if no packet, sentinel or designated packet of any stage is left; then all buckets are closed and the mutators resumed |
| `SchedulerTheorems.FoundIff` | src/scheduler/scheduler.rs:452-513 | in a drained state update_buckets finds a stage exactly if some stage has something left to do |
| `SchedulerConservation.StepConserves` | src/scheduler/work_bucket.rs:238-296 | every step keeps the number of packets of every stage, counted over bucket, sentinel, local and designated queues and executing workers, but for the one it adds and the one that is finished |
| `SchedulerConservation.CollectionFinishesWhatWasAdded` | src/scheduler/scheduler.rs:652-759 | in every run, when a collection ends, as many packets of every stage have been finished as were ever added |
| `SchedulerConservation.LocalStays` | src/scheduler/work_bucket.rs:238-248 | a local queue grows by what its worker adds and by the whole batch it takes, and shrinks by one for every packet its worker or a thief takes |
| `SchedulerConservation.DesignatedStays` | src/scheduler/worker.rs:222-240 | designated work comes only from packets that designate it, and leaves only to the worker it is for |
| `SchedulerTheorems.LastParkWakes` | src/scheduler/worker_monitor.rs:160-182 | the last parked worker parks too if no goal is left, wakes itself alone if it starts a collection, and everybody if it found work or the workers are to exit |
| `SchedulerTheorems.FlagMeansOneRequest` | src/plan/gc_requester.rs:24-41 | request_flag is up exactly while a requester, a pending request or a collection before its pause exists, and never two of them |
| `SchedulerTheorems.PanicsOnlyAtLastSurrender` | src/scheduler/worker_monitor.rs:247-251 | in every reachable state a step panics exactly if it is the last surrender and a mutator that requests a collection holds the mutex; all other panics and assertions are unreachable |
| `SchedulerRuns.LastSurrenderCanPanic` | src/scheduler/scheduler.rs:201-211 | a run that reaches that panic |
| `SchedulerTheorems.ForkRuleAvoidsPanic` | src/mmtk.rs:280-301 | no panic in any run in which nobody asks for a collection between prepare_to_fork and after_fork |
| `SchedulerTheorems.RequestIsServed` | src/scheduler/worker_monitor.rs:104-110 | a pending Gc request stays pending until its collection is scheduled |
| `SchedulerTheorems.ForkIsServed` | src/scheduler/worker_goals.rs:41-70 | a request to stop for a fork stays pending until it is the goal, whatever else is requested |
| `SchedulerTheorems.NeverStalls` | src/scheduler/worker_monitor.rs:204-207 | with a goal or a request, some worker is up or notified, or all have exited |
| `SchedulerProgress.NeverDeadlocks` | src/scheduler/scheduler.rs:577-650 | in every reachable state with a goal or a request, unless all workers have exited, some worker that is up or notified can take its next step without a panic, or the mutator that holds the mutex can release it |
| `SchedulerTermination.NextStepIsProgress` | src/scheduler/scheduler.rs:620-759 | once packets add nothing more, the next step of a worker that is up makes a measure over the whole state smaller or ends the collection, exactly unless it parks last while all designated work waits for workers that are notified already |
| `SchedulerTermination.EveryCollectionCanEnd` | src/scheduler/scheduler.rs:652-759 | from every reachable state of a collection some run of the workers alone, after a mutator inside make_request has released the mutex, ends the collection |
| `SchedulerRuns.OvertakingGoesInCircles` | src/scheduler/scheduler.rs:739-743 | without that condition progress fails: a reachable state from which a last parker that overtakes a notified worker with designated work returns to the same state |
| `SchedulerTheorems.ParkedIsCounted` | src/scheduler/worker_monitor.rs:59-88 | the parked count is the number of workers inside the parked section |
| `SchedulerTheorems.StopEndsWhenAllExited` | src/scheduler/worker_monitor.rs:229-251 | the goal to stop is cleared by a last surrender that does not panic and by nothing else, when every worker has been surrendered once |
| `SchedulerRuns.StopCanEnd` | src/scheduler/worker.rs:465-481 | from every reachable state in which the workers are to stop, and no mutator holds the mutex, some run of the workers alone lets all of them surrender and clears the goal |
| `SchedulerTheorems.RespawnGetsEverybody` | src/scheduler/worker.rs:393-404 | a respawn after everybody has surrendered gets back exactly the original workers, none of them counted as parked, and lets all of them run |
| `SchedulerRuns.EarlyRespawnPanics` | src/scheduler/worker.rs:393-404 | a respawn at any earlier moment of the stop leaves a worker that can only panic when it surrenders |
| `SchedulerLastPark.NoLostWork` | src/scheduler/worker_monitor.rs:183-225 | coverage implies that nothing is left when everybody is parked |
| `SchedulerLastPark.LastParkKeeps` | src/scheduler/scheduler.rs:652-759 | the callback of the last parked worker keeps all invariants in each of its outcomes |
| `SchedulerSteps.NothingInFlight` | src/scheduler/scheduler.rs:947-978 | when the first stage is opened, or the second one early, no packet is in flight |
| `SchedulerSteps.PollKeepsCoverage` | src/scheduler/scheduler.rs:577-650 | the non-atomic sweep over the queues never leaves an available packet without a worker that will still look at it |
| `SchedulerSteps.PauseKeepsEarly` | src/scheduler/scheduler.rs:958-970 | after the unlocked read of the parked count the first stage is finished and stays so |
| `SchedulerRuns.PauseAlone` | src/scheduler/scheduler.rs:947-978 | notify_mutators_paused without interference opens the first stage, opens the second exactly if the first is empty and all others are parked, and notifies everybody |
| `ObjectForwarding.PackedRoundTrip` | src/util/object_forwarding.rs:86-92 | pointer and bits read back from the packed word for every 8-aligned address below 2^56, exactly if the shifted bits lie outside the pointer mask and inside the word |
| `ObjectForwarding.WorkingShifts` | src/util/object_forwarding.rs:243-260 | the offsets outside the pointer mask are 0, 1 and 56 to 63 |
| `ObjectForwarding.StepKeeps` | src/util/object_forwarding.rs:23-148 | every atomic step of any worker keeps the invariant of the protocol |
| `ObjectForwarding.StepMovesForward` | src/util/object_forwarding.rs:8-10 | one step moves the bits of an object by at most one state, forward only, and never adds a second copy |
| `ObjectForwarding.CopiedOnce` | src/policy/copyspace.rs:252-277 | every object is copied at most once, and at most one worker owns it |
| `ObjectForwarding.TraceReturns` | src/util/object_forwarding.rs:23-76 | a worker that no other owner keeps waiting returns, by its own accesses, with the one copy of the object; it has made the copy itself exactly if nobody had begun to or it had begun itself |
| `ObjectForwarding.EveryTraceCanReturn` | src/util/object_forwarding.rs:23-76 | from every reachable state every worker inside a trace can be brought to return with the one copy |
| `ObjectForwarding.AccessLowers` | src/util/object_forwarding.rs:23-149 | every access brings its worker closer to returning, a lost exchange included, except a spin that finds the object still being copied, which changes nothing |
| `ObjectForwarding.OthersNotHarder` | src/util/object_forwarding.rs:23-149 | no access of one worker takes another one further from returning |
| `ObjectForwarding.SameResult` | src/policy/copyspace.rs:252-277 | all traces of an object, at whatever times, return the same copy and never the object itself |
| `ObjectForwarding.ForwardedIsComplete` | src/util/object_forwarding.rs:105-148 | FORWARDED implies that the pointer to the copy and the extra metadata are set, for both ways of storing |
| `ObjectForwarding.SpinnerIsServed` | src/util/object_forwarding.rs:52-76 | a spinning worker always waits for a worker that owns the object and can take a step |
| `Tracing.SlotKeeps` | src/scheduler/gc_work.rs:1235-1244 | processing a slot visits its object at most once, enqueues the fields of a new one, redirects the slot, and keeps the invariant of the trace |
| `Tracing.TraceComplete` | src/scheduler/gc_work.rs:1246-1268 | with nothing pending, exactly the reachable objects were visited, each was enqueued once, and the traced graph is isomorphic to the original one |
| `Tracing.AnyOrder` | src/scheduler/gc_work.rs:1235-1244 | in whatever order slots are processed, each as one step, an exhausted trace is complete |
| `ConcurrentTracing.StepKeeps` | src/policy/copyspace.rs:227-281 | every load and store of a slot, every access to the metadata of an object, every copy, enqueueing and scan, by any worker at any moment, keeps the invariant of the trace |
| `ConcurrentTracing.ConcurrentTraceComplete` | src/policy/copyspace.rs:227-281 | however these accesses interleave, a finished copy trace has produced the isomorphic image of the reachable graph and enqueued every copy exactly once |
| `ConcurrentTracing.TraceGoesOn` | src/policy/copyspace.rs:227-281 | in every state that a run reaches the trace is finished or some step can be taken that leaves less to do |
| `ConcurrentTracing.StepLowers` | src/policy/copyspace.rs:227-281 | every step of any worker, except a spin on an object that is being copied, lowers a measure over the whole state |
| `ConcurrentTracing.TraceCanFinish` | src/policy/copyspace.rs:227-281 | from every state that a run reaches, with at least one worker, some run finishes the trace with the isomorphic graph |
| `Tracing.DoneIsIdle` | src/scheduler/gc_work.rs:1257-1259 | processing a redirected slot again changes nothing and enqueues nothing |
| `ProcessEdges.TracePacket.Flush` | src/scheduler/gc_work.rs:1207-1213 | what was pushed becomes a packet; nothing pending is lost |
| `ProcessEdges.TracePacket.Enqueue` | src/scheduler/gc_work.rs:1219-1228 | exactly the fields that hold a reference become pending, once each; the buffer is flushed exactly when it is full |
| `Tracing.PushedAre` | src/scheduler/gc_work.rs:1219-1228 | the slots pushed for an object are its fields that hold a reference |
| `ProcessEdges.TracePacket.TraceObject` | src/policy/markcompactspace.rs:244-258 | returns the object or its copy, and enqueues it on the first visit only |
| `ProcessEdges.TracePacket.ProcessSlot` | src/scheduler/gc_work.rs:1235-1244 | loads, traces, and stores the new reference |
| `ProcessEdges.TracePacket.ProcessAgain` | src/scheduler/gc_work.rs:1257-1259 | the repeated pass over the slots of a packet changes neither the heap nor the queues |
| `ProcessEdges.TracePacket.ProcessWeak` | src/scheduler/gc_work.rs:1246-1251 | the first pass over weak roots of Immix redirects the slots of objects that are evacuated, does nothing if there are none, and leaves every other slot redirected or pending |
| `ProcessEdges.TracePacket.ProcessSlots` | src/scheduler/gc_work.rs:1246-1268 | all slots of the packet, weak roots included, and all it pushes and does not flush are processed; terminates |
| `ProcessEdges.TracePacket.RunPackets` | src/scheduler/gc_work.rs:758-777 | running packets in any order until none is left terminates with the isomorphic graph, each object enqueued once |
| `LargeObjects.TracedKeeps` | src/policy/largeobjectspace.rs:408-469 | trace_object moves exactly the candidates, from the set that the nursery bit names, and a second trace does nothing |
| `LargeObjects.CollectionReleasesUntraced` | src/policy/largeobjectspace.rs:365-392 | a collection releases exactly the candidates that were not traced, each once; the others survive marked, and from-space and collect-nursery end empty |
| `LargeObjects.CollectionDecides` | src/policy/largeobjectspace.rs:365-492 | over any run through one collection an object survives exactly if it was traced, or is old and the collection is one of the nursery; otherwise it is released once |
| `LargeObjects.NurseryGarbageIsReleased` | src/policy/largeobjectspace.rs:97-149 | an object allocated into the nursery and traced by nobody is released by the next collection, of either kind |
| `LargeObjects.PreparedKeeps` | src/util/treadmill.rs:96-103 | after the flip exactly the new objects, and in a full collection the old ones too, are candidates, with bits that tell them from marked ones; no object is lost |
| `LargeObjects.TracedAllIsSet` | src/policy/largeobjectspace.rs:408-469 | tracing objects one after the other, in any order and however often, gives the space of tracing their set |
| `LargeObjects.StepKeeps` | src/policy/largeobjectspace.rs:97-149 | every operation keeps the agreement of bits and sets |
| `LargeObjects.RunKeeps` | src/policy/largeobjectspace.rs:365-492 | over any sequence of allocations and collections the four sets are disjoint, bits agree with them, and every object is either in a set or was released once |
| `LargeObjectSpaces.TreadMill.Drain` | src/util/treadmill.rs:47-61 | the set is emptied and each of its objects returned once |
| `LargeObjectSpaces.TreadMill.Copy` | src/util/treadmill.rs:63-82 | the object leaves its set and joins the to-space |
| `LargeObjectSpaces.LargeObjectSpace.InitializeObjectMetadata` | src/policy/largeobjectspace.rs:97-149 | an allocated object joins the alloc nursery with the mark state and the nursery bit, another one the to-space with the mark state; its other bits, all other objects and the other sets stay |
| `LargeObjectSpaces.LargeObjectSpace.Prepare` | src/policy/largeobjectspace.rs:365-379 | a space between collections enters one: exactly the new objects, and in a full collection the old ones too, become candidates |
| `LargeObjectSpaces.LargeObjectSpace.TestAndMark` | src/policy/largeobjectspace.rs:519-543 | succeeds exactly if the masked bits differ from the mark state; then the two bits become the mark state, and the other bits and objects stay |
| `LargeObjectSpaces.LargeObjectSpace.TraceObject` | src/policy/largeobjectspace.rs:408-469 | enqueues exactly the candidates and never violates the assertions of the treadmill |
| `LargeObjectSpaces.LargeObjectSpace.SweepLargePages` | src/policy/largeobjectspace.rs:471-492 | every object of the set is released once |
| `LargeObjectSpaces.LargeObjectSpace.Release` | src/policy/largeobjectspace.rs:381-392 | sweeps the nursery and, in a full collection, the from-space; a collecting space rests again |
| `LargeObjectRaces.WinnerIsRight` | src/policy/largeobjectspace.rs:425-436 | the worker whose test_and_mark succeeds has read the nursery bit right, and nobody else has touched the object |
| `LargeObjectRaces.StepKeeps` | src/policy/largeobjectspace.rs:408-469 | every step of any tracer keeps the invariant |
| `LargeObjectRaces.RaceIsATrace` | src/policy/largeobjectspace.rs:408-469 | however workers race, at the end the space is what tracing the same objects one after the other makes of it, and exactly the traced candidates are enqueued, once each |
| `LargeObjectRaces.TracedSurvives` | src/policy/largeobjectspace.rs:408-469 | every object that some worker traced is in the to-space at the end and is no candidate any more |
| `LargeObjectRaces.RaceCanEnd` | src/policy/largeobjectspace.rs:408-469 | from every state all workers can return from trace_object without a further call |
| `LargeObjectRaces.RacingCollection` | src/policy/largeobjectspace.rs:365-492 | a collection with racing workers releases exactly the candidates that nobody traced, once each, and the space rests again |
| `Finalizers.ScanConserves` | src/util/finalizable_processor.rs:45-81 | a scan neither loses nor duplicates a registration |
| `Finalizers.ScanMeaning` | src/util/finalizable_processor.rs:45-81 | entry by entry: behind the start index those of live objects are candidates and all others ready, each with its finalizer, in order, with the new address of its object; those before it are untouched |
| `Finalizers.NewEntryIsUnscanned` | src/util/finalizable_processor.rs:37-39 | a registration stays behind the nursery index, and so within the reach of both kinds of scan, until a scan has looked at it |
| `Finalizers.NurseryScanIsFullScan` | src/util/finalizable_processor.rs:45-81 | a nursery scan gives the tables of a full scan exactly if all earlier candidates are live and unmoved |
| `Finalizers.DrainConserves` | src/util/finalizable_processor.rs:112-137 | draining splits a table without loss |
| `Finalizers.DrainSeparates` | src/util/finalizable_processor.rs:112-137 | exactly the entries for the object are taken out |
| `Finalizers.RunKeeps` | src/util/finalizable_processor.rs:37-137 | over every sequence of operations candidates, ready and handed-out registrations add up to what was added, and nursery_index stays inside the table |
| `Finalizers.FinalizableProcessor.Scan` | src/util/finalizable_processor.rs:45-81 | every entry from the start index on is kept as a candidate if its object is live and becomes ready otherwise, in order and with the new address of its object; earlier entries stay, and the index ends behind all candidates |
| `Finalizers.FinalizableProcessor.ForwardFinalizable` | src/util/finalizable_processor.rs:90-95 | every ready entry keeps its place and finalizer and refers to where its object is now |
| `Finalizers.FinalizableProcessor.ForwardCandidate` | src/util/finalizable_processor.rs:83-88 | every candidate keeps its place and finalizer and refers to where its object is now |
| `Finalizers.FinalizableProcessor.GetReadyObject` | src/util/finalizable_processor.rs:97-99 | nothing exactly if nothing is ready; otherwise one entry moves from the table to the caller, all counts of finalizers conserved |
| `Finalizers.ReadyConserves` | src/util/finalizable_processor.rs:97-99 | what is left and what is handed out add up to what was ready |
| `Finalizers.FinalizableProcessor.GetAllFinalizers` | src/util/finalizable_processor.rs:101-110 | everything is handed out and the tables are empty |
| `Finalizers.FinalizableProcessor.GetFinalizersFor` | src/util/finalizable_processor.rs:112-137 | the entries for the object are handed out in order, the others stay in order |
| `Finalizers.DrainFilter` | src/util/finalizable_processor.rs:117-132 | the vector is split into the entries of the object and all others, both in order |

## Left out

- FreeLists.FreeList.AllocFirstFit: requires a size of at least 1; `AllocNeedsPositiveSize` proves that for all other sizes the table is no longer an encoding.
- FreeLists.FreeList.AllocBestFit: requires a size of at least 1, for the same reason.
- FreeLists.FreeList.AllocFromUnit: requires a size of at least 1, the unit to start a block, because the bits inside a block are stale, and a free block to be on this list (`TakeNeedsOwnList`).
- FreeLists.FreeList.Free: requires a used block whose mergeable neighbours are on this list; `ZonedMayFree` shows that fences between the heads ensure it, `TakeNeedsOwnList` what happens otherwise.
- RawMemoryFreeLists.RawMemoryFreeList.GrowFreelist: requires more than 0 units unless the list is and stays empty, because the carving loop ends exactly then (`CarvingEnds`); the sum of units is not cut to 32 bits.
- RawMemoryFreeLists.RawMemoryFreeList.constructor: requires an addressable size (`EveryEntryAddressed`), and the limit that the code asserts.
- MarkCompactSpaces.MarkCompactSpace.Compact: returns the end of the last object; that the page resource resets its cursor to it is not modelled.
- LargeObjectSpaces.LargeObjectSpace.TraceObject: without log bits, whose sweep is marked unreachable in the code, and without reference counting.
- ProcessEdges.TracePacket.ProcessSlots: the forwarding trace of mark-compact is not modelled; the repeated pass over a packet would forward slots twice there. For Immix only the order of passes is modelled, not which objects it moves.
- SchedulerTermination.NextStepIsProgress: for packets that add nothing more, steals that need no retry, and states in which no mutator holds the mutex.
- SchedulerTheorems.RespawnGetsEverybody: respawning is a step only after all workers have surrendered; `EarlyRespawnPanics` treats the others.
- `resize_freelist` of the array-backed list: it makes a new table and calls `initialize_heap`.
- Memory mapping and protection, raw loads and stores, statistics, logging, options and timers.
- Concurrent packets, postponed queues and the reference-counting plan: they let packets enter open buckets outside stop-the-world pauses.
- The monitor, the worker loop and the worker group are modelled on values, as steps; what the classes of the source look like in memory is not captured.
- `try_forward_object` and policies that clear forwarding bits during a trace.
- The virtual machine's callbacks: object model, scanning, stopping and resuming mutators.
- Weak memory orderings.
