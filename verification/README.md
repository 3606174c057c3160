# Magenta kernel: verified models of its core

Each module models one core of the kernel and proves what that core is for, over every input, every run or every
reachable state.

- **x86-64 page tables** (`PageTree`, `X86Pages`, `X86Unmap`, `X86Map`, `X86Need`, `X86Exact`, `X86Mmu`). The tables of
  4-level paging (section 4.5 of the Intel SDM, Vol. 3A) lie in a memory of frames that class `AddressSpace` changes in
  place, with the mapping cursor carried through the recursion. `Trans` reads the tree as a partial map from pages to
  frame, permissions and cache type. Map is map union or a no-op, and on a free range it succeeds exactly when there are
  as many free pages as tables missing; protect changes flags only, splitting a large page changes nothing, unmap
  removes exactly the pages its cursor visits, no table is shared, leaked or freed while it holds an entry. The round
  trips of map, unmap and protect with query are proved for every canonical byte address.
- **arm64 page tables** (`Arm64`). Map with the rollbacks of all its recursion levels, unmap with the blocks it takes
  along, query, and the round trip of map and query byte by byte. For every table, every request and every amount of
  memory it is proved whether map succeeds. The tables are those of the VMSAv8-64 chapter of the ARM Architecture
  Reference Manual, 4 KiB granule.
- **Scheduler and wait queues** (`Sched`, `SchedOps`, `SchedEffects`, `SchedKernel`). Everything under the thread lock as
  atomic steps; `SchedOps.RunKeeps` is the invariant of every state of every run, class `Kernel` the code that takes
  those steps. `SchedEffects` describes on its own, field by field and place by place, what each routine does and who
  runs next, and proves of every step that it does exactly that.
- **Mutex, condition variable, semaphore, event** (`Waiters`, `Mutex`, `Semaphore`, `Event`, `SchedFrame`,
  `SyncKernel`). Transition systems in which every thread has a place in the code, so that a waiter that has timed out
  but not yet run again is a state of its own; in all of them nobody is overtaken in the queue. Classes over `Kernel`
  whose routines take exactly those steps there and in the scheduler, and which no other step of the scheduler disturbs.
- **Cross-processor execution** (`MpSync`), **timers** (`Timer`), **HDA codec enumeration and rings** (`Ring`,
  `HdaCodec`, `HdaRings`, `HdaSystem`, `HdaDriver`; Intel High Definition Audio Specification, sections 4.4.1.4, 7.1.2,
  7.3.3.3 and 7.3.4.11), **boot hooks** (`Init`), **ports** (`Port`) and **bitmaps** (`Bitmap`).

Five promises do not hold of the code as it stands. Each has a lemma with a concrete tree, run or request in which it
fails, and one that says exactly when it holds.

- `arch_mmu_unmap` on x86 steps over a hole by a whole entry even from the middle of it, and so can leave a mapped page
  of the range mapped: `X86Exact.UnmapMissesPage`, `X86Exact.ExactIff`.
- A thread can be queued for ever on a mutex that nobody owns, when a finite timeout is in play: `Mutex.StrandingRun`,
  `Mutex.StuckForever`, `Mutex.StrandsIff`, `Mutex.NeverStranded`.
- A thread can be queued on a semaphore beside a free token, and from then on no post is owed to it:
  `Semaphore.StarvingRun`, `Semaphore.StarvesIff`, `Semaphore.NeverStarved`, `Semaphore.PassedOver`,
  `Semaphore.ForgottenForever`.
- On arm64 byte counts pass through an `int`, and a count with bit 31 set is taken for an error. `Arm64.ArchMmuMap` is
  all or nothing for every table and every amount of memory exactly on the requests that are `Safe`: neither the whole
  range nor, under a top level of 512 GiB entries, its first or last piece has such a count. A request that is accepted
  succeeds if and only if it is safe, its range is free, no table stands where a block belongs and the free pages are no
  fewer than the tables it takes; one that only fails to be safe leaves pages mapped (`Arm64.SafeIffChunks`,
  `Arm64.SmallIsSafe`, `Arm64.UnsafeExamples`).
- The responses of the HDA codec need not fit into their ring: the limit on commands in flight counts only what is still
  in the command ring. One codec under this driver can overrun the ring if and only if the ring holds fewer responses
  than the longest list of commands of its enumeration is long (`HdaSystem.OverrunsIff`). A ring of 256 entries is
  always enough (`HdaSystem.LargeRingFits`), one of 16 is too short for a widget with 32 connections in the long form
  (`HdaSystem.SmallRingOverruns`).

`arch_mmu_map`, `arch_mmu_unmap` and `arch_mmu_protect` on x86 check that the start of a range lies in the address
space, not its end; the contracts cover ranges that run on beyond it, up to the end of the top table.

The comment on `wait_queue_wake_all` says that it returns zero or one; the code returns the number of threads woken, and
so does the model.

## Model

| member | source | states |
|---|---|---|
| `PageTree.WalkThrough` | kernel/arch/x86/mmu.cpp:535-585 | the hardware walk of any page passes through every live table that covers it, at every level |
| `PageTree.WalkFrame` | kernel/arch/x86/mmu.cpp:535-585 | what the walk finds for a page depends on no other entries than those that stand for it |
| `PageTree.SetEntryWalk` | kernel/arch/x86/mmu.cpp:397-427 | writing or clearing one page entry keeps the tree well formed and changes the walk of the pages of that entry only |
| `PageTree.LinkWalk` | kernel/arch/x86/mmu.cpp:445-494 | hanging a fresh table under an entry keeps the tree well formed and gives its pages the walk of the new entries |
| `PageTree.UnlinkWalk` | kernel/arch/x86/mmu.cpp:662-666 | taking out a table without entries keeps the tree well formed and changes no walk but to a hole one level up |
| `X86Pages.FlagsRoundTrip` | kernel/arch/x86/mmu.cpp:120-240 | flags written at any level read back as they were, uncached device memory as uncached |
| `X86Pages.LeafMeans` | kernel/arch/x86/mmu.cpp:115-180 | what a page entry says to the processor, bit by bit: write, user, global, no-execute, memory-type selector 0, 3 or 7, and the page-size bit above the last level; splitting gives the very entries that mapping the pieces would have written |
| `X86Pages.SplitKeepsMeaning` | kernel/arch/x86/mmu.cpp:461-474 | moving the PAT bit and dropping PS where the pieces are 4 KiB pages keeps permissions and cache type |
| `X86Pages.SplitKeepsTrans` | kernel/arch/x86/mmu.cpp:445-494 | splitting a large page changes the translation of no page |
| `X86Pages.RemovedCompose` | kernel/arch/x86/mmu.cpp:588-675 | two stretches of the unmap cursor make one: together they remove what the whole trajectory visits |
| `X86Pages.RemovedUnlink` | kernel/arch/x86/mmu.cpp:662-666 | freeing a table that has become empty removes no translation |
| `X86Unmap.FullyCleared` | kernel/arch/x86/mmu.cpp:647-667 | a lower table whose whole range was asked for holds no entry when it is freed |
| `X86Unmap.WalkUniform` | kernel/arch/x86/mmu.cpp:606-618 | all pages of the slot where a walk ends are found by the same entry |
| `X86Map.AddedCompose` | kernel/arch/x86/mmu.cpp:737-796 | mapping two adjacent ranges in turn is mapping their union |
| `X86Map.AddConflict` | kernel/arch/x86/mmu.cpp:737-743 | a page found mapped behind the cursor was mapped before the call |
| `X86Map.RollbackRestores` | kernel/arch/x86/mmu.cpp:784-796 | unmapping exactly what a failed map had put in place restores the translation of every page |
| `X86Map.UpdatedLeaf` | kernel/arch/x86/mmu.cpp:839-901 | rewriting a page entry with new flags keeps the frame of every page of it and leaves all other pages alone |
| `X86Need.PlaceUnique` | kernel/arch/x86/mmu.cpp:588-797 | no two tables stand for the same pages |
| `X86Need.TableNeeded` | kernel/arch/x86/mmu.cpp:737-771 | a table about to be made is one the request needs: the range reaches into its region, it is not there, and no large page will do |
| `X86Need.MadeLarge` | kernel/arch/x86/mmu.cpp:744-758 | a slot of the range found mapped by one large page was whole, aligned in both address spaces and without a table |
| `X86Need.AllMade` | kernel/arch/x86/mmu.cpp:718-797 | a finished map has made every table the request needs |
| `X86Need.CountMade` | kernel/arch/x86/mmu.cpp:718-797 | a map in progress has made no more tables than needed, and fewer while one is missing |
| `X86Need.CountAll` | kernel/arch/x86/mmu.cpp:718-797 | a finished map has made exactly as many tables as were needed |
| `X86Exact.VisitsOrJumps` | kernel/arch/x86/mmu.cpp:600-675 | every mapped page of the range is either visited by the unmap cursor or jumped over, never both |
| `X86Exact.ExactIff` | kernel/arch/x86/mmu.cpp:606-618 | unmap removes every mapped page of the range if and only if it jumps over none |
| `X86Exact.BoundaryNoJump` | kernel/arch/x86/mmu.cpp:606-618 | a cursor that starts on a mapped page or at the start of a hole jumps over nothing |
| `X86Exact.BoundaryExact` | kernel/arch/x86/mmu.cpp:606-618 | such a start, and so every fully mapped range, makes the unmap exact |
| `X86Exact.UnmapMissesPage` | kernel/arch/x86/mmu.cpp:606-618 | in a concrete tree the unmap of pages 1 to 1024 leaves the mapped page 512 in place |
| `X86Mmu.VaddrIndex` | kernel/arch/x86/mmu.cpp:243-262 | the index bits of an address are its index in every table that covers it |
| `X86Mmu.CanonicalBits` | kernel/arch/x86/mmu.cpp:69-89 | an address is canonical exactly when bits 47 to 63 are all equal |
| `X86Mmu.VpnIndex` | kernel/arch/x86/mmu.cpp:243-262 | the four indices of an address are its bits 39-47, 30-38, 21-29 and 12-20 |
| `X86Mmu.VpnUnique` | kernel/arch/x86/mmu.cpp:243-262 | two canonical addresses have the same page number if and only if they lie in the same 4 KiB page |
| `X86Mmu.RangeBytes` | kernel/arch/x86/mmu.cpp:953-979 | a canonical address lies in a range of one half if and only if its page number lies in the page range |
| `X86Mmu.MapThenQuery` | kernel/arch/x86/mmu.cpp:953-979 | after a map every byte of the range queries as the byte equally far into the physical range with the flags asked for, and every other canonical address as before |
| `X86Mmu.UnmapThenQuery` | kernel/arch/x86/mmu.cpp:931-951 | after an unmap from a boundary every byte of the range queries as not found, and every other canonical address as before |
| `X86Mmu.ProtectThenQuery` | kernel/arch/x86/mmu.cpp:981-1002 | after a protect every byte of the range queries at its physical address with the new flags, and every other canonical address as before |
| `X86Mmu.AddressSpace.constructor` | kernel/arch/x86/mmu.cpp:1039-1081 | a space with an empty top table is valid and translates nothing |
| `X86Mmu.AddressSpace.Split` | kernel/arch/x86/mmu.cpp:445-494 | success replaces the large page by a table of its pieces with every translation kept; failure only without memory, and nothing changes |
| `X86Mmu.AddressSpace.SplitTable` | kernel/arch/x86/mmu.cpp:476-488 | the loop fills the table with the pieces in address order |
| `X86Mmu.AddressSpace.UnmapLeaf` | kernel/arch/x86/mmu.cpp:416-427 | one page entry is cleared, the cursor moves to the end of its slot |
| `X86Mmu.AddressSpace.FreeTable` | kernel/arch/x86/mmu.cpp:662-666 | the table leaves the tree and its page returns to the pool; the set of all table pages is the same |
| `X86Mmu.AddressSpace.IsEmpty` | kernel/arch/x86/mmu.cpp:651-660 | true exactly when no entry of the lower table is present |
| `X86Mmu.AddressSpace.RemoveEntry` | kernel/arch/x86/mmu.cpp:603-672 | one turn of the loop removes what the cursor visits in the entry; cursor plus size is constant; it leaves no table it has emptied |
| `X86Mmu.AddressSpace.RemoveBelow` | kernel/arch/x86/mmu.cpp:639-668 | the same for the part that descends and perhaps frees the lower table |
| `X86Mmu.AddressSpace.RemoveMapping` | kernel/arch/x86/mmu.cpp:588-675 | the whole recursive call removes what the cursor visits in the table |
| `X86Mmu.AddressSpace.RemoveMappingPT` | kernel/arch/x86/mmu.cpp:677-700 | the same for a leaf table |
| `X86Mmu.AddressSpace.MapLeaf` | kernel/arch/x86/mmu.cpp:397-414 | one absent entry becomes a page and maps exactly its slot |
| `X86Mmu.AddressSpace.NewTable` | kernel/arch/x86/mmu.cpp:760-771 | an absent entry gets a fresh empty table and no translation changes; failure only without memory |
| `X86Mmu.AddressSpace.EnsureTable` | kernel/arch/x86/mmu.cpp:760-771 | an entry without a page refers to a table afterwards, unless memory is out and a needed table is missing; no translation changes |
| `X86Mmu.AddressSpace.AddToEntry` | kernel/arch/x86/mmu.cpp:737-782 | one turn maps a stretch of the range or reports a page that was mapped, or no memory, with the cursor where it stopped; it makes only tables the request needs |
| `X86Mmu.AddressSpace.AddUnder` | kernel/arch/x86/mmu.cpp:773-782 | the same for the part that descends into the table below |
| `X86Mmu.AddressSpace.AddMapping` | kernel/arch/x86/mmu.cpp:718-797 | the recursive call maps exactly the pages up to the returned cursor and makes only tables the request needs; out of memory only with the pool empty and one of them missing |
| `X86Mmu.AddressSpace.AddMappingPT` | kernel/arch/x86/mmu.cpp:799-825 | the same for a leaf table |
| `X86Mmu.AddressSpace.AddMappingTop` | kernel/arch/x86/mmu.cpp:784-796 | with the rollback at the top level every failure leaves each translation as it was; out of memory only with fewer free pages than tables missing, and success uses up exactly those |
| `X86Mmu.AddressSpace.Rollback` | kernel/arch/x86/mmu.cpp:784-796 | unmapping what was mapped so far restores every translation |
| `X86Mmu.AddressSpace.MapPages` | kernel/arch/x86/mmu.cpp:963-978 | the same in pages, with success on a free range exactly when memory is enough |
| `X86Mmu.AddressSpace.ProtectLeaf` | kernel/arch/x86/mmu.cpp:397-414 | one page entry keeps its frame and gets the flags |
| `X86Mmu.AddressSpace.UpdateInEntry` | kernel/arch/x86/mmu.cpp:853-898 | one turn updates a stretch of the range, splitting where it must; no split and no failure where every page or large page of the range is whole |
| `X86Mmu.AddressSpace.UpdateUnder` | kernel/arch/x86/mmu.cpp:884-895 | the same for the part that descends into the table below |
| `X86Mmu.AddressSpace.UpdateMapping` | kernel/arch/x86/mmu.cpp:839-901 | the recursive call updates exactly the pages up to the returned cursor |
| `X86Mmu.AddressSpace.UpdateMappingPT` | kernel/arch/x86/mmu.cpp:903-929 | the same for a leaf table |
| `X86Mmu.AddressSpace.Map` | kernel/arch/x86/mmu.cpp:953-979 | success maps page i of the range to frame i with the flags, all pages of it free before, every other page unchanged; any failure changes no translation; on a free range success if and only if the free pages are no fewer than the tables missing; nothing to map is success; which errors arise when |
| `X86Mmu.AddressSpace.Unmap` | kernel/arch/x86/mmu.cpp:931-951 | exactly the visited pages lose their translation; from a boundary exactly the range does; no emptied table stays |
| `X86Mmu.AddressSpace.Protect` | kernel/arch/x86/mmu.cpp:981-1002 | pages before the reached one keep their frame and get the flags, all others are untouched; on not-found the reached page was the first unmapped one; out of memory only with an empty pool; a range that is mapped throughout and cuts no large page succeeds without memory; invalid exactly for the addresses named bit by bit |
| `X86Mmu.AddressSpace.GetMapping` | kernel/arch/x86/mmu.cpp:535-585 | the recursive descent returns what the walk finds |
| `X86Mmu.AddressSpace.Query` | kernel/arch/x86/mmu.cpp:1141-1191 | invalid exactly outside the space; otherwise the status, physical address with its byte offset, and flags are those of the translation of the byte |
| `X86Mmu.UnmapTrans` | kernel/arch/x86/mmu.cpp:588-675 | after the loop a page is unmapped if the cursor visited it and keeps its translation otherwise |
| `Arm64.FlagsRoundTrip` | kernel/arch/arm64/mmu.c:39-84 | flags written read back as they were, write-combining memory as uncached; attributes the kernel writes survive the way back |
| `Arm64.IsClear` | kernel/arch/arm64/mmu.c:283-300 | true exactly when every entry is invalid |
| `Arm64.UnmapSlot` | kernel/arch/arm64/mmu.c:318-357 | one round unmaps the pages and blocks of the entry that the chunk reaches and nothing else; a whole entry ends invalid; table pages given back are counted, and no table it empties stays |
| `Arm64.UnmapPt` | kernel/arch/arm64/mmu.c:302-363 | exactly the pages and blocks that the range reaches are unmapped, a block cut by the range as a whole; table pages in use and freed add up; at every level an empty table that is there afterwards was there, empty, before |
| `Arm64.GoneWhole` | kernel/arch/arm64/mmu.c:302-363 | on a range that cuts no block that is exactly the range |
| `Arm64.InsideCut` | kernel/arch/arm64/mmu.c:329-352 | inside the range every page that was mapped is unmapped |
| `Arm64.OutsideCut` | kernel/arch/arm64/mmu.c:329-352 | outside a range that cuts no block no page is |
| `Arm64.GetPageTable` | kernel/arch/arm64/mmu.c:243-281 | a table is found or made unless a block is in the way or memory is out; no translation changes |
| `Arm64.FreeBelow` | kernel/arch/arm64/mmu.c:270-279 | what is free in an entry is free in the table below, and an entry that is free holds no block |
| `Arm64.WayMore` | kernel/arch/arm64/mmu.c:405-412 | no table is in the way of a range if none is in the way of its pieces, entry by entry |
| `Arm64.NeedNext` | kernel/arch/arm64/mmu.c:392-429 | the tables a range needs are those of the chunk at hand and those of the rest |
| `Arm64.MappedNotBlank` | kernel/arch/arm64/mmu.c:392-429 | a table in which something has been mapped is not empty |
| `Arm64.MapSlot` | kernel/arch/arm64/mmu.c:392-429 | one round maps the chunk, all of it free before, or nothing; it counts as failed if the byte count of the chunk comes back negative; on a free entry without a table where a block belongs it maps exactly when memory is enough, uses up exactly the tables needed, and fills an aligned whole entry with one block |
| `Arm64.MapPt` | kernel/arch/arm64/mmu.c:365-446 | completed: the whole range was free and is mapped in order, with exactly the tables needed and no empty one left; failed: the rollbacks of all levels restore every translation, save a chunk whose byte count came back negative; in any table, only such a chunk, a mapped page, a table where a block belongs, or too little memory makes it fail |
| `Arm64.RolledBack` | kernel/arch/arm64/mmu.c:441-445 | the failed round and the rollback of the rounds before it leave only what the failed round itself has left |
| `Arm64.ReturnedNegativeIff` | kernel/arch/arm64/mmu.c:413-439 | a byte count returned as int is negative exactly when its bit 31 is set, never below 2 GiB |
| `Arm64.ArchMmuMap` | kernel/arch/arm64/mmu.c:520-642 | what is mapped afterwards is exactly the range from lo to hi, on success the whole request; for every table, request and amount of memory: an accepted request succeeds if and only if it is safe, its range is free, no table stands where a block belongs and memory covers the tables needed; a failed safe request leaves nothing, and one that fails only for not being safe leaves pages mapped |
| `Arm64.SafeIffChunks` | kernel/arch/arm64/mmu.c:392-439 | the first and the last piece of the range decide whether any piece comes back negative |
| `Arm64.SmallIsSafe` | kernel/arch/arm64/mmu.c:413-445 | every request below 2 GiB is safe |
| `Arm64.UnsafeExamples` | kernel/arch/arm64/mmu.c:413-445 | 2 GiB at the start of a space are not, nor are 5 GiB across the end of a 512 GiB entry, although their own byte count comes back positive |
| `Arm64.Query` | kernel/arch/arm64/mmu.c:86-194 | the loop down the levels returns the address and flags of the translation |
| `Arm64.ArchMmuQuery` | kernel/arch/arm64/mmu.c:86-194 | out of range exactly outside the space; otherwise the status, the byte address and the flags of the translation |
| `Arm64.MapThenQuery` | kernel/arch/arm64/mmu.c:86-194 | after a map every byte of the range queries as the byte equally far into the physical range, with the flags asked for |
| `Sched.RunFromKeeps` | kernel/kernel/thread.c:576-680 | a processor between two threads that takes a queued thread ends in the invariant |
| `Sched.RunIdleKeeps` | kernel/kernel/thread.c:601-680 | the same when it takes its idle thread |
| `Sched.CreateKeeps` | kernel/kernel/thread.c:155-231 | a new suspended thread with its empty death queue keeps the invariant |
| `Sched.RemoveKeeps` | kernel/kernel/thread.c:350-360 | a dead thread nobody waits for can be taken away |
| `SchedOps.Scan` | kernel/kernel/thread.c:586-600 | the index of the first thread of a queue that may run here, none before it may |
| `SchedOps.PickBelow` | kernel/kernel/thread.c:576-604 | the first allowed thread of the highest queue that has one, none only when no queue has one |
| `SchedOps.BestUnique` | kernel/kernel/thread.c:576-604 | that choice is unique |
| `SchedOps.ReschedKeeps` | kernel/kernel/thread.c:616-680 | whatever state the old thread was left in, a reschedule restores the full invariant |
| `SchedOps.ReschedRunsBest` | kernel/kernel/thread.c:576-680 | no ready allowed thread surpasses the one that runs in priority, nor stands before it in its queue; idle only if there is none |
| `SchedOps.Clamp` | kernel/kernel/thread.c:1045-1048 | the priority lies above idle and at most at the highest, unchanged if it did already |
| `SchedOps.YieldKeeps` | kernel/kernel/thread.c:757-777 | yield keeps the invariant |
| `SchedOps.YieldLetsOthersRun` | kernel/kernel/thread.c:757-777 | after a yield another thread runs whenever one of no lower priority was ready and allowed |
| `SchedOps.PreemptKeeps` | kernel/kernel/thread.c:794-821 | preemption keeps the invariant |
| `SchedOps.PreemptGoesOn` | kernel/kernel/thread.c:794-821 | a preempted thread with quantum left goes on unless a thread of higher priority is ready and allowed |
| `SchedOps.SetPriorityKeeps` | kernel/kernel/thread.c:1039-1056 | a change of priority moves the thread to the queue of its new priority and keeps the invariant |
| `SchedOps.SleepKeeps` | kernel/kernel/thread.c:911-949 | going to sleep keeps the invariant |
| `SchedOps.EndSleepKeeps` | kernel/kernel/thread.c:876-896 | so does the end of a sleep, which does nothing to a thread that is not sleeping |
| `SchedOps.BlockKeeps` | kernel/kernel/thread.c:1273-1304 | blocking on a wait queue keeps the invariant |
| `SchedOps.WakeOneKeeps` | kernel/kernel/thread.c:1323-1361 | waking one thread keeps the invariant, with and without a reschedule |
| `SchedOps.WakeList` | kernel/kernel/thread.c:1397-1406 | the drained queue is empty, the threads and processors are the same |
| `SchedOps.WakeListWakes` | kernel/kernel/thread.c:1397-1406 | exactly the waiters become ready, each with the status, every other thread is left alone |
| `SchedOps.WakeAllKeeps` | kernel/kernel/thread.c:1377-1419 | waking all keeps the invariant |
| `SchedOps.UnblockKeeps` | kernel/kernel/thread.c:1448-1470 | taking one thread out of its queue by timeout or interrupt keeps the invariant |
| `SchedOps.ExitKeeps` | kernel/kernel/thread.c:394-428 | exit keeps the invariant, in particular that nobody waits for a dead or detached thread |
| `SchedOps.JoinKeeps` | kernel/kernel/thread.c:324-370 | join blocks on a live thread or takes away a dead one and keeps the invariant |
| `SchedOps.DetachKeeps` | kernel/kernel/thread.c:372-392 | detach wakes those who wait and keeps the invariant |
| `SchedOps.SignalKeeps` | kernel/kernel/thread.c:483-540 | delivering a kill signal keeps the invariant in every state of the thread |
| `SchedOps.BootedInv` | kernel/kernel/thread.c:984-1000 | the state in which every processor runs its idle thread satisfies the invariant |
| `SchedOps.StepKeeps` | kernel/kernel/thread.c:78-1470 | every atomic step of every routine keeps the invariant |
| `SchedOps.RunKeeps` | kernel/kernel/thread.c:78-1470 | the invariant holds in every state of every run |
| `SchedOps.QueuesOfThread` | kernel/kernel/thread.c:78-100 | a ready thread is in exactly the run queue of its priority, a blocked one in exactly the queue it names, all others in none, a running one on exactly one processor |
| `SchedOps.QueuesSound` | kernel/kernel/thread.c:78-100 | no thread twice in a queue, a bit is set exactly for a non-empty queue, counts are lengths, nobody waits for the dead |
| `SchedOps.IdleCaller` | kernel/kernel/thread.c:1039-1056 | thread_set_priority called by an idle thread keeps the invariant if and only if that thread goes on running; otherwise it stays behind in a run queue |
| `SchedEffects.ReschedDoes` | kernel/kernel/thread.c:576-730 | a reschedule runs the first allowed thread of the highest line that has one, or the idle thread; it leaves its line, gets a new quantum if it has none, and nothing else changes |
| `SchedEffects.YieldDoes` | kernel/kernel/thread.c:757-777 | the caller goes to the back of its line without quantum, then the reschedule |
| `SchedEffects.PreemptDoes` | kernel/kernel/thread.c:794-821 | the caller goes to the front of its line with quantum left and to the back without, then the reschedule |
| `SchedEffects.SetPriorityDoes` | kernel/kernel/thread.c:1039-1056 | the caller has the wanted priority, clamped to 1 up to 31, and stands in front of that line, then the reschedule; no other thread and no wait queue changes |
| `SchedEffects.SetPriorityGoesOn` | kernel/kernel/thread.c:1039-1056 | the caller goes on exactly when no ready thread allowed here has a higher priority than its new one |
| `SchedEffects.SleepDoes` | kernel/kernel/thread.c:911-949 | a killed thread does not sleep interruptably; any other is asleep with a clear status, then the reschedule |
| `SchedEffects.EndSleepDoes` | kernel/kernel/thread.c:876-896 | a sleeping thread is ready in front of its line with the status; any other is left alone |
| `SchedEffects.BlockDoes` | kernel/kernel/thread.c:1273-1304 | the caller is blocked, last in the queue, then the reschedule |
| `SchedEffects.WakeOneDoes` | kernel/kernel/thread.c:1323-1361 | the first waiter is ready in front of its line with the status; with a reschedule the caller stands behind it or in front of its own line and the winner runs; without waiters nothing happens |
| `SchedEffects.WakeListDoes` | kernel/kernel/thread.c:1397-1406 | all waiters are ready with the status, each in turn in front of its line, and the queue is empty |
| `SchedEffects.WakeAllDoes` | kernel/kernel/thread.c:1377-1419 | the same for all waiters, with and without a reschedule |
| `SchedEffects.UnblockDoes` | kernel/kernel/thread.c:1448-1470 | a blocked thread leaves its queue from where it stands and is ready in front of its line; any other is left alone |
| `SchedEffects.CreateDoes` | kernel/kernel/thread.c:155-231 | a new thread is suspended with the priority asked for, pinned nowhere, with an empty death queue; no other thread changes |
| `SchedEffects.ResumeDoes` | kernel/kernel/thread.c:290-313 | a suspended thread is ready in front of its line; any other is left alone |
| `SchedEffects.SignalDoes` | kernel/kernel/thread.c:483-540 | the thread is marked killed, and exactly an interruptable wait or sleep of it ends |
| `SchedEffects.DetachDoes` | kernel/kernel/thread.c:372-392 | those who wait for its death are told, and the thread is detached unless it is dead |
| `SchedEffects.ExitDoes` | kernel/kernel/thread.c:394-428 | a detached thread is gone, any other is dead and those who waited for it are ready, then the reschedule |
| `SchedEffects.JoinDoes` | kernel/kernel/thread.c:324-370 | nothing for a detached thread, the end of a dead one, and otherwise the caller waits last for its death |
| `SchedEffects.ReapDoes` | kernel/kernel/thread.c:345-360 | the dead thread and its queue are gone and nothing else |
| `SchedEffects.SmallStepsDo` | kernel/kernel/thread.c:860-873 | a tick takes one from the quantum of the running thread, a change of the interruptable flag changes that flag, a new queue is empty; nothing else changes |
| `SchedFrame.StepElsewhere` | kernel/kernel/thread.c:78-1470 | a step that is not about a wait queue leaves it as it is, and leaves the wait status of every thread awake but the one that blocks, sleeps or ends |
| `SchedFrame.CallerApart` | kernel/kernel/thread.c:324-1304 | the same for the steps a thread makes on itself |
| `SchedFrame.WakeStepApart` | kernel/kernel/thread.c:1323-1419 | the same for waking threads of another queue |
| `SchedFrame.OtherApart` | kernel/kernel/thread.c:372-1470 | the same for all other steps |
| `SchedKernel.Kernel.InsertHead` | kernel/kernel/thread.c:78-88 | the thread is first in the queue of its priority and its bit is set |
| `SchedKernel.Kernel.InsertTail` | kernel/kernel/thread.c:90-100 | the thread is last in the queue of its priority and its bit is set |
| `SchedKernel.Kernel.HighestBit` | kernel/kernel/thread.c:583-584 | the number of the highest bit set |
| `SchedKernel.Kernel.GetTopThread` | kernel/kernel/thread.c:576-604 | the bitmap scan ends and returns the unique best choice, taking only that thread out of its queue |
| `SchedKernel.Kernel.SwitchThreads` | kernel/kernel/thread.c:634-652 | the thread runs here with a quantum, the old one loses its mark |
| `SchedKernel.Kernel.Resched` | kernel/kernel/thread.c:616-730 | takes exactly the reschedule step |
| `SchedKernel.Kernel.Yield` | kernel/kernel/thread.c:757-777 | takes exactly the yield step and keeps the invariant |
| `SchedKernel.Kernel.Preempt` | kernel/kernel/thread.c:794-821 | takes exactly the preempt step and keeps the invariant |
| `SchedKernel.Kernel.SetPriority` | kernel/kernel/thread.c:1039-1056 | takes exactly the priority step and keeps the invariant |
| `SchedKernel.Kernel.Sleep` | kernel/kernel/thread.c:911-949 | takes exactly the sleep step; a killed thread does not sleep interruptably |
| `SchedKernel.Kernel.EndSleep` | kernel/kernel/thread.c:876-896 | takes exactly the wake-from-sleep step |
| `SchedKernel.Kernel.WaitQueueBlock` | kernel/kernel/thread.c:1273-1304 | a zero timeout changes nothing, any other takes exactly the block step |
| `SchedKernel.Kernel.PopWaiter` | kernel/kernel/thread.c:1336-1343 | one waiter leaves its queue with its status, the count with it |
| `SchedKernel.Kernel.WakeOne` | kernel/kernel/thread.c:1323-1361 | takes exactly the wake-one step and returns the number woken |
| `SchedKernel.Kernel.Drain` | kernel/kernel/thread.c:1397-1406 | the loop empties the queue in order and counts |
| `SchedKernel.Kernel.WakeAll` | kernel/kernel/thread.c:1377-1419 | takes exactly the wake-all step and returns the number woken |
| `SchedKernel.Kernel.UnblockFromWaitQueue` | kernel/kernel/thread.c:1448-1470 | takes exactly the unblock step, false for a thread that is not blocked |
| `SchedKernel.Kernel.Resume` | kernel/kernel/thread.c:290-313 | a suspended thread becomes ready at the head of its queue, any other is left alone |
| `SchedKernel.Kernel.Exit` | kernel/kernel/thread.c:394-428 | takes exactly the exit step |
| `SchedKernel.Kernel.Signal` | kernel/kernel/thread.c:483-540 | takes exactly the signal step, state by state of the thread |
| `Mutex.StepKeeps` | kernel/kernel/mutex.c:55-115 | every step keeps: count is owners plus queued plus timed out and not yet run, at most one owner, holder null or the owner |
| `Mutex.RunKeeps` | kernel/kernel/mutex.c:55-115 | that holds in every state of every run, waits on a condition variable included |
| `Mutex.MutualExclusion` | kernel/kernel/mutex.c:55-115 | in no state of any run do two threads own the mutex, and count and holder agree with the owner |
| `Mutex.StrandsIff` | kernel/kernel/mutex.c:55-79 | a step strands a thread if and only if it queues for a mutex that nobody owns while its count is still raised |
| `Mutex.NeverStranded` | kernel/kernel/mutex.c:55-115 | in runs without finite timeouts no thread is ever queued on an unowned mutex |
| `Mutex.StuckForever` | kernel/kernel/mutex.c:55-115 | a thread stranded without a timeout stays queued and nobody owns the mutex again, whatever the others do |
| `Mutex.StrandingRun` | kernel/kernel/mutex.c:57-79 | a run of five steps that strands a thread |
| `Mutex.CondWaitReturnsOwning` | kernel/kernel/cond.c:32-51 | step by step: a thread inside cond_wait leaves it only as owner of the mutex or queued for it without a timeout |
| `Mutex.CondWaitRun` | kernel/kernel/cond.c:32-51 | in every run: from a cond_wait on a thread is inside it until it holds the mutex again |
| `Mutex.SignalWakes` | kernel/kernel/cond.c:53-62 | whoever waits is in the queue, and a signal wakes the longest waiter and nobody else |
| `Mutex.BroadcastWakes` | kernel/kernel/cond.c:64-73 | a broadcast wakes exactly the waiters |
| `Mutex.MovesInTurn` | kernel/kernel/mutex.c:55-115 | no step lets a thread overtake another in the queue of the mutex or of the condition variable |
| `Mutex.OnlyFirstServed` | kernel/kernel/mutex.c:55-115 | nobody comes to own the mutex but the first in the queue, or a caller who finds it empty |
| `Mutex.NoOvertaking` | kernel/kernel/mutex.c:55-115 | in every run: while a thread waits, nobody who is not in front of it comes to own the mutex, neither from the queue nor by a fresh acquire |
| `Mutex.TimeoutDoes` | kernel/kernel/mutex.c:57-79 | a timeout takes its thread out of the queue it stands in and nobody else, and leaves the count to it |
| `Mutex.OthersStay` | kernel/kernel/mutex.c:55-115 | a step moves no thread but the one it is about and those it wakes: the first in the queue, the first waiter of a signal, all of a broadcast |
| `Semaphore.SemStepKeeps` | kernel/kernel/semaphore.c:27-91 | every step keeps count equal to initial value plus posts less waits done, woken, queued and timed out |
| `Semaphore.SemRunKeeps` | kernel/kernel/semaphore.c:27-91 | that holds in every state of every run, and no token is given twice |
| `Semaphore.StarvesIff` | kernel/kernel/semaphore.c:27-91 | a step makes a thread wait beside a free token if and only if it waits while count hides the tokens |
| `Semaphore.NeverStarved` | kernel/kernel/semaphore.c:27-59 | in runs without finite timeouts nobody is queued beside a token and count says how many tokens or waiters there are |
| `Semaphore.StarvingRun` | kernel/kernel/semaphore.c:75-91 | a run that starves a thread, and ends with it queued and forgotten |
| `Semaphore.PassedOver` | kernel/kernel/semaphore.c:27-91 | from a count that is not negative on, no run of posts, returns and waits that need not block wakes anybody |
| `Semaphore.ForgottenForever` | kernel/kernel/semaphore.c:27-91 | whatever follows, as many threads as are queued then stay queued, save those that time out |
| `Semaphore.ForgottenStep` | kernel/kernel/semaphore.c:27-91 | no step but a timeout lowers the number of queued threads no post is owed to |
| `Semaphore.WaitDoes` | kernel/kernel/semaphore.c:45-84 | a wait or try-wait takes a token exactly when the count shows one; otherwise it queues last or changes nothing |
| `Semaphore.ExpiryDoes` | kernel/kernel/semaphore.c:75-91 | a timeout takes its thread out of the queue and nobody else, and leaves the count to it |
| `Semaphore.SemInTurn` | kernel/kernel/semaphore.c:27-91 | no step lets a thread overtake another in the queue, and a post wakes only the first |
| `Semaphore.SemNoOvertaking` | kernel/kernel/semaphore.c:27-91 | in every run: while a thread waits, no post wakes one that is not in front of it |
| `Semaphore.NoBarging` | kernel/kernel/semaphore.c:27-73 | in runs without finite timeouts nobody takes a token past a queue |
| `Event.EventStepKeeps` | kernel/kernel/event.c:86-213 | every step keeps: signalled means no waiter, and signals are released, absorbed or still up |
| `Event.EventRunKeeps` | kernel/kernel/event.c:86-213 | in every state of every run; an auto-unsignal event releases no more waits than signals plus its initial value |
| `Event.SignalReleases` | kernel/kernel/event.c:141-170 | a signal to an event with waiters releases the longest waiter, or all of them, and is never lost |
| `Event.AwaitDoes` | kernel/kernel/event.c:86-119 | a raised flag lets the caller through and is lowered if so set up; a killed or zero-timeout wait changes nothing; any other queues last |
| `Event.SignalDoes` | kernel/kernel/event.c:141-170 | the first waiter goes, or all of them and the flag is up; without waiters the flag is up; a flag that is up stays so |
| `Event.UnsignalDoes` | kernel/kernel/event.c:206-213 | the flag is down, nothing else changes, and the next wait queues |
| `Event.LeaveDoes` | kernel/kernel/event.c:103-119 | a timeout or interrupt takes its thread out of the queue and nobody else |
| `Event.StaysSignalled` | kernel/kernel/event.c:86-213 | in every run an event without auto-unsignal, once signalled, stays so with nobody queued until it is unsignalled |
| `Event.SignalKept` | kernel/kernel/event.c:86-170 | a signal with nobody waiting lets the next wait through |
| `Event.EventNoOvertaking` | kernel/kernel/event.c:86-213 | in every run: while a thread waits, nobody gets in front of it |
| `SyncKernel.ReschedWaits` | kernel/kernel/thread.c:616-730 | a reschedule touches no wait queue and no wait status |
| `SyncKernel.BlockWaits` | kernel/kernel/thread.c:1286-1291 | a block appends the caller to one queue and changes nobody else's wait |
| `SyncKernel.WakeOneWaits` | kernel/kernel/thread.c:1336-1343 | a wake-up takes out the first waiter and gives it the status, and changes no other wait |
| `SyncKernel.WakeAllWaits` | kernel/kernel/thread.c:1397-1406 | a wake-all empties one queue and gives its waiters the status, and changes no other wait |
| `SyncKernel.UnblockWaits` | kernel/kernel/thread.c:1461-1466 | a timeout takes one thread out of its queue, wherever it stands |
| `SyncKernel.Lock.constructor` | kernel/kernel/mutex.c:27-30 | a fresh mutex and condition variable are in the initial state |
| `SyncKernel.Lock.Enter` | kernel/kernel/mutex.c:27-30 | a thread made after the mutex may take part |
| `SyncKernel.Lock.Undisturbed` | kernel/kernel/thread.c:78-1470 | no step of the scheduler elsewhere touches a mutex or condition variable |
| `SyncKernel.Lock.AcquireInternal` | kernel/kernel/mutex.c:55-79 | takes exactly the acquire step, and the block step of the scheduler if it blocks; a wait that does not block changes nothing else |
| `SyncKernel.Lock.AcquireTail` | kernel/kernel/mutex.c:58-78 | after the wait the status decides: handed over, or timed out and count repaired |
| `SyncKernel.Lock.ReleaseInternal` | kernel/kernel/mutex.c:107-115 | takes exactly the release step, and with a waiter the wake-one step of the scheduler with the reschedule asked for |
| `SyncKernel.Lock.WakeFirst` | kernel/kernel/thread.c:1323-1361 | the first waiter of one queue is woken with a clear status, the other queue and every other wait is left alone |
| `SyncKernel.Lock.TimerFires` | kernel/kernel/thread.c:1237-1253 | takes exactly the timeout step for either queue, here and in the scheduler |
| `SyncKernel.Lock.CondWait` | kernel/kernel/cond.c:32-51 | release and enqueue are one step here, and in the scheduler a wake-one without reschedule followed by a block; a zero timeout takes the mutex back at once |
| `SyncKernel.Lock.CondSignal` | kernel/kernel/cond.c:53-62 | takes exactly the signal step, and the wake-one step of the scheduler with a reschedule |
| `SyncKernel.Lock.CondBroadcast` | kernel/kernel/cond.c:64-73 | takes exactly the broadcast step, and the wake-all step of the scheduler with a reschedule |
| `SyncKernel.Sem.constructor` | kernel/kernel/semaphore.c:14-17 | a fresh semaphore is in the initial state |
| `SyncKernel.Sem.Enter` | kernel/kernel/semaphore.c:14-17 | a thread made after the semaphore may take part |
| `SyncKernel.Sem.Undisturbed` | kernel/kernel/thread.c:78-1470 | no step of the scheduler elsewhere touches a semaphore |
| `SyncKernel.Sem.Post` | kernel/kernel/semaphore.c:27-43 | takes exactly the post step, and with a negative count the wake-one step of the scheduler with the reschedule asked for; returns the number woken |
| `SyncKernel.Sem.Wait` | kernel/kernel/semaphore.c:45-84 | takes exactly the wait step, and the block step of the scheduler if it blocks; a wait that does not took a token or changed nothing |
| `SyncKernel.Sem.WaitTail` | kernel/kernel/semaphore.c:80-91 | after the wait a token is taken or the count repaired |
| `SyncKernel.Sem.TimerFires` | kernel/kernel/thread.c:1237-1253 | takes exactly the timeout step, here and in the scheduler |
| `SyncKernel.Sem.TryWait` | kernel/kernel/semaphore.c:61-73 | takes a token exactly when count is positive |
| `SyncKernel.EventObject.constructor` | kernel/kernel/event.c:41-44 | a fresh event is in the initial state |
| `SyncKernel.EventObject.Undisturbed` | kernel/kernel/thread.c:78-1470 | no step of the scheduler elsewhere touches an event |
| `SyncKernel.EventObject.PassOrBlock` | kernel/kernel/event.c:103-112 | a raised flag lets the caller through and is lowered if so set up, otherwise the caller blocks |
| `SyncKernel.EventObject.Wait` | kernel/kernel/event.c:86-119 | takes exactly the wait step, including the killed thread that may not wait interruptably, and in the scheduler the interruptable flag followed by the block; a caller that does not block leaves not interruptable |
| `SyncKernel.EventObject.WaitTail` | kernel/kernel/event.c:114-119 | after the wait the caller is not interruptable and gets the status of its wait |
| `SyncKernel.EventObject.Leaves` | kernel/kernel/thread.c:1448-1470 | a timeout or interrupt takes exactly one waiter out, with its status, by the unblock of the scheduler |
| `SyncKernel.EventObject.Signal` | kernel/kernel/event.c:141-170 | takes exactly the signal step, and the wake step of the scheduler with the reschedule and status asked for; returns the number woken |
| `SyncKernel.EventObject.Unsignal` | kernel/kernel/event.c:206-213 | takes exactly the unsignal step |
| `MpSync.StepKeeps` | kernel/kernel/mp.c:76-222 | every step of callers and processors keeps the account of every node of every call |
| `MpSync.RunKeeps` | kernel/kernel/mp.c:76-222 | so does every run, with any number of calls at once and processors going offline between tasks |
| `MpSync.AtMostOnce` | kernel/kernel/mp.c:76-197 | a target runs its task at most once, nobody else runs it, and a set bit of an online processor means its node is listed or in hand there |
| `MpSync.ReturnedMeansDone` | kernel/kernel/mp.c:94-197 | when the call has returned every target has run its task once or is offline, and no list and no processor holds a node of it |
| `MpSync.ChosenAs` | kernel/kernel/mp.c:94-135 | in every run the targets of a call stay those that were wanted and online when it was made |
| `MpSync.ReturnedMeansRan` | kernel/kernel/mp.c:94-197 | when the call has returned, every wanted processor that was online and still is has run the task exactly once, and no other has |
| `MpSync.LeavingMeansSafe` | kernel/kernel/mp.c:160-186 | once the wait loop is left no processor has or will get the node, though the two masks are loaded one after the other |
| `MpSync.WaitsForAStep` | kernel/kernel/mp.c:160-182 | a caller that must wait waits for a processor that can make a step |
| `MpSync.StepsRunOut` | kernel/kernel/mp.c:350-367 | each step of a processor uses up one unit of work |
| `MpSync.NoNewWork` | kernel/kernel/mp.c:76-222 | no step but the start of a call makes work |
| `MpSync.WorkBounds` | kernel/kernel/mp.c:76-222 | in every run without new calls no more steps of processors follow than there is work |
| `MpSync.WaitingEnds` | kernel/kernel/mp.c:160-182 | when that many have been made no caller in its wait loop waits for an online processor |
| `MpSync.OnlineAfter` | kernel/kernel/mp.c:199-222 | a processor goes offline by its own step only |
| `MpSync.OfflineRests` | kernel/kernel/mp.c:199-222 | in every run a processor that has gone offline takes no node any more, and tasks posted to it are not run there |
| `MpSync.ListsInTurn` | kernel/kernel/mp.c:135-196 | no step lets a node overtake another in the list of a processor, which takes the first |
| `MpSync.TasksInOrder` | kernel/kernel/mp.c:135-367 | in every run a processor takes its tasks in the order in which they were posted |
| `MpSync.Mp.EnqueueTasks` | kernel/kernel/mp.c:135-146 | the loop puts a node at the end of the list of each target and no other |
| `MpSync.Mp.UnlinkTasks` | kernel/kernel/mp.c:187-196 | the loop takes the nodes of the call out of every list |
| `MpSync.Mp.ServeOne` | kernel/kernel/mp.c:355-365 | one round takes the first node, runs its task and clears its bit |
| `MpSync.Mp.GenericIrq` | kernel/kernel/mp.c:350-367 | undisturbed, the loop serves every node of the list exactly once |
| `Timer.TimesOrdered` | kernel/include/sys/types.h:38-41 | within half the range the wrapping comparisons are the true order |
| `Timer.HeldBackIff` | kernel/kernel/timer.c:226-227 | a timer set d ticks ahead is held back exactly for d from 1 to 2^31 |
| `Timer.InsertedSorted` | kernel/kernel/timer.c:53-70 | insertion keeps the queue in time order |
| `Timer.InsertedAll` | kernel/kernel/timer.c:53-70 | insertion adds the timer once and loses none |
| `Timer.InsertedLast` | kernel/kernel/timer.c:53-70 | among equal times the new timer is last |
| `Timer.ApplyTimed` | kernel/kernel/timer.c:72-178 | setting, cancelling and firing elsewhere keep every queue in order and no timer in two places |
| `Timer.DueAppliedAll` | kernel/kernel/timer.c:204-260 | whatever callbacks and other processors do meanwhile, the due timers are those before less the cancelled ones |
| `Timer.FiresExactly` | kernel/kernel/timer.c:204-260 | in order and at most once each, exactly those due timers fire that no callback fired before them has come with a cancellation of |
| `Timer.CancelStops` | kernel/kernel/timer.c:157-178 | from any sound state, a timer cancelled during a callback that fires before its turn does not fire |
| `Timer.CancelClears` | kernel/kernel/timer.c:157-178 | a cancelled timer is in no queue and has no period; every other timer is where it was |
| `Timer.CancelledInRound` | kernel/kernel/timer.c:204-260 | a timer cancelled during a round and not set again in it is in no queue and has no period after it, even if it is the one that fired |
| `Timer.GoneRounds` | kernel/kernel/timer.c:204-260 | such a timer stays out of every queue over all rounds that do not set it |
| `Timer.NeverAgain` | kernel/kernel/timer.c:53-303 | in every run of ticks, settings, cancellations and moved queues, a cancelled timer is in no queue and fires in no tick until somebody sets it |
| `Timer.DueNoDup` | kernel/kernel/timer.c:72-83 | as no timer is queued twice, none is due twice |
| `Timer.RoundsKeep` | kernel/kernel/timer.c:204-260 | a timer in a queue after any round and not due is there after every later one, unless it is cancelled or fires on its own processor |
| `Timer.SetStays` | kernel/kernel/timer.c:72-110 | a timer set during a callback is in its queue afterwards |
| `Timer.SetDoes` | kernel/kernel/timer.c:72-110 | the timer is queued for its time with its period, and nothing else changes |
| `Timer.FiredDoes` | kernel/kernel/timer.c:224-246 | a timer that fires on another processor leaves the head of its queue there and nothing else |
| `Timer.PeriodicReturns` | kernel/kernel/timer.c:252-259 | a periodic timer that its callback leaves alone is back one period later |
| `Timer.EveryPeriod` | kernel/kernel/timer.c:204-260 | the round that fires a periodic timer queues it again for one period from now and keeps its period, whatever goes on meanwhile, unless somebody sets or cancels it |
| `Timer.RoundsAdd` | kernel/kernel/timer.c:204-260 | nothing else is ever added: every timer queued was there before, was set, or is a periodic one put back |
| `Timer.Requeued` | kernel/kernel/timer.c:252-259 | a periodic timer in no queue goes back for a later time, once, and is not due again in the tick |
| `Timer.SetIsLater` | kernel/kernel/timer.c:85-93 | a timer set from a callback is never due in the same tick |
| `Timer.MovedSorted` | kernel/kernel/timer.c:290-303 | moving a queue to another processor keeps time order |
| `Timer.MovedAll` | kernel/kernel/timer.c:290-303 | it loses and doubles no timer |
| `Timer.MovedOffAll` | kernel/kernel/timer.c:290-303 | all timers of one processor are queued on the other for the same times and periods, no other queue changes |
| `Timer.MovedInOrder` | kernel/kernel/timer.c:290-303 | among equal times those there come before those moved, each in their order |
| `Timer.MovedTimed` | kernel/kernel/timer.c:290-303 | moving a queue keeps all queues in order and no timer in two places |
| `Timer.Rebased` | kernel/include/sys/types.h:38-41 | the window may begin later as long as nothing queued lies before it |
| `Timer.RoundsTimed` | kernel/kernel/timer.c:204-260 | each round of a tick keeps all queues sound and fires the next due timer |
| `Timer.ClockRunKeeps` | kernel/kernel/timer.c:53-303 | in every run of ticks, settings, cancellations and moved queues all queues stay in order and no timer is in two places |
| `Timer.LeftAlone` | kernel/kernel/timer.c:204-260 | in every run a timer that nobody cancels stays queued until a tick of its processor finds it due |
| `Timer.FiresWhenDue` | kernel/kernel/timer.c:204-260 | a tick fires such a timer if and only if its time has come and no callback fired before it in that tick cancels it, once, and takes it out of the queue |
| `Timer.Timers.InsertInQueue` | kernel/kernel/timer.c:53-70 | the scan inserts before the first later timer |
| `Timer.Timers.TimerSet` | kernel/kernel/timer.c:72-110 | the timer is set one tick beyond the delay, with its period |
| `Timer.Timers.TimerCancel` | kernel/kernel/timer.c:157-178 | the timer is in no queue and its period is zero; every other timer is left alone |
| `Timer.Timers.Tick` | kernel/kernel/timer.c:204-260 | the loop ends, has fired each due timer that was not cancelled before its turn exactly once and in order, and leaves the queues of that many rounds of the specification, with only later timers on this processor |
| `Timer.Timers.RunCallback` | kernel/kernel/timer.c:244-246 | a callback is the sequence of its operations on the timers |
| `Timer.Timers.TransitionOff` | kernel/kernel/timer.c:290-303 | the old queue is empty, its timers are merged into the new one, no other queue changes; order and uniqueness are kept |
| `HdaCodec.FinishKeeps` | kernel/dev/intel_hda/codec.c:688-938 | each finished handler sets up the right next stage with everything learnt so far in place |
| `HdaCodec.FinishLists` | kernel/dev/intel_hda/codec.c:688-938 | when a list has been worked off, the next one of the enumeration is set up |
| `HdaCodec.SendKeeps` | kernel/dev/intel_hda/codec.c:567-686 | sending a command keeps the invariant |
| `HdaCodec.ReceiveCmdKeeps` | kernel/dev/intel_hda/codec.c:541-565 | taking the answer to a listed command keeps the invariant |
| `HdaCodec.ReceiveConnsKeeps` | kernel/dev/intel_hda/codec.c:622-659 | taking a piece of a connection list keeps the invariant, long and short form |
| `HdaCodec.StepKeeps` | kernel/dev/intel_hda/codec.c:541-938 | every step keeps the invariant, uses up one unit of the remaining work and stays within the list at hand or ends it |
| `HdaCodec.RunKeeps` | kernel/dev/intel_hda/codec.c:541-938 | in every state of every run, with the work left equal to the total of the codec less the steps made |
| `HdaCodec.Terminates` | kernel/dev/intel_hda/codec.c:541-938 | no run is longer than that total, and before its end a command can be sent or an answer is due |
| `HdaCodec.EnumeratesAll` | kernel/dev/intel_hda/codec.c:541-938 | at the end the picture of groups, widgets and connection lists is right, connections being asked of exactly the seven kinds of widget that may have them, and every widget of every audio group was visited in order |
| `HdaCodec.CapsAsk` | kernel/dev/intel_hda/codec.c:446-535 | each parameter is asked of exactly the kinds of widget that have it |
| `HdaCodec.AskOnce` | kernel/dev/intel_hda/codec.c:446-535 | and of each once |
| `HdaCodec.ListsAsk` | kernel/dev/intel_hda/codec.c:446-535 | the codec, a function group, an audio group and a widget of unknown kind are asked their parameters and no others |
| `HdaCodec.ConnCmdsCount` | kernel/dev/intel_hda/codec.c:661-686 | a connection list is fetched by as many commands as it takes, two entries to a response in the long form and four in the short one |
| `HdaCodec.VisitsExact` | kernel/dev/intel_hda/codec.c:905-938 | those visits are the widgets of the audio groups, each once |
| `HdaCodec.AnswersMatch` | kernel/dev/intel_hda/codec.c:541-686 | the next answer belongs to the command whose handler takes it, and answers outstanding are commands sent less answers taken |
| `HdaCodec.SendMany` | kernel/dev/intel_hda/codec.c:567-591 | as many commands go out as there is room for, or all |
| `Ring.AdvanceIsModulo` | kernel/dev/intel_hda/codec.c:78-79 | advancing a pointer is addition modulo the ring size |
| `HdaRings.MaxInFlight` | kernel/dev/intel_hda/intel_hda.c:266-272 | at least one command, fewer than the command ring holds, and with room reserved in the response ring |
| `HdaRings.InFlightIsMost` | kernel/dev/intel_hda/intel_hda.c:266-272 | the limit is the largest that keeps one entry of the command ring and eight of the response ring free, and one where the response ring is no larger than that |
| `HdaRings.FitsIff` | kernel/dev/intel_hda/intel_hda.c:266-272 | whatever a client of the rings sends, the responses are sure to fit until the next look at the command ring if and only if the limit and the commands fetched and not settled are no more than the response ring holds |
| `HdaRings.ClientOverruns` | kernel/dev/intel_hda/codec.c:991-1009 | for a client that never runs out of commands, every limit and every ring has a run of slow answers whose responses do not fit |
| `HdaRings.TotalBound` | kernel/dev/intel_hda/codec.c:991-1060 | between two looks, commands and responses in all places and the space left never grow in sum |
| `HdaRings.SliceAppend` | kernel/dev/intel_hda/codec.c:78-80 | writing behind the last entry leaves every entry in use alone |
| `HdaRings.Device.constructor` | kernel/dev/intel_hda/intel_hda.c:219-272 | empty rings with the limit in force |
| `HdaRings.Device.SnapshotCorb` | kernel/dev/intel_hda/codec.c:991-1009 | the space found plus the entries in use is the limit |
| `HdaRings.Device.SendCmd` | kernel/dev/intel_hda/codec.c:38-81 | the command is last in line, nothing unfetched is overwritten, the limit is kept |
| `HdaRings.Device.CommitCorb` | kernel/dev/intel_hda/codec.c:1011-1026 | the hardware may fetch all that was written |
| `HdaRings.Device.Fetch` | kernel/dev/intel_hda/codec.c:991-1009 | commands are fetched in the order sent, each once |
| `HdaRings.Device.Respond` | kernel/dev/intel_hda/intel_hda.c:777-797 | the response goes behind the last one, whether or not the driver has read that far |
| `HdaRings.Device.TakeResponses` | kernel/dev/intel_hda/codec.c:1028-1060 | the snapshot holds every answer not taken before, in order, if the ring has not overrun, and in any case as many as the pointers are apart |
| `HdaRings.Device.BeginCycle` | kernel/dev/intel_hda/intel_hda.c:708-716 | the two snapshots of a service cycle, the hardware running on between them: all answers are taken, the space found is what the limit leaves, no less than at the start |
| `HdaRings.SnapshotRirb` | kernel/dev/intel_hda/codec.c:1028-1060 | the snapshot is the pending responses in order and the copy loop runs at most twice |
| `HdaSystem.FlightBound` | kernel/dev/intel_hda/codec.c:541-686 | no more commands are in flight than the list at hand is long |
| `HdaSystem.BurstBound` | kernel/dev/intel_hda/codec.c:541-938 | in every state of the driver: never more than the longest list of the enumeration |
| `HdaSystem.SysRunKeeps` | kernel/dev/intel_hda/codec.c:541-1119 | in every run of driver, rings and hardware the driver waits for exactly the commands on their way, and they are never more than that |
| `HdaSystem.ReachList` | kernel/dev/intel_hda/codec.c:541-1119 | every list of the enumeration is reached by a run with never more than one response in the ring |
| `HdaSystem.OverrunsIff` | kernel/dev/intel_hda/intel_hda.c:777-805 | some run overruns the response ring if and only if it is shorter than the longest list, whatever the limit |
| `HdaSystem.LargeRingFits` | kernel/dev/intel_hda/intel_hda.c:251-272 | with connection lists of seven-bit length at most 64 commands are in flight and 256 entries are enough |
| `HdaSystem.SmallRingOverruns` | kernel/dev/intel_hda/intel_hda.c:251-272 | 16 entries are not, for a widget with 32 connections in the long form |
| `HdaDriver.Codec.constructor` | kernel/dev/intel_hda/codec.c:945-965 | the driver starts with the root list |
| `HdaDriver.Codec.SetupCmdList` | kernel/dev/intel_hda/codec.c:593-612 | a list is set up with both handlers and fresh indices |
| `HdaDriver.Codec.FetchNextFunctionGroup` | kernel/dev/intel_hda/codec.c:927-938 | takes exactly the next-group step |
| `HdaDriver.Codec.FetchNextWidget` | kernel/dev/intel_hda/codec.c:905-925 | takes exactly the next-widget step |
| `HdaDriver.Codec.FetchWidgetConnectionList` | kernel/dev/intel_hda/codec.c:688-713 | sets up the fetch of a connection list, or goes on without one |
| `HdaDriver.Codec.Finished` | kernel/dev/intel_hda/codec.c:741-903 | the finished handler of each stage |
| `HdaDriver.Codec.ProcessPendingWork` | kernel/dev/intel_hda/codec.c:1113-1119 | fills the ring as far as there is space; what is in flight is what was put into the ring |
| `HdaDriver.Codec.TxCmdList` | kernel/dev/intel_hda/codec.c:567-591 | the loop sends the next commands of the list in order |
| `HdaDriver.Codec.TxFetchConnList` | kernel/dev/intel_hda/codec.c:661-686 | the loop asks for the next pieces of the connection list in order |
| `HdaDriver.Codec.ProcessResp` | kernel/dev/intel_hda/codec.c:187-436 | counts, kinds and lengths are taken from the answers |
| `HdaDriver.Codec.RxCmdList` | kernel/dev/intel_hda/codec.c:541-565 | takes exactly the receive step of a command list |
| `HdaDriver.Codec.RxFetchConnList` | kernel/dev/intel_hda/codec.c:622-659 | takes exactly the receive step of a connection list |
| `HdaDriver.Codec.TakeEntries` | kernel/dev/intel_hda/codec.c:634-652 | the loop unpacks the entries of one response into the list |
| `HdaDriver.Codec.Response` | kernel/dev/intel_hda/codec.c:1062-1110 | the answer to the oldest command reaches its handler and the invariant holds again |
| `HdaDriver.Codec.ProcessRirb` | kernel/dev/intel_hda/codec.c:1062-1110 | the responses of a snapshot are received one after the other, each by the handler of its command |
| `HdaDriver.Codec.EndCycle` | kernel/dev/intel_hda/intel_hda.c:818-822 | new commands go out as far as there is space and are committed |
| `HdaDriver.Codec.ServiceCycle` | kernel/dev/intel_hda/intel_hda.c:708-822 | a whole service cycle, the hardware running on: the responses come out of the ring, all answers are received in order, then the space, no less than the limit less what was still to be fetched, is filled; the driver ends in the invariant and waits for exactly the commands sent and not settled; a ring as long as the longest list has not overrun |
| `HdaDriver.Codec.RingSuffices` | kernel/dev/intel_hda/intel_hda.c:777-805 | with such a ring no state of driver and device is an overrun |
| `HdaDriver.Codec.InSystem` | kernel/dev/intel_hda/intel_hda.c:708-822 | between two cycles driver and device are a state of the whole system |
| `Init.StableSortSorts` | kernel/top/init.c:31-90 | the reference insertion sort orders the eligible hooks by level and table place, each once |
| `Init.OrderUnique` | kernel/top/init.c:31-90 | there is only one such order |
| `Init.WindowIsStableSort` | kernel/top/init.c:31-90 | what a window calls is the stable sort by level of the filtered table |
| `Init.WindowsCompose` | kernel/top/main.c:70-136 | adjacent windows in turn call what their union calls |
| `Init.Search` | kernel/top/init.c:44-74 | one pass finds the next hook in order, or none if none is left |
| `Init.LkInitLevel` | kernel/top/init.c:31-90 | the search loop ends and calls exactly the hooks of the window, in order, each once |
| `Port.PortBuf.constructor` | kernel/kernel/port.c:81-91 | an empty buffer |
| `Port.PortBuf.IsEmpty` | kernel/kernel/port.c:93-96 | true exactly when nothing is in it |
| `Port.PortBuf.Write` | kernel/kernel/port.c:98-109 | the whole batch is appended in order, or nothing changes |
| `Port.PortBuf.Read` | kernel/kernel/port.c:111-119 | the oldest packet comes out; accepted is always read followed by contents |
| `Port.PortBuf.Peek` | kernel/kernel/port.c:121-123 | shows the oldest packet |
| `Port.WritePort.constructor` | kernel/kernel/port.c:131-189 | a port with a small or big buffer and no reader |
| `Port.WritePort.Open` | kernel/kernel/port.c:191-259 | the first reader takes over all packets written so far, a later one starts afresh, a second one of a unicast port is refused |
| `Port.WritePort.Write` | kernel/kernel/port.c:376-433 | each reader gets the whole batch or none of it; which result arises when |
| `Port.WriteReaders` | kernel/kernel/port.c:395-420 | the loop writes to every reader independently |
| `Bitmap.FirstMaskBits` | kernel/include/bits.h:30 | the first-word mask selects the bits from the start on |
| `Bitmap.LastMaskBits` | kernel/include/bits.h:31 | the last-word mask selects the bits below the end, all of them when the end is a multiple of the word size |
| `Bitmap.ReplacedMembers` | kernel/include/bits.h:39-77 | as a set of numbers, exactly those of the range are added or taken out |
| `Bitmap.BitmapChange` | kernel/include/bits.h:39-77 | bitmap_set and bitmap_clear change exactly the bits of the range |
| `Bitmap.Ffz` | kernel/include/bits.h:84-88 | the lowest clear bit of a word |
| `Bitmap.BitmapFfz` | kernel/include/bits.h:90-104 | the least number below the limit that is not in the set, or -1 if there is none |

## Left out

- TLB shootdown, barriers, accessed and dirty bits, cr3 and MSR writes, context-switch assembly.
- X86Mmu.AddressSpace.RemoveEntry: the panic when a split finds no memory during unmap is an `ok` result of false, with nothing promised of the tree beyond its validity.
- x86 32-bit and PAE paging, the kernel half of the top table shared between address spaces, destroying an address space.
- X86Mmu.AddressSpace.constructor: the kernel half copied into the top table of a user space is left out, as tables shared between spaces are; other writers of those tables are not modelled.
- Arm64.UnmapPt: tables are values, so update in place and aliasing are not captured.
- Arm64.ArchMmuMap: byte counts do not wrap at 2^64, invalid cache flags are not modelled; arm64 protect and granules other than 4 KiB are left out.
- The real-time flag, runtime accounting and statistics of threads, and the preemption timer they steer; inter-processor reschedule requests.
- SchedKernel.Kernel.SetPriority: not called by an idle thread, which the code would put into a run queue; `SchedOps.IdleCaller` says when that does no harm.
- SchedKernel.Kernel.WakeOne: not called with a reschedule by an idle thread, for the same reason.
- SchedKernel.Kernel.WakeAll: not called with a reschedule by an idle thread, for the same reason.
- Boot of the first thread before it becomes idle, and threads constructed around a running processor.
- SchedKernel.Kernel.GetTopThread: the 32-bit bitmap is a set of bit numbers below 32, which loses nothing as there are 32 priorities.
- The race in which a timer callback fires after timer_cancel has returned: a timeout is an atomic step of the wait that armed it.
- Destroying mutexes, semaphores, events, condition variables and wait queues; wrap-around of their 32-bit counts.
- MpSync.LeavingMeansSafe: the two loads are sequentially consistent steps; relaxed memory order, nested calls from a task and processors coming back online are left out.
- Timer.Timers.Tick: arming the hardware timer, and setting a pending timer (a panic), which here does nothing.
- HdaCodec.EnumeratesAll: node numbers are positions in the tree rather than the 7-bit ids the codec assigns; the decoding of bit fields that do not steer enumeration, unsolicited responses and several codecs on one link are left out.
- HdaRings.Device.SendCmd: the bit layout of a command word.
- HdaDriver.Codec.ProcessPendingWork: one codec on the link; the loop over several codecs sharing the ring is left out.
- HdaDriver.Codec.Response: responses with an illegal codec address or without a handler, which the code logs and drops.
- Port groups, closing and destroying ports, and waking readers.
- Bitmap.BitmapChange: negative start or count.
- PCIe, interrupt controllers, USB, display, console and the host tools: register access and user interface.
