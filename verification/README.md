# Verification model of tbjit-alloc

tbjit-alloc is a self-specialising `malloc`: it watches allocation sites, learns what each one does,
emits a machine-code routine for it, and takes the routine back when the site changes. This project
models the parts where a mistake would corrupt memory or mislead the learner, and proves what they
rely on. `dafny verify dfyconfig.toml` checks all of it.

## What is modelled

**Chunk ownership and segment reclamation** (`Segments`, `Reclamation`, `ReclamationSteps`,
`ReclamationResults`, `Sweeping`, `Stranding`, `Leak`, `Refill`, `Serving`, `Pagemap`, `Managed`, `Paired`).
Any number of threads allocate, write, refill and free chunks of 2 MiB segments, their own or each other's,
while the reaper sweeps. Each access to a word that
another thread may change is a step; steps interleave freely, and an access to unmapped memory is a
fault. No schedule faults. The invariant follows every chunk (held, in the middle of a free, on a local
list, on a remote queue, counted) and gives: held memory is mapped and disjoint; a segment is reclaimed
only when every chunk of it was freed and counted; after retirement the counter equals the chunks still
out, so it never underflows; "retired and zero" cannot lapse before the unmap; the remote queue is a
null-terminated list of exactly the chunks pushed and not harvested. `Sweeping` says exactly which segments
an uninterrupted sweep gives back, in each reap mode. `Managed` drives the pagemap by the same runs: at
every moment a chunk not yet counted as freed is found managed, and no other pointer is.

One thing goes wrong: a segment can leak. A foreign free that reads "not retired" and pushes after the
owner's empty harvest (`src/codegen/slow_init.cpp:142`), before or after the owner sets the flag (line
153), leaves its chunk on a queue nobody harvests, and pins the segment for good. `Leak` gives both
schedules, for every chunk size and reap mode. `Stranding` says exactly which chunks are lost: at the step
that sets the flag, those queued and those whose free is loading, linking or swapping pin the segment
whatever happens next, and at any later time the stranded ones are the former and those of the latter
whose compare-and-swap has succeeded.

`Refill` is the runtime's own code (carving loop, harvest, retirement, routing of frees) as a class over
memory, each method equal to an uninterrupted run of the protocol's steps; `Serving` says what such a run
writes.

**The emitter as a compiler** (`X86`, `Routines`, `Emitter`, `Codegen`, `Pages`, `Composition`). A decoder for the encodings used
(Intel SDM Volume 2, sections 2.1 and 2.2.1), a machine with registers, flags, fs-relative memory and
external calls that return arbitrary caller-saved registers, flags and memory; the emitters as methods
that write bytes at a cursor and patch branches in place. Whatever page `compile` produces, fetched and
decoded byte by byte, does what its strategy promises from every entry state: serve inline, call the slow
path with the right arguments on an aligned stack, or report a deopt and leave for `malloc` with the
original size, rsp and callee-saved registers. `Pages` says, strategy by strategy, which thread-local words a
page reads and writes, which slow function it calls with which slot and size, and what the handler hears;
pages of different slots never touch each other's words. `Composition` joins the two halves: a call of a compiled
free-list page takes memory that shows a reached state of the reclamation protocol to memory that shows
the state its pop, or its refill, leads to, and leaves all the next call relies on. That the refill can be
served as assumed is proved for every reached state with an empty list; two calls by a fresh thread, one
refilled and one popped, return different chunks.

**Retiring code pages** (`Epoch`, `EpochSteps`, `EpochResults`, `SafePoints`, `Deopt`, `Dispatch`, `Probing`). Threads
register on a lock-free list, pass safe points every 32 calls, look routines up through generation-stamped
inline caches, run them, fail guards; the background thread installs, drains, bumps the epoch, walks the
thread list one word at a time and unmaps. No registered thread ever runs or holds an unmapped page, and
an unmapped page is out of reach of every thread. A thread is registered exactly from its 32nd call on, and
every 32nd call publishes the current epoch. Registration is needed: a schedule is given that unmaps
a page under a thread still before its 32nd call, and exactly when a drain does so. `Deopt` and `Dispatch`
are the arrays behind the protocol's queue, pending list, table and caches, and each operation on them
leaves what the protocol's steps lead to.

**The analyzer** (`Histogram`, `HistogramStore`, `Ranking`, `KsTest`, `ThreadDist`, `Analyzer`,
`PhaseMachine`, `Summaries`, `History`, `Convergence`, `Drift`, `Picker`, `Choices`). The sparse histogram stands for the dense array it replaced; the merge-walk finds
the largest gap between two distribution functions over all 4096 sizes; the majority counter is sound and
complete; a blacklisted site is never compiled again; the oracle replay bounds the online one. `History`
takes a site's own events and resets out of any run over any number of sites, and shows its summary to be
a function of them. On that history stand the exact conditions of the three decisions: `Convergence` says when a
full window compiles the site, `Drift` when the next one deoptimises it, `Choices` which strategy it is
given. On the way it turns out that one of the picker's two ratios never decides: a free is attributed to a
site only when it matches the top of its stack, so the LIFO count is never below the vote for the freeing site. One
property fails: a site can be marked compiled although the compiler refuses the strategy chosen for it.
`Picker` proves exactly when, at the step of any run that compiles a site: the list to be threaded has
chunks smaller than a pointer. It gives two runs of the analyzer that end so, one choosing several lists,
one a single list. A site also stays without a page once 4096 pages were produced (`Codegen`).

**Two more structures and a queue** (`Shadow`, `Replay`, `Ring`). The shadow table's deletion by
reinsertion, also in a completely full table; the trace resolver and replay harness; the trace ring.

`Lists` and `Probing` hold what several of these share. Step systems assume sequential consistency.
Doubles are reals. `mmap` returns fresh ranges below 2^48 (the address is a parameter), clients free only
chunks they hold, and counters other than `live_chunks` do not exceed their width.

Where comments and code differ, the code is followed: producer-consumer sites get their own routine, not
the free-list one (`src/codegen/codegen.cpp:32`); `top_k_modes` stops when the cumulative count reaches
the target, not only when it exceeds it (`src/analysis/histogram.h:94`); the shadow table reinserts the
cluster rather than shifting it (`src/shadow/shadow.cpp:111`); pages wait for registered threads only,
not for all (`src/deopt/deopt.h:24`).

## Model

| member | source | states |
|---|---|---|
| Segments.ChunkInside | src/seg/segment.h:39-58 | every chunk lies inside its segment's payload and masking its address finds the segment |
| Segments.ChunksApart | src/seg/segment.h:39-53 | chunks of one segment do not overlap |
| Segments.CarvedIsAll | src/codegen/slow_init.cpp:163-170 | carving yields every chunk of the segment exactly once |
| Reclamation.InitInv | src/seg/segment.cpp:194-215 | the invariant holds before anything is mapped |
| ReclamationSteps.AllocPopKeeps | src/codegen/emitter.cpp:264-376 | popping a local list keeps the invariant and touches mapped memory only |
| ReclamationSteps.HarvestKeeps | src/codegen/slow_init.cpp:140-147 | exchanging the remote queue keeps the invariant, found empty or not |
| ReclamationSteps.StoreLiveKeeps | src/codegen/slow_init.cpp:148-152 | storing the counter keeps the invariant |
| ReclamationSteps.StoreRetiredKeeps | src/codegen/slow_init.cpp:153 | setting the retired flag after the counter keeps the invariant |
| ReclamationSteps.NewSegmentKeeps | src/codegen/slow_init.cpp:156-174 | mapping, registering and carving a segment keeps the invariant |
| ReclamationSteps.CarvedChain | src/codegen/slow_init.cpp:163-174 | what carving leaves in memory is a null-terminated list of all chunks |
| ReclamationSteps.ReadRetiredKeeps | src/codegen/slow_init.cpp:101-113 | a free that reads the flag and owner is routed without breaking the invariant |
| ReclamationSteps.PushLocalKeeps | src/codegen/slow_init.cpp:107-109 | the owner's push keeps the invariant |
| ReclamationSteps.WriteLinkKeeps | src/seg/segment.cpp:181-183 | a pusher may write its chunk's link before it owns the queue |
| ReclamationSteps.CasKeeps | src/seg/segment.cpp:184-187 | the compare-and-swap, succeeding or failing, keeps the invariant |
| ReclamationSteps.CounterPositive | src/codegen/slow_init.cpp:102-104 | a counter about to be decremented is positive and fits 32 bits |
| ReclamationSteps.DecrementKeeps | src/codegen/slow_init.cpp:102-104 | the decrement does not underflow and keeps the invariant |
| ReclamationSteps.ClientStoreKeeps | src/seg/segment.cpp:180-183 | the client may write any word into a chunk it holds, the word that is the link once freed |
| ReclamationSteps.SweepReadKeeps | src/seg/segment.cpp:226-228 | reading an indexed header's flag is safe and keeps the invariant |
| ReclamationSteps.SweepWeighKeeps | src/seg/segment.cpp:229-236 | a segment joins the snapshot only when retired with counter zero, in every reap mode |
| ReclamationSteps.ReclaimableIsEmpty | src/seg/segment.cpp:217-245 | every chunk of a retired segment with counter zero was freed and counted |
| ReclamationSteps.UnregisterKeeps | src/seg/segment.cpp:266-280 | swap-remove leaves the index duplicate-free and without the segment |
| ReclamationSteps.UnmapKeeps | src/seg/segment.cpp:240-251 | unmapping a snapshot member keeps the invariant |
| ReclamationSteps.DecommitKeeps | src/seg/segment.cpp:63-72 | so does decommitting it |
| ReclamationSteps.StepKeeps | src/seg/segment.cpp:180-247 | no enabled step faults and every step keeps the invariant |
| ReclamationSteps.RunsAreSafe | src/seg/segment.cpp:217-245 | no schedule of allocations, refills, frees and sweeps, in any reap mode, touches unmapped memory |
| ReclamationResults.HeldIsMapped | src/codegen/slow_init.cpp:134-175 | memory a client holds lies inside a mapped segment |
| ReclamationResults.ChunksDisjoint | src/codegen/slow_init.cpp:134-215 | chunks of mapped segments never overlap, whoever has them |
| ReclamationResults.ReclaimedOnlyWhenEmpty | src/seg/segment.cpp:217-251 | when a segment is about to be reclaimed, no chunk of it is held, listed, queued or in the middle of a free |
| ReclamationResults.LiveCountsOutstanding | src/seg/segment.h:27 | after retirement live_chunks is the number of chunks held, in the middle of a free or stranded |
| ReclamationResults.ReclaimableExactly | src/seg/segment.cpp:226-229 | a retired segment is reclaimable if and only if none of its chunks is held, in flight or queued |
| ReclamationResults.RemoteQueueIsChain | src/seg/segment.cpp:180-192 | the remote queue is always a null-terminated list of exactly the chunks pushed and not harvested |
| ReclamationResults.HarvestTakesAll | src/codegen/slow_init.cpp:142-147 | a harvest serves the first queued chunk and makes the rest, in order, the local list |
| Sweeping.SweepIsExact | src/seg/segment.cpp:217-251 | an uninterrupted sweep gives back exactly the indexed segments its mode picks, unmapped or decommitted, and changes nothing else |
| Sweeping.EagerSweep | src/seg/segment.cpp:226-244 | in eager mode those are exactly the indexed ones retired with counter zero |
| Sweeping.UnlistedExactly | src/seg/segment.cpp:266-280 | unregistering one after the other leaves the rest of the index, each entry once |
| Stranding.ReclaimableStays | src/seg/segment.cpp:218-244 | over any run, a segment retired with counter zero stays so while it is mapped; and such is all that the reaper's snapshot names |
| Stranding.StrandedExactly | src/codegen/slow_init.cpp:137-153 | at the step that sets the flag, the chunks queued, loading, linking or swapping pin the segment in every continuation; later the stranded chunks are the queued ones and those whose compare-and-swap succeeded, and no others |
| Stranding.CanBeStranded | src/seg/segment.cpp:180-188 | each of those chunks is stranded by some continuation |
| Stranding.StrandedForever | src/codegen/slow_init.cpp:137-139 | a chunk on a retired segment's queue stays there and keeps its segment mapped with a non-zero counter, whatever happens later |
| Leak.LeakHappens | src/codegen/slow_init.cpp:101-153 | for every chunk size and mode, a push landing after the owner's empty harvest strands its chunk, before the flag is set or after: two schedules |
| Leak.LeakIsReached | src/codegen/slow_init.cpp:137-153 | a stranded chunk occurs in a reached state, whose segment no continuation unmaps |
| Refill.Process.Carve | src/codegen/slow_init.cpp:163-173 | the carving loop writes exactly the links of a list of all chunks, highest address first |
| Refill.Process.MpscHarvest | src/seg/segment.cpp:190-192 | the exchange returns the queue and leaves none |
| Refill.Process.MpscPush | src/seg/segment.cpp:180-188 | after any number of spurious failures the chunk heads the queue and links to the old head |
| Refill.Process.Refill | src/codegen/slow_init.cpp:134-215 | a refill, of either free-list kind, leads where its protocol steps lead and returns a chunk now held |
| Refill.Process.FreeManaged | src/codegen/slow_init.cpp:101-130 | a free leads where its protocol steps lead, on every route |
| Refill.HarvestPath | src/codegen/slow_init.cpp:140-147 | the steps of a refill that finds a remote queue |
| Refill.RetirePath | src/codegen/slow_init.cpp:148-174 | the steps of a refill that retires its segment and maps another |
| Refill.FreeRuns | src/codegen/slow_init.cpp:101-130 | retired: counted; owner: on the list; anyone else: on the queue |
| Refill.CountChain | src/codegen/slow_init.cpp:31-36 | walking a harvested chain ends and counts its chunks |
| Serving.RefillLeads | src/codegen/slow_init.cpp:134-215 | a refill, whichever way it goes, writes one list head and the links of the segment it maps, and hands over a chunk nobody held |
| Serving.LinksApart | src/codegen/slow_init.cpp:163-173 | in every reached state no two links overlap |
| Managed.StepMarks | src/seg/segment.cpp:247-280 | marking at registration and clearing before the munmap keeps the bits exactly the mapped segments but one about to be unmapped |
| Managed.ChunkIsManaged | src/trace/trampoline.cpp:219-226 | in every reached state any pointer into a chunk held or in the middle of a free is found managed |
| Managed.Follow | src/seg/segment.cpp:253-280 | the pagemap's words and the index follow each step of the protocol |
| Managed.Drive | src/seg/segment.cpp:253-289 | and so every run |
| Pagemap.BitsApart | src/seg/segment.cpp:50-58 | distinct segment bases own distinct pagemap bits |
| Pagemap.Registry.IsManaged | src/seg/segment.cpp:282-289 | any address is managed if and only if it lies in a registered segment |
| Pagemap.Registry.Register | src/seg/segment.cpp:253-264 | the segment is marked even past the index cap |
| Pagemap.Registry.Unregister | src/seg/segment.cpp:266-280 | only that segment is unmarked; the index is swap-removed and stays duplicate-free and registered |
| Paired.Slot.Alloc | src/codegen/emitter.cpp:59-231 | live chunks of a paired slot stay disjoint below the cursor; exactly when it deopts |
| Paired.Slot.Free | src/codegen/slow_init.cpp:66-73 | the cursor rewinds exactly for the owner's topmost chunk; any other free drops it |
| Paired.Slot.RunNested | src/codegen/slow_init.cpp:66-100 | any well-nested sequence of allocations and frees leaves cursor and live chunks as they were, but for a first segment |
| X86.DecodeEncode | src/codegen/emitter.cpp:9-19 | decoding the emitted bytes gives back the instruction and its length |
| Emitter.Writer.Patch | src/codegen/emitter.cpp:59-231 | overwriting the rel8 byte changes that branch and nothing else |
| Emitter.Writer.EmitRung | src/codegen/emitter.cpp:529-634 | one rung of the multi-class ladder, branches patched |
| Emitter.EmitBumpAlloc | src/codegen/emitter.cpp:59-231 | the buffer holds exactly the bump routine, in under 200 bytes, or is refused untouched |
| Emitter.EmitFreeListAlloc | src/codegen/emitter.cpp:264-376 | the same for the free-list routine |
| Emitter.EmitEpochArena | src/codegen/emitter.cpp:409-507 | the same for the epoch-arena routine |
| Emitter.EmitPcAlloc | src/codegen/emitter.cpp:663-754 | the same for the producer-consumer routine |
| Emitter.EmitMultiFreeListAlloc | src/codegen/emitter.cpp:529-634 | the same for the multi-class ladder, in under 512 bytes |
| Routines.BumpRoutineRuns | src/codegen/emitter.cpp:24-57 | the decoded bytes guard, bump, initialise on first use or deopt, as the layout says |
| Routines.RefillRoutineRuns | src/codegen/emitter.cpp:663-754 | the decoded bytes guard, bump, or call the refill |
| Routines.FreeListRoutineRuns | src/codegen/emitter.cpp:264-376 | the decoded bytes guard, pop, or call the refill |
| Routines.LadderRuns | src/codegen/emitter.cpp:529-634 | the first matching class is popped or refilled; no match deopts |
| Routines.DeoptRuns | src/codegen/emitter.cpp:48-56 | the epilogue calls the handler with site, page and reason, then leaves for malloc with the original size and stack |
| Codegen.CompiledPageRuns | src/codegen/codegen.cpp:30-160 | every compiled page does what its strategy promises, from every entry state |
| Codegen.Compiler.Compile | src/codegen/codegen.cpp:30-160 | a page is produced if and only if the size, the strategy and the classes are admissible and a slot is left, takes that slot, and holds the strategy's routine |
| Pages.OwnedApart | src/codegen/tls.h:17-48 | the words of different slots, of one array or of two, do not overlap |
| Pages.BumpPage | src/codegen/codegen.cpp:66-84 | a bump or paired page bumps its slot's own two words of tl_bumps, calls its own slow-init with slot and size on first use, and otherwise reports site, page and region exhaustion and leaves for malloc |
| Pages.ListPage | src/codegen/codegen.cpp:85-100 | a free-list page pops its slot's head of tl_freelists or calls freelist_refill with slot and size; another size is reported as size drift |
| Pages.PcPage | src/codegen/codegen.cpp:101-119 | a producer-consumer page bumps its slot's words of tl_bumps or calls pc_refill |
| Pages.LadderPage | src/codegen/codegen.cpp:120-136 | a multi-size page pops the head of the first class of the requested size or calls multi_refill with slot, size and class; with none it reports size drift |
| Pages.ArenaPage | src/codegen/codegen.cpp:137-155 | an arena page bumps the first two of its slot's three words of tl_arenas or calls arena_reset_alloc |
| Pages.SlotsDoNotInterfere | src/codegen/tls.h:44-48 | a page serving from its own slot leaves every word of every other slot as it was |
| Composition.PageIsProtocolRun | src/codegen/emitter.cpp:264-376 | from a memory showing a reached state, a call of a compiled free-list page, single or multi-size, leads to one showing what a pop, or the refill's steps, lead to; it returns a chunk they hand over and leaves the next call's requirements met |
| Composition.RefillCanBeServed | src/codegen/slow_init.cpp:134-215 | for every reached state with an empty list there is a callee that refills as that asks, harvesting, retiring or mapping |
| Composition.TwoCalls | src/codegen/emitter.cpp:264-376 | a fresh thread's first call is refilled, its second pops without a call, and the two chunks differ and are both held |
| Composition.StoreShows | src/seg/segment.cpp:180-183 | the client's write to a held chunk disturbs no list and no other link |
| Composition.PageServesList | src/codegen/emitter.cpp:529-634 | the first list of the requested size is popped, or its refill asked, and nothing else called |
| Composition.PopShows | src/codegen/emitter.cpp:264-376 | writing the head chunk's link to the list's cell shows the popped state, every other list and link unchanged |
| EpochSteps.Registers | src/deopt/deopt.cpp:53-62 | joining the thread list by compare-and-swap keeps the invariant |
| SafePoints.RegisteredExactly | src/trace/trampoline.cpp:162-163 | in every reached state a thread is registered if and only if it has made 32 calls and is not just then joining the list |
| SafePoints.SafeFromThen | src/deopt/deopt.cpp:53-87 | from its 32nd call on a thread never runs or holds an unmapped page |
| SafePoints.FirstSafePoint | src/deopt/deopt.cpp:53-87 | the 32nd call, uninterrupted, puts the thread in front of the list and publishes the current epoch as its own |
| SafePoints.LaterSafePoint | src/deopt/deopt.cpp:82-87 | every later 32nd call publishes the current epoch and changes nothing else |
| SafePoints.OtherCall | src/trace/trampoline.cpp:162-163 | any other call is only counted |
| SafePoints.FailDisabled | src/deopt/deopt.cpp:70-73 | with deopts switched off a failing guard leaves table, generation and queue alone |
| EpochSteps.PublishesEpoch | src/deopt/deopt.cpp:82-87 | a safe point keeps the invariant |
| EpochSteps.ChecksCache | src/trace/trampoline.cpp:168-172 | a generation check, hit or miss, keeps the invariant |
| EpochSteps.FillsCache | src/trace/trampoline.cpp:173-178 | a lookup that fills the cache keeps the invariant |
| EpochSteps.ClearsEntry | src/dispatch/dispatch.cpp:54-58 | clearing a table entry keeps the invariant |
| EpochSteps.BumpsGen | src/dispatch/dispatch.cpp:58 | after the bump no cache that names the page can hit |
| EpochSteps.EnqueuesPage | src/deopt/deopt.cpp:74-79 | enqueueing a cut-off page keeps the invariant, full queue or not |
| EpochSteps.StoresRoutine | src/dispatch/dispatch.cpp:46-52 | installing a page keeps the invariant |
| EpochSteps.Retires | src/deopt/deopt.cpp:100-104 | a page is retired at an epoch no holder has passed |
| EpochSteps.ReadsEpoch | src/deopt/deopt.cpp:109-113 | a scanned thread holds no page older than the minimum so far |
| EpochSteps.FollowsList | src/deopt/deopt.cpp:109-113 | walking on, while threads register, misses no holder |
| EpochSteps.Sweeps | src/deopt/deopt.cpp:115-123 | the compaction unmaps only pages no registered thread holds |
| EpochSteps.StepKeeps | src/deopt/deopt.cpp:53-124 | every step keeps the invariant |
| EpochSteps.ExecKeeps | src/deopt/deopt.cpp:53-124 | so does every schedule |
| EpochResults.RegisteredRunsMapped | src/deopt/deopt.cpp:8-14 | a registered thread never runs or holds an unmapped page |
| EpochResults.UnmappedIsUnreachable | src/dispatch/dispatch.cpp:46-66 | an unmapped page is in no table entry, no cache that can hit and no registered thread's hands |
| EpochResults.FoundIsMapped | src/trace/trampoline.cpp:168-178 | whatever any thread finds through cache or table is mapped |
| EpochResults.GoneGainsNoHolder | src/deopt/deopt.cpp:70-80 | once enqueued, a page gains no new holder |
| EpochResults.DrainIsExact | src/deopt/deopt.cpp:106-124 | an uninterrupted drain unmaps exactly the entries older than the least epoch and keeps the rest in order |
| EpochResults.DrainReclaims | src/deopt/deopt.h:28-31 | an entry goes if and only if every registered thread passed a safe point since its retirement |
| EpochResults.UnregisteredIsNotProtected | src/trace/trampoline.cpp:162-163 | a page can be unmapped under a thread that has not registered |
| EpochResults.UnregisteredHolder | src/deopt/deopt.cpp:106-124 | an uninterrupted drain unmaps the page such a thread holds if and only if a pending entry names it and every registered thread passed a safe point since |
| Deopt.Queues.Enqueue | src/deopt/deopt.cpp:74-79 | the ring appends, or drops when full, as the protocol's step does |
| Deopt.Queues.Dequeue | src/deopt/deopt.cpp:91-98 | the ring hands over its first page, as the protocol's step does |
| Deopt.Queues.Retire | src/deopt/deopt.cpp:102-103 | the pending array appends, or drops when full, as the protocol's step does |
| Deopt.WholeSweep | src/deopt/deopt.cpp:115-123 | the protocol's compaction, step by step, leaves what Compact leaves and unmaps what it returns |
| Deopt.Queues.Compact | src/deopt/deopt.cpp:115-123 | in place, reclaims exactly the old entries, in order, and keeps the others, in order |
| Dispatch.Dispatcher.Find | src/dispatch/dispatch.cpp:23-30 | the id's slot, or its free slot, or none exactly when other ids fill the table |
| Dispatch.Dispatcher.Install | src/dispatch/dispatch.cpp:46-52 | the map gains the routine and the generation moves; refused only when 4096 other ids fill the table |
| Dispatch.Dispatcher.Revert | src/dispatch/dispatch.cpp:54-60 | the id's routine is cleared, if it was ever installed |
| Dispatch.Dispatcher.Lookup | src/dispatch/dispatch.cpp:62-66 | answers what the map says |
| Dispatch.Dispatcher.Route | src/trace/trampoline.cpp:168-177 | a cache hit or a lookup answers what the table says |
| Dispatch.InstallShows | src/dispatch/dispatch.cpp:46-52 | what Install leaves, the protocol's installing steps lead to |
| Dispatch.RevertShows | src/dispatch/dispatch.cpp:54-60 | what Revert leaves, a failing thread's clear and bump lead to |
| Dispatch.RouteShows | src/trace/trampoline.cpp:168-178 | what Route answers and caches, a thread's generation check and lookup lead to |
| Dispatch.RouteStored | src/dispatch/dispatch.cpp:46-60 | writing a slot updates the map at that id only |
| Probing.Absent | src/shadow/shadow.cpp:99-105 | an empty slot on the probe path shows the key is absent |
| Probing.Closed | src/shadow/shadow.cpp:115-122 | at the first empty slot every key is reachable again |
| Probing.MovesBack | src/shadow/shadow.cpp:116-120 | a key moved into the hole leaves one hole, its own slot |
| Probing.MovesNearer | src/shadow/shadow.cpp:115-122 | each move lowers the total displacement, so deletion ends even in a full table |
| Shadow.Table.ValidateAlloc | src/shadow/shadow.cpp:56-92 | each verdict exactly when it is due; only a recorded chunk changes the table |
| Shadow.Table.Locate | src/shadow/shadow.cpp:97-110 | finds the pointer's slot if and only if it is tracked |
| Shadow.Table.Erase | src/shadow/shadow.cpp:94-124 | removes exactly that pointer and keeps every other one reachable |
| Histogram.HistIsDense | src/analysis/histogram.h:17-48 | without overflow the entries are the dense counters |
| Histogram.OverflowExactly | src/analysis/histogram.h:32-48 | overflow exactly when more than 64 distinct sizes were recorded |
| Histogram.HistOfSound | src/analysis/histogram.h:32-48 | sizes stay distinct, and total is the sum of counts without overflow |
| HistogramStore.ExactHistogram.Record | src/analysis/histogram.h:32-48 | the array and its counters after one recording |
| HistogramStore.ExactHistogram.SortedModes | src/analysis/histogram.h:128-140 | the insertion sort gives the sorted entries |
| HistogramStore.SortedIsSorted | src/analysis/histogram.h:125-140 | which are ascending and the same entries |
| HistogramStore.ExactHistogram.DominantIndex | src/analysis/histogram.h:54-65 | the entry with the highest count, smallest size first; -1 exactly when empty |
| HistogramStore.ExactHistogram.Quantile | src/analysis/histogram.h:81-92 | the size at which a walk over the dense counters passes the target |
| HistogramStore.ExactHistogram.TopKModes | src/analysis/histogram.h:97-123 | the best entries in order, until k or the coverage target |
| HistogramStore.TopIsOptimal | src/analysis/histogram.h:94-123 | no selection of as many sizes has a larger total |
| HistogramStore.CoverIsSmallest | src/analysis/histogram.h:94-96 | no smaller selection reaches the coverage target |
| Ranking.RankedIsRanked | src/analysis/histogram.h:54-65 | the ranking holds exactly the entries, best first |
| Ranking.TopIsPrefix | src/analysis/histogram.h:97-123 | however best modes are selected, they are a prefix of one ranking |
| Ranking.CoverIsClasses | src/analysis/histogram.h:97-123 | what top_k_modes writes is determined by the entries: the shortest prefix that covers the target |
| Ranking.TopIsDominant | src/analysis/histogram.h:54-70 | so is the dominant entry |
| KsTest.KsDistance | src/analysis/ks_test.h:24-44 | the merge-walk finds the largest gap over all 4096 sizes |
| KsTest.KsStable | src/analysis/ks_test.h:13-50 | the verdict compares that gap with the critical value |
| KsTest.StableSymmetric | src/analysis/ks_test.h:13-50 | the test is symmetric |
| KsTest.StableReflexive | src/analysis/ks_test.h:13-50 | a window with events and no overflow is stable against itself |
| KsTest.StableAnyOrder | src/analysis/ks_test.h:13-50 | recording order does not matter |
| KsTest.StableExactly | src/analysis/ks_test.h:13-50 | stable if and only if neither overflowed and at every size the two distribution functions are closer than 1.6276, 1.3581 or 1.2239 times the root of (na + nb) / (na nb) |
| ThreadDist.Counter.Record | src/analysis/analysis.h:53-62 | the counter after one event |
| ThreadDist.VoteInvariant | src/analysis/analysis.h:45-63 | bounds on the counter against every thread's true occurrences |
| ThreadDist.TopIsSound | src/analysis/analysis.h:45-63 | top_count never exceeds the occurrences of top_tid |
| ThreadDist.MajorityIsTop | src/analysis/analysis.h:45-63 | a strict majority is top_tid, with at least its lead as the count |
| ThreadDist.PatternIsReal | src/analysis/analysis.cpp:117-127 | a detected pattern has two different threads at 95 percent |
| ThreadDist.PatternIsFound | src/analysis/analysis.cpp:117-127 | two different threads at 97.5 percent are always detected |
| Analyzer.OracleIsUpperBound | src/analysis/analysis.cpp:207-222 | on every trace the oracle sees the same events and captures at least as many |
| Analyzer.ProcessedBounds | src/analysis/analysis.cpp:340-429 | event by event, each site's oracle summary is the online one or compiled |
| Analyzer.SumsBound | src/analysis/analysis.cpp:459-470 | so the sums compare |
| Analyzer.CapturedExactly | src/analysis/analysis.cpp:459-470 | the captured events are those of the compiled sites; what is not captured is those of the sites learning or deoptimised |
| PhaseMachine.AdvancedOk | src/analysis/analysis.cpp:86-205 | a full window counts towards convergence, resets it, or compiles the site |
| PhaseMachine.CompiledMeans | src/analysis/analysis.cpp:86-205 | a compiled site saw bar + 1 full windows in a row, each stable against the one before, none overflowed |
| PhaseMachine.FirstCompileBound | src/analysis/analysis.h:89-92 | first_compile_events is at least (bar + 1) windows |
| PhaseMachine.RepeatedWindowCompiles | src/analysis/analysis.cpp:86-205 | a site that allocates one window over and over compiles at event (bar + 1) windows, so the bound is met |
| PhaseMachine.BlacklistedForever | src/analysis/analysis.cpp:94-105 | a blacklisted site is never compiled again |
| PhaseMachine.BlacklistedExactly | src/analysis/analysis.cpp:472-493 | blacklisted if and only if reset as often as the limit |
| History.SiteIsItsHistory | src/analysis/analysis.cpp:340-429 | after any run over any number of sites a summary is its own events and resets folded, whatever others did in between |
| History.SiteGoesOn | src/analysis/analysis.cpp:340-429 | so is what becomes of a summary from any table on |
| History.SummaryTallies | src/analysis/analysis.cpp:340-493 | events, frees, deopts, both thread distributions and the freeing-site vote are those of the history, and the site is blacklisted if and only if the history holds as many resets as the limit |
| History.RunMatches | src/analysis/analysis.cpp:356-399 | every free of unmanaged memory in a history was of the chunk on top of the site's stack |
| History.LifoNeverDecides | src/analysis/analysis.cpp:140-147 | in every run the LIFO count lies between the vote for the freeing site and the frees that site made, so the LIFO ratio is always met |
| Convergence.CompilesExactly | src/analysis/analysis.cpp:86-205 | the event that fills a window compiles the site if and only if each of its last bar windows is stable against the one before, it is not blacklisted and the mode not trace-only; the windows are the end of its allocations |
| Convergence.TraceOnlyNever | src/analysis/analysis.cpp:94-105 | in trace-only mode no run compiles anything |
| Convergence.FirstCompileExactly | src/analysis/analysis.h:89-92 | first_compile_events is the number of allocations up to the event that first compiled the site, whatever follows |
| Drift.DriftExactly | src/analysis/analysis.cpp:207-222 | a compiled site fed its next window is deoptimised for drift if and only if the replay is online and the window is not stable against the baseline; otherwise it stays compiled with an empty window |
| Drift.SameSizesStay | src/analysis/analysis.cpp:207-222 | a window of the sizes it was compiled with, in any order, never deoptimises a site |
| Drift.CompiledClear | src/analysis/analysis.cpp:207-222 | a site no reset ever named enters Compiled with an empty window |
| Drift.ReasonExactly | src/analysis/analysis.cpp:472-493 | a reset takes its site to Deopt and records a specific reason, or Other where there was none; otherwise only the drift check changes the reason, to SizeDrift |
| Summaries.Table.FindOrCreate | src/analysis/analysis.cpp:76-84 | the id's summary, created if there is room |
| Summaries.Table.AdvancePrespec | src/analysis/analysis.cpp:86-205 | the field updates amount to the phase machine's step |
| Summaries.Table.CheckPostspec | src/analysis/analysis.cpp:207-222 | the same for the drift check, of which Drift.DriftExactly says what it decides |
| Summaries.Table.ProcessEvent | src/analysis/analysis.cpp:340-429 | the same for a whole event, allocation or free |
| Summaries.Table.ResetCallSite | src/analysis/analysis.cpp:472-493 | the same for a reset |
| Summaries.Table.Capturable | src/analysis/analysis.cpp:459-470 | the sums over all summaries |
| Picker.Choose | src/analysis/analysis.cpp:117-198 | the window's queries in advance_prespec yield the request, of which the rows of Choices say what it asks for |
| Picker.RefusedExactly | src/codegen/codegen.cpp:31-57 | for every run and every action that takes a site into phase Compiled: the window the request is made from counts events of positive sizes, none lost, and the request is refused if and only if the dominant size, or with several lists a class, cannot hold a pointer and a list is what the site's frees and counts, or the override, call for |
| Picker.CompiledByAlloc | src/analysis/analysis.cpp:86-205 | only an allocation event at a site in PreSpec compiles it, by the window it fills |
| Picker.LargeSizesCompile | src/analysis/analysis.cpp:149-197 | at such a step nothing is refused when every size seen can hold a pointer |
| Picker.RefusedClass | src/analysis/analysis.cpp:149-198 | the last of 8 allocations compiles a site as a multi-size list, which is refused |
| Picker.RefusedList | src/analysis/analysis.cpp:149-198 | the last of 40 allocations compiles a site as a single list, which is refused |
| Choices.CompiledFrom | src/analysis/analysis.cpp:106-116 | at the step of any run that compiles a site its window is the last of its allocations, its counters those of its history, and its lifetime tag what its share of frees calls for |
| Choices.PatternsExactly | src/analysis/analysis.cpp:117-155 | a paired stack is asked for if and only if the majority counter over the freeing sites reaches 95 to 100 allocations, producer-consumer if and only if it does not and those over the threads are concentrated on two different ones |
| Choices.PairedStackChosen | src/analysis/analysis.cpp:138-153 | a site one other site frees, with a lead of 95 frees to 100 allocations, is compiled as a paired stack |
| Choices.PairedTraceChosen | src/analysis/analysis.cpp:356-412 | a trace of one site whose chunks another frees in stack order, 95 frees to 100 allocations, is compiled so: every free finds its site |
| Choices.ProducerConsumerChosen | src/analysis/analysis.cpp:117-155 | one thread allocating and another freeing 97.5 percent, and no site freeing in pairs, gives ProducerConsumer |
| Choices.SizesChosen | src/analysis/analysis.cpp:156-183 | with neither pattern the window decides: its most frequent size at 95 percent gives a free list, or a bump page when frees are below a tenth or no pointer fits; at 90 a free list; below that several lists |
| Choices.ClassesChosen | src/analysis/analysis.cpp:129-136 | several lists are two to four, of the most frequent sizes in order, as few as cover nine tenths of the window, or all |
| Choices.ForcedChosen | src/analysis/analysis.cpp:149-151 | an override is obeyed, for the most frequent size |
| Replay.ResolvedIsWellFormed | tools/bound_bench.cpp:116-143 | each free names a slot allocated earlier and not freed since |
| Replay.IndexIsLatest | tools/bound_bench.cpp:116-143 | a pointer resolves to its latest allocation |
| Replay.ResolvedExactly | tools/bound_bench.cpp:116-143 | an allocation fills the next slot, a free of a pointer live in the trace frees the slot of its latest allocation, any other free is skipped |
| Replay.Partition | tools/bound_bench.cpp:108-114 | freed and leaked slots partition all slots |
| Replay.Resolve | tools/bound_bench.cpp:116-143 | the resolver's operations, counts and leaked list |
| Replay.Harness.RunPass | tools/bound_bench.cpp:183-211 | a pass obtains once per allocation and conserves every pointer |
| Replay.Harness.ReclaimLeaked | tools/bound_bench.cpp:213-224 | afterwards everything obtained was freed once |
| Replay.Harness.Rounds | tools/bound_bench.cpp:183-224 | over any number of rounds each pointer obtained is freed exactly once |
| Ring.RingIsFifo | src/trace/trace.cpp:12-29 | popped then buffered events are the accepted ones in order, at most 1024 buffered; which are accepted the next four rows say |
| Ring.PushRuns | src/trace/trace.cpp:12-20 | an uninterrupted push appends its event, or changes nothing when exactly 1024 are unread |
| Ring.PopRuns | src/trace/trace.cpp:22-29 | an uninterrupted pop hands over the oldest unread event, or nothing when there is none |
| Ring.RefusedExactly | src/trace/trace.cpp:12-20 | in any interleaving a push is refused if and only if 1024 events were unread as it loaded tail |
| Ring.EmptyExactly | src/trace/trace.cpp:22-29 | in any interleaving a pop comes back empty if and only if nothing was unread as it loaded head |
| Ring.NoUnreadOverwritten | src/trace/trace.cpp:12-19 | no unread slot is overwritten |
| Ring.RunKeeps | src/trace/trace.cpp:12-29 | the ring's invariant holds over every interleaving |

## Left out

- ReclamationSteps.RunsAreSafe: covers the two free-list strategies; ProducerConsumer derives its live count from a header field its fast path does not advance, and BumpAlloc and EpochArena chunks are never freed one by one.
- ReclamationSteps.NewSegmentKeeps: mapping, registering and carving a segment nobody else knows yet is one step, taken while the index lock is free.
- ReclamationSteps.AllocPopKeeps: a pop of a thread's own list is one step, since only that thread reads or writes the list.
- ReclamationSteps.HarvestKeeps: the exchange of the queue and the read of the harvested head's link are one step, since after the exchange the chain is the harvester's alone.
- ReclamationSteps.SweepWeighKeeps: in conservative mode the lifetime tag is an arbitrary answer, so safety never rests on it.
- ReclamationResults.HeldIsMapped: thread ids are never reused; the system may reuse an exited thread's id, and threads do not exit here.
- EpochResults.RegisteredRunsMapped: pages are never-reused names, threads never exit, and nothing is said of unregistered threads beyond the schedule given.
- EpochResults.DrainReclaims: a page enqueued twice, by two threads failing the same guard, is unmapped twice; unmapping once is not claimed.
- Dispatch.Dispatcher.Install: site ids are non-zero; id 0 doubles as the empty marker.
- Codegen.CompiledPageRuns: the thread-local cells written do not overlap the return address, external functions keep the callee-saved registers and the stack above rsp, and instructions outside the page are not modelled.
- Composition.PageIsProtocolRun: a call is uninterrupted; cells, links and stack do not overlap; the refill it may call does what Refill.Process.Refill is proved to do, by an assumption on the callee that RefillCanBeServed shows can be met.
- Managed.ChunkIsManaged: is about free's lookup; a free made inside the hook itself, before initialisation or after shutdown takes another path (`src/trace/trampoline.cpp:201-211`).
- Picker.RefusedExactly: nothing is said of the page when the request is admissible but all 4096 slots are used; Codegen.Compiler.Compile says that none is then produced.
- Paired.Slot.Free: frees name a live chunk of the slot's own segment.
- Pagemap.Registry.Register: a word of the map is the set of its one bits; a segment is registered when it is not already.
- KsTest.KsStable: both sides of the comparison are squared instead of taking a square root.
- Analyzer.OracleIsUpperBound: the choice of a strategy is modelled apart, in Picker, since no phase depends on it; the owner of a freed pointer is part of the event.
- Shadow.Table.ValidateAlloc: the calls that print and abort are verdicts; the mutex makes each call one step.
- EpochArena memory: it reuses live memory by contract; only its emitted routine is covered.
- Weak-memory effects, floating-point rounding, counter wrap-around other than live_chunks.
- Wake-ups: the return value of the ring's push and the futex.
- Pointer alignment of served chunks: chunks step by the raw size.
- mmap, madvise, huge-page policy, dlsym, the bootstrap arena, environment knobs, trace files, dumps, reporting and plotting tools.
