# Marox kernel: heap, scheduler, pages, numbers

A Dafny model of the four parts of the Marox i386 kernel that carry its state and its arithmetic,
with proofs of what they promise. `dafny verify dfyconfig.toml` checks the whole project; `Basics` holds
what the parts share.

**The BGET heap** (`kernel/bget.c`). `BgetLayout`, `BgetSteps` and `BgetTheorems` say what a pool is: a row
of blocks, a list of the free ones, best fit, splitting from the tail, coalescing on both sides.
`BgetMemory`, `BgetStores` and `BgetWalk` say how it lies in memory: boundary tags in the headers and a
circular doubly linked list through the free blocks. `BgetNumbers` says it all in plain numbers: how many
bytes a request takes, where its buffer lies, what is free after each call, and which words stand in memory.
`Bget` is the code: a class over one array of memory whose methods read and write words as the C code does;
every method keeps memory an encoding of the heap and writes no payload byte of a live buffer. Memory has
one cell per byte; a word is kept whole in the cell of its first byte and storing it overwrites all four.
The configuration is the kernel's: `BestFit` and `BECtl` on, statistics, wiping and validation off, `bectl`
never called, one pool, headers of 8 bytes, quantum 4.

**The scheduler** (`kernel/thread.c`, `kernel/timer.c`, `kernel/int.c`, the wake-up in `kernel/kb.c`, and
the switch and preemption tail in `kernel/start.s`). `SchedModel` is one processor with interleaved steps,
clock and keyboard interrupts between them: threads with program points, queues as sequences, mutexes, the
interrupt and preemption flags, ticks and pages. A failed KASSERT is a state of its own, `halted`.
`SchedInv` is the invariant; `SchedPlaces`, `SchedDispatch`, `SchedLocal`, `SchedCalls`, `SchedLocks` and
`SchedLives` show that each step keeps it; `SchedRuns` draws the conclusion for runs from boot;
`SchedEffects`, `SchedTheorems`, `SchedTiming`, `SchedWraps`, `SchedOutcomes` and `SchedJoins` say what it
means: the whole state in which each call leaves the machine, one place for every thread, mutual exclusion,
no lost wakeup, lives that only move on, joins that return the right code, pages conserved, bounded waiting,
and when sleepers wake. The clock is a 32-bit word, and `sleep` keeps its promise only within limits, each
of them exact. The product of ticks overflows from 42949673 ms on (`SleepTicksExact`, `SleepFallsShort`). A
wake-up tick past the top of the clock means no sleep at all (`SleepBegins`). A wake-up tick among the
clock's last four may be passed over: with no dispatch before the clock wraps, the sleeper sleeps almost a
whole turn of the clock more (`PassedOver`). `WakesExactly` says of any run who sleeps through it, and
`SleepBoundExact` that `sleep` ends within a quantum after its ticks exactly if the wake-up tick is none of
those four. `Kernel` is the code: thread records, head and tail pointers and one `queueNext` field that
links every queue. Its methods walk and relink chains, and each is proved to do to memory what the model's
step does to sequences (`SchedLinks`, `SchedWalks` and `SchedReady` hold the lemmas), so the theorems about
runs of the model are theorems about it.

**Physical pages and page tables** (`kernel/mem.c`, `kernel/paging.c`). `PageFrames` has the free list
inside the page array, as it is and with one link cleared; `Pages` the allocator as a class and the
set-up of memory; `Paging` the directory and tables and the processor's two-level walk over them.
One expectation turned out false of the code: `freelistPageAdd` leaves the page's own link as it was and
`getFreelistPage` follows the link of the last page, so an allocator run dry may hand out a page that is
still allocated. `RunDry` is such a run, `CarefulExact` says exactly which runs keep the list sound, and
`ClearFifo` with `ClearSetUp` shows that clearing that one link is a repair for all runs.

**Numbers** (`kernel/print.c`, `kernel/string.c`). `Digits` is positional notation and `KPrint` the printer and
the parsers: the loops compute the digits, parsing inverts printing, and the number buffer is exactly
large enough.

## Model

| member | source | states |
|---|---|---|
| BgetLayout.NeedBounds | kernel/bget.c:587-599 | the size sought is a multiple of 4 with room for header, links and request; requests up to the stated limit stay within a 32-bit size |
| BgetNumbers.NeedLeast | kernel/bget.c:587-599 | it is the least multiple of 4 that is at least 16 and at least the request and 8 bytes |
| BgetLayout.Need32Exact | kernel/bget.c:587-599 | computed in a signed 32-bit word the size sought is right if and only if the request is at most 2^31 - 12; above that it is negative, so every free block seems to fit |
| BgetLayout.Need32Fails | kernel/bget.c:587-599 | the least such request, and the size it yields |
| BgetTheorems.BestFitExact | kernel/bget.c:618-693 | `bget` fails, changing nothing, iff no free block fits; otherwise it carves the first among the smallest that fit |
| BgetNumbers.AllocFails | kernel/bget.c:618-637 | a request fails if and only if every free interval has fewer bytes than it takes |
| BgetNumbers.AllocExact | kernel/bget.c:641-690 | of the block found, of x bytes at a, a request that takes n leaves x - n bytes free at a and gets the last n, if x - n is more than 16, else gets all; buffer address, live and free intervals and free list stated in these numbers |
| BgetNumbers.FirstRequest | kernel/bget.c:641-690 | the address of the first buffer in a pool of any size |
| BgetNumbers.ElevenBytes | kernel/main.c:215 | eleven bytes of the two megabytes: 20 bytes at the end of the pool |
| BgetTheorems.AllocSpans | kernel/bget.c:631-690 | a successful request adds exactly one live interval, new, of at least the size sought and at most 16 bytes more |
| BgetSteps.AllocKeeps | kernel/bget.c:574-754 | tiling, alignment, minimal sizes, no two free neighbours and the free list naming each free block once are kept by every request |
| BgetTheorems.ReleaseSpans | kernel/bget.c:825-941 | a release removes exactly the released interval from the live ones |
| BgetNumbers.ReleaseExact | kernel/bget.c:877-941 | the released block is one free interval with the free ones that touch it on either side; it is last in the free list unless a free block lies before it, and what was free behind it leaves the list |
| BgetSteps.ReleaseKeeps | kernel/bget.c:877-941 | release with coalescing on both sides keeps the layout well formed in the same pool |
| BgetTheorems.LiveDisjoint | kernel/bget.c:641-690 | two live buffers never share a byte, header included |
| BgetTheorems.Canonical | kernel/bget.c:877-941 | the blocks are determined by the live intervals: free blocks are exactly the maximal gaps |
| BgetTheorems.AllocReleaseRestores | kernel/bget.c:574-941 | releasing what was just allocated restores the blocks; carved is the first smallest entry of the free list, which stays in place if its block was split and else moves to the end, so the heap is as before iff the block was split or its entry was the last |
| BgetTheorems.AllReleased | kernel/bget.c:825-941 | releasing all live buffers in any order leaves one free block that is the whole pool |
| BgetTheorems.ReleasedIsEnough | kernel/bget.c:825-941 | right after a release every request that fitted the released buffer succeeds |
| BgetTheorems.RunsKeep | kernel/bget.c:574-941 | over any run of requests and releases the layout stays well formed and free and allocated bytes add up to the pool |
| BgetWalk.HeadersDecode | kernel/bget.c:525-545 | walking memory by absolute block size from the pool's start meets exactly the blocks and ends at the sentinel |
| BgetWalk.LinksDecode | kernel/bget.c:618-630 | following forward links from the list head meets exactly the free list and comes back |
| BgetWalk.EncodingUnique | kernel/bget.c:525-560 | one memory encodes at most one heap over a pool |
| BgetNumbers.HeaderWords | kernel/bget.c:501-507 | where a block has its size, how the sign tells live from free, where a free one has its back tag, and the value of the sentinel |
| BgetNumbers.LinkWords | kernel/bget.c:519-528 | where a free block and the static head have their forward and back links, and to whom |
| BgetNumbers.PoolWords | kernel/bget.c:1022-1050 | the eight words of a fresh pool |
| BgetResize.ReleaseSpares | kernel/bget.c:825-941 | releasing one live buffer leaves another live, in its place and of its size |
| Bget.BgetHeap.constructor | kernel/bget.c:545-556 | the static list head points to itself and nothing else is written |
| Bget.BgetHeap.Bpool | kernel/bget.c:989-1052 | from an empty list, the region becomes a pool of one free block closed by a sentinel; bytes elsewhere stay |
| Bget.BgetHeap.Chain | kernel/bget.c:1025-1030 | a block is hung at the end of the circular list, in four link stores |
| Bget.BgetHeap.Unchain | kernel/bget.c:664-667 | a list entry is skipped by both its neighbours, its tags and the asserted back links intact |
| Bget.BgetHeap.Scan | kernel/bget.c:618-627 | the loop over the links finds the first smallest block that fits, or the list head |
| Bget.BgetHeap.TakeTail | kernel/bget.c:641-658 | a split hands out the tail of the block, writes no live payload, and memory encodes the new heap |
| Bget.BgetHeap.TakeWhole | kernel/bget.c:659-690 | a block too small to split leaves the list whole, writes no live payload, and memory encodes the new heap |
| Bget.BgetHeap.Bget | kernel/bget.c:574-754 | memory and result follow best-fit allocation exactly; no live payload byte or byte outside the pool changes, and on failure no byte at all |
| Bget.BgetHeap.MergeBack | kernel/bget.c:877-891 | a free predecessor grows over the buffer, found through the back tag |
| Bget.BgetHeap.AppendFree | kernel/bget.c:892-904 | otherwise the buffer joins the end of the free list, its back tag still to be set |
| Bget.BgetHeap.MergeNext | kernel/bget.c:911-925 | a free successor leaves the list and its bytes join the block before it |
| Bget.BgetHeap.TakeNext | kernel/bget.c:910-941 | after the optional merge the back tag that follows is set and memory encodes the joined heap again |
| Bget.BgetHeap.Brel | kernel/bget.c:825-941 | the whole release on memory equals the release of the layout; no other live payload byte changes and all internal assertions hold |
| Bget.BgetHeap.MoveAndRelease | kernel/bget.c:817-820 | contents copied before the release survive it and its coalescing |
| Bget.BgetHeap.Bgetr | kernel/bget.c:790-821 | on success the old contents, up to the smaller size, are in the new buffer after the old one is gone; on failure nothing changed; other payloads are kept |
| KString.CopiedAt | kernel/string.c:12-19 | after a forward copy the destination holds the source's bytes, or, if it begins inside the source, the bytes before it over and over; all else is as before |
| KString.CopiedApart | kernel/string.c:12-19 | a destination that does not begin inside the source gets exactly the source's bytes |
| KString.Memcpy | kernel/string.c:12-19 | the loop is that forward copy, overlapping or not |
| SchedPlaces.EnqueuePlaces | kernel/thread.c:135-158 | a thread off all queues enters one and every thread still has one place |
| SchedPlaces.MovePlaces | kernel/thread.c:648-671 | moving waiters to the run queue keeps every queue free of repeats and the queues apart |
| SchedDispatch.ScheduleKeeps | kernel/thread.c:701-716 | a dispatch from a sound state finds a runnable thread, fires no assertion and leads to a sound state |
| SchedDispatch.ResumesQuiet | kernel/start.s:292-324 | whoever comes back from a dispatch does so with interrupts off, preemption on and a cleared tick count |
| SchedRuns.NextKeeps | kernel/thread.c:541-857 | every step of every thread, every tick and every keyboard interrupt keeps the whole invariant with no assertion failing |
| SchedRuns.BootKeeps | kernel/thread.c:744-757 | the invariant holds after boot, on any four or more free pages |
| SchedRuns.RunsKeep | kernel/thread.c:541-857 | it holds after any run, however interrupts fall between the steps |
| SchedRuns.SomeStep | kernel/thread.c:421-427 | the machine is never stuck |
| SchedRuns.NeverHalts | kernel/thread.c:499-505 | from boot no KASSERT fails, there is always a next step, and the idle thread is on the processor or runnable |
| SchedTheorems.ExactlyOnePlace | kernel/thread.c:135-190 | every thread is at exactly one of: the processor, one position of one queue, dead and awaiting its join |
| SchedTheorems.QueuesHoldThreads | kernel/thread.c:135-190 | whatever is in a queue is a thread, not null and not the current one |
| SchedTheorems.MutualExclusion | kernel/thread.c:821-857 | at most one thread is between locking and unlocking a mutex, and the mutex is locked with that owner |
| SchedTheorems.HeldMeansInside | kernel/thread.c:859-865 | `mutexHeld` is true exactly of a thread that is inside |
| SchedTheorems.LockedBySomebody | kernel/thread.c:832-833 | a locked mutex has somebody inside or is being taken this moment |
| SchedTheorems.ExitExact | kernel/thread.c:552-575 | an exit keeps the invariant if and only if the thread is inside no mutex |
| SchedTheorems.ExitInside | kernel/thread.c:552-575 | a thread that exits inside a mutex leaves it locked and owned by the dead |
| SchedTheorems.NoLostWakeup | kernel/thread.c:799-857 | waiters of a free mutex are covered by a woken, runnable one that will test again, or by the current thread inside the mutex code |
| SchedTheorems.ReaperAwake | kernel/thread.c:429-460 | the reaper never waits while the graveyard is not empty; it runs or can run |
| SchedTheorems.EveryStepLives | kernel/thread.c:262-340 | a step changes lives, the lists of the dead and the free pages only as creation, exit, a finished join or the reaper do |
| SchedTheorems.ChainIntact | kernel/thread.c:436-457 | the chain the reaper detached is cut only by the reaper, at its head, while others run, die and are buried |
| SchedTheorems.StageOnward | kernel/thread.c:318-340 | a thread never comes back from death, the graveyard or the reaper's hands, so it is buried once |
| SchedTheorems.EntersGraveyard | kernel/thread.c:329-340 | it is buried by its own exit if nobody may join it, else only by its owner's join after its death |
| SchedTheorems.FreedByReaper | kernel/thread.c:299-312 | a thread disappears only from the head of the reaper's chain, and exactly its own pages are then freed |
| SchedTheorems.LivesBalance | kernel/thread.c:262-340 | over any run, creations, burials and frees of the record on a page alternate |
| SchedTheorems.BuriedOnce | kernel/thread.c:318-340 | between two creations on its page a thread is buried at most once and freed at most once |
| SchedTheorems.JoinFindsCode | kernel/thread.c:552-606 | the code given to `exit` is what a later join of that thread finds, over any run in between |
| SchedTheorems.OneOwner | kernel/thread.c:262-312 | a page is free once or belongs to exactly one thread |
| SchedTheorems.PagesConserved | kernel/thread.c:262-312 | no step loses a page or makes one up |
| SchedTheorems.RunsConserve | kernel/thread.c:262-312 | nor does any run |
| SchedTiming.BoundedWaiting | kernel/timer.c:37-46 | if every tick finds preemption enabled, the thread at index k of the run queue gets the processor within 5(k+1) ticks, whatever threads do |
| SchedTiming.WaitStep | kernel/thread.c:499-505 | one step brings a waiting thread to the processor or leaves it with at least as many fewer ticks to wait as have passed |
| SchedTiming.NeverEarly | kernel/thread.c:465-486 | until its tick has come a sleeper stays asleep, over any run |
| SchedTiming.ClockRuns | kernel/timer.c:29-31 | over any run the clock is its start plus the ticks, in 32 bits |
| SchedTiming.SleepTicksExact | kernel/thread.c:617-618 | `sleep` computes the time asked for if and only if it is below 42949673 ms; from there on the product has overflowed and it falls short by more than a quantum |
| SchedTiming.SleepTicksWrap | kernel/thread.c:617-618 | the least such argument: almost twelve hours asked for, one tick slept |
| SchedTiming.SleepBegins | kernel/thread.c:620-626 | the caller is asleep after `sleep` if and only if its wake-up tick does not pass the top of the 32-bit clock; otherwise it is runnable at once |
| SchedTiming.SleepLasts | kernel/thread.c:614-628 | below 42949673 ms and with its wake-up tick on the clock, the caller does not run before the milliseconds asked for, in whole ticks and at least one, are over |
| SchedTiming.SleepEnds | kernel/thread.c:614-628 | if every tick finds preemption enabled and the wake-up tick is none of the clock's last four, the caller is awake again within a quantum after the ticks it sleeps |
| SchedTiming.SleepFallsShort | kernel/thread.c:614-628 | from 42949673 ms on it is then awake before the time asked for has passed |
| SchedTiming.NeverLate | kernel/thread.c:465-486 | if every tick finds preemption enabled nobody is asleep while the 32-bit clock shows a quantum or more past its tick; it shows less again once it has wrapped |
| SchedWraps.WakesExactly | kernel/thread.c:465-486 | over any run, across the wrap of the clock too, a sleeper sleeps on if and only if no dispatch finds the clock at or past its tick |
| SchedWraps.PassedOver | kernel/thread.c:465-486 | for each of the clock's last four ticks: if the quantum of the current thread lasts to the top, whoever sleeps until that tick sleeps through any run that does not bring the clock round to it again |
| SchedWraps.MissRun | kernel/thread.c:465-486 | from any sound state with such a sleeper there is a run, preemption on at every tick, that passes its tick over |
| SchedWraps.SleepBoundExact | kernel/thread.c:614-628 | in all runs with preemption on at every tick, the caller of `sleep` is awake within a quantum after the ticks it sleeps, if and only if the wake-up tick is none of the clock's last four |
| SchedTiming.DuePartition | kernel/thread.c:465-486 | waking splits the sleep queue into exactly the expired threads and the others |
| SchedTiming.DueStable | kernel/thread.c:465-486 | both parts keep their order |
| SchedOutcomes.CallsOpen | kernel/thread.c:799-857 | a thread at its own code can be interrupted and yield; all but the idle thread can sleep, wait and wake, lock exactly the mutexes they do not own and unlock exactly those they own |
| SchedOutcomes.YieldOutcome | kernel/thread.c:541-547 | the caller is behind all runnable threads, the expired sleepers behind it, and the first runnable one has the processor |
| SchedOutcomes.SleepOutcome | kernel/thread.c:614-628 | the caller is last in the sleep queue with its wake-up tick, or, if that has come, last in the run queue |
| SchedOutcomes.WaitOutcome | kernel/thread.c:634-642 | the caller is last in the wait queue and the first runnable thread has the processor |
| SchedOutcomes.WakeOutcome | kernel/thread.c:648-671 | all waiters, or the longest one, are at the end of the run queue in order, and nothing else changed |
| SchedOutcomes.LockOutcome | kernel/thread.c:821-837 | after the steps of locking a free mutex the caller is back at its own code, owns it and is counted to hold it, preemption and interrupts on, and nobody else moved |
| SchedOutcomes.LockWaits | kernel/thread.c:799-830 | a caller that finds the mutex locked waits behind the others, preemption enabled |
| SchedOutcomes.RetryOutcome | kernel/thread.c:807-837 | woken and back on the processor it takes the mutex if that is free |
| SchedOutcomes.RetryWaits | kernel/thread.c:807-830 | and waits again if it is not |
| SchedOutcomes.UnlockOutcome | kernel/thread.c:839-857 | after the steps of unlocking the caller is back at its own code, the mutex is free without an owner, the longest waiter, if any, is last in the run queue, the others wait on in order, preemption and interrupts are on |
| SchedOutcomes.MutexUndisturbed | kernel/timer.c:41-42 | between the steps of these calls only ticks and keys can come, and they change neither the caller's place nor any mutex nor its waiters |
| SchedOutcomes.SpawnOutcome | kernel/thread.c:723-735 | the new record on the first free page: its stacks, one reference if detached else two, last in the run queue; its creator can join it if and only if it is not detached |
| SchedOutcomes.TickOutcome | kernel/timer.c:29-47 | clock and tick count go up by one, and a thread counted four times already goes behind all runnable ones unless preemption is disabled |
| SchedOutcomes.ResumeOutcome | kernel/start.s:292-324 | back on the processor a preempted thread goes on where it was and a caller of yield, sleep or wait returns, interrupts on |
| SchedOutcomes.ExitOutcome | kernel/thread.c:552-575 | the caller is dead with its code, its joiners are runnable in order; with no owner it is in the graveyard and the reaper is roused, else it keeps one reference and is in no queue |
| SchedOutcomes.BootOutcome | kernel/thread.c:744-757 | main runs; the idle thread and the reaper, detached and on the first four free pages, are runnable in that order |
| SchedJoins.JoinBegins | kernel/thread.c:587-592 | the caller is about to test the thread, interrupts off, and may not join it again |
| SchedJoins.JoinWaits | kernel/thread.c:594-596 | while the thread is alive the caller waits in its join queue, to test again |
| SchedJoins.JoinEnds | kernel/thread.c:598-605 | found dead, the thread loses its last reference and is last in the graveyard, the reaper is roused, and the caller is back at its own code |
| SchedJoins.JoinOutcome | kernel/thread.c:587-606 | over any run from the call: it returns only by such a step, with the code of the thread's `exit`; until then the caller is in it and the thread not buried |
| SchedJoins.JoinsCode | kernel/thread.c:552-606 | the same over any run from any time at which the caller may still join, as from the creation on |
| SchedJoins.SpawnedFate | kernel/thread.c:329-340 | a thread created with an owner is not buried, over any run, before its creator's join of it ends |
| SchedJoins.OthersKept | kernel/start.s:292-324 | a step leaves the record of a thread off the processor as it is but for its sleep time and, at the end of its join, the last reference; or the reaper destroys it |
| SchedJoins.PreemptedGoesOn | kernel/start.s:292-324 | over any run: a preempted thread goes on exactly where it was, with the mutexes it held and a fresh quantum |
| SchedJoins.ReaperLoop | kernel/thread.c:429-460 | interrupts off, waiting while the graveyard is empty, yielding once it has been taken |
| SchedJoins.TakingThreads | kernel/thread.c:441-447 | the whole graveyard becomes the private chain of the reaper, interrupts on |
| SchedJoins.ReaperRound | kernel/thread.c:449-457 | all threads of the chain are gone and exactly their pages are at the end of the free list, in order |
| SchedJoins.WaitsUntilWoken | kernel/thread.c:634-671 | over any run a wait queue holds those who called `wait` and were not woken since, first come, first served |
| SchedLinks.HungLinked | kernel/thread.c:146-158 | linking one more thread behind a tail keeps all chains, through the one link field, correct and apart |
| SchedLinks.SkippedLinked | kernel/thread.c:163-185 | cutting a thread out of its chain keeps all chains correct, tails included, and leaves it in none |
| SchedLinks.ChainTaken | kernel/thread.c:438-444 | taking over a queue by its head pointer moves the whole chain |
| Kernel.Scheduler.constructor | kernel/thread.c:744-757 | boot builds main, idle thread and reaper; the chains are correct and the invariant holds |
| Kernel.Scheduler.Cli | kernel/int.c:11-14 | interrupts go off, asserted to be on |
| Kernel.Scheduler.Sti | kernel/int.c:16-19 | interrupts go on, asserted to be off |
| Kernel.Scheduler.BegIntAtomic | kernel/int.c:21-27 | interrupts are off and the caller knows what they were |
| Kernel.Scheduler.EndIntAtomic | kernel/int.c:29-34 | interrupts are back to what they were |
| Kernel.Scheduler.ContainsThread | kernel/thread.c:117-133 | the walk finds a thread iff it is in the queue; a tail it did not meet is not the thread |
| Kernel.Scheduler.EnqueueThread | kernel/thread.c:135-158 | the thread is last in its queue and every other chain is as it was |
| Kernel.Scheduler.DequeueThread | kernel/thread.c:163-190 | the walk takes the thread out, order of the others and tail right, and it is in no queue; a thread in no queue is not found and nothing changes |
| Kernel.Scheduler.WakeAll | kernel/thread.c:648-659 | all waiters are at the tail of the run queue in order, though each is relinked while the walk goes on |
| Kernel.Scheduler.WakeOne | kernel/thread.c:664-671 | the longest waiter, if any, is at the tail of the run queue |
| Kernel.Scheduler.Wake | kernel/kb.c:95-107 | one or all waiters of a queue become runnable, in order; for all, at any moment with interrupts on, as the keyboard interrupt does |
| Kernel.Scheduler.MakeRunnableAtomic | kernel/thread.c:686-692 | the thread is at the tail of the run queue, interrupts on before and after |
| Kernel.Scheduler.WakeSleepers | kernel/thread.c:465-486 | editing the list under the walk is exactly the stable partition by expiry |
| Kernel.Scheduler.GetNextRunnable | kernel/thread.c:499-505 | the head of a non-empty run queue is taken out |
| Kernel.Scheduler.SwitchToThread | kernel/start.s:303-309 | the outgoing tick count is cleared and the current thread changes |
| Kernel.Scheduler.Schedule | kernel/thread.c:701-716 | on the chains, a dispatch is the model's dispatch; its assertions hold |
| Kernel.Scheduler.Wait | kernel/thread.c:634-642 | the current thread joins the queue and another is dispatched |
| Kernel.Scheduler.Yield | kernel/thread.c:541-547 | the current thread goes behind all runnable ones |
| Kernel.Scheduler.Sleep | kernel/thread.c:614-628 | the wake-up tick is the sum of clock and ticks in 32 bits, and the thread goes to the sleep queue and gives up the processor |
| Kernel.Scheduler.ReapThread | kernel/thread.c:318-324 | the thread is in the graveyard and the reaper's waiters are runnable |
| Kernel.Scheduler.DetachThread | kernel/thread.c:329-340 | one reference less, and burial with the last |
| Kernel.Scheduler.Exit | kernel/thread.c:552-575 | joiners are roused, the own reference goes, and another thread is dispatched |
| Kernel.Scheduler.JoinStep | kernel/thread.c:594-604 | the joiner waits again, or drops the last reference to the dead thread and returns its exit code |
| Kernel.Scheduler.Lock | kernel/thread.c:821-827 | preemption is off and the caller is asserted not to hold the mutex |
| Kernel.Scheduler.LockTestStep | kernel/thread.c:799-832 | a locked mutex is waited for with preemption on again; a free one is locked |
| Kernel.Scheduler.Unlock | kernel/thread.c:839-845 | preemption is off and the caller is asserted to hold the mutex |
| Kernel.Scheduler.UnlockWakeStep | kernel/thread.c:850-854 | one waiter, if the queue is not empty, is made runnable |
| Kernel.Scheduler.CreateThread | kernel/thread.c:262-292 | a record and stacks come off the front of the free pages, with one or two references and an empty join queue |
| Kernel.Scheduler.DestroyThread | kernel/thread.c:299-312 | the record is gone and its pages are free, in order |
| Kernel.Scheduler.ReapTestStep | kernel/thread.c:436-447 | the reaper waits iff the graveyard is empty, else takes all of it |
| Kernel.Scheduler.ReapNextStep | kernel/thread.c:449-450 | the reaper is done with its chain, or reads the link of its head |
| Kernel.Scheduler.ReapFreeStep | kernel/thread.c:451-454 | whatever came between, the link it read is still right: the head is destroyed and the chain goes on from the link |
| Kernel.Scheduler.TimerIrq | kernel/timer.c:29-47 | ticks are counted and a thread past its quantum is preempted unless preemption is off |
| Kernel.Scheduler.Next | kernel/thread.c:541-857 | any step of the kernel on memory is the model's step, the chains stay correct and the invariant holds |
| PageFrames.AlignNearest | kernel/mem.c:23-35 | rounding finds the nearest multiples of 4096 below and above, for every 32-bit address; above the last page up is zero |
| PageFrames.AddressRoundTrip | kernel/mem.c:37-48 | page i lies at 0xC0000000 + 4096 i, and pages and aligned kernel addresses correspond one to one |
| PageFrames.TakeFifo | kernel/mem.c:50-69 | taking hands out the oldest available page and leaves the rest of the queue |
| PageFrames.PutFifo | kernel/mem.c:71-85 | a page put back is the newest of the queue |
| PageFrames.TakeExact | kernel/mem.c:58-65 | taking a page keeps the free list sound iff it is not the last or its link is null |
| PageFrames.StaleHead | kernel/mem.c:58-85 | after the last page went out with a stale link, the page handed out next is that link's, and it is available only if it is the very page put back |
| PageFrames.RunDry | kernel/mem.c:50-85 | a run of three pages, frees and takes after which a page still allocated heads the list |
| PageFrames.CarefulExact | kernel/mem.c:200-227 | all along a run no assertion fails and the free list is a first-in first-out queue of exactly the available pages, if and only if callers free only pages they hold and no last page with a link is taken |
| PageFrames.AmpleFifo | kernel/mem.c:200-227 | in particular if no operation of the run empties the list |
| PageFrames.RollbackExact | kernel/thread.c:262-275 | a thread creation that finds one page and puts it back keeps the list sound if and only if that page had no link |
| PageFrames.ClearFifo | kernel/mem.c:71-85 | with the link cleared on the way in, that holds of every run of callers that free only pages they hold |
| Pages.MarkedIs | kernel/mem.c:116-125 | marking a range sets every flag in it, chains available pages in order and leaves all others |
| Pages.LaidOutFree | kernel/mem.c:149-164 | after set-up the free list is every page from the end of the heap to the end of memory, in order |
| Pages.ClearSetUp | kernel/mem.c:116-125 | set up with the repaired list, the free list is the same and ends without a link, so every such run from there is sound |
| Pages.NothingWraps | kernel/mem.c:141-154 | if the range assertions hold of the 32-bit sums, none of them wrapped |
| Pages.PagesCounted | kernel/mem.c:132-135 | four kilobytes to a page, modulo four gigabytes |
| Pages.BytesMarked | kernel/mem.c:149-191 | for every byte of memory, by its address, which flag its page has: below the kernel image, image and page array, two megabytes of heap, available |
| Pages.PageAllocator.GetFreelistPage | kernel/mem.c:50-69 | the head goes out, marked allocated, and its link is the new head even when it was the last |
| Pages.PageAllocator.FreelistPageAdd | kernel/mem.c:71-85 | the page is linked behind the tail |
| Pages.PageAllocator.AllocAtomic | kernel/mem.c:205-209 | the part of the allocation that interrupts must be off for: the count is read and the head page goes out |
| Pages.PageAllocator.FreeAtomic | kernel/mem.c:222-224 | the part of the release that interrupts must be off for: the page joins the list |
| Pages.PageAllocator.MarkPageRange | kernel/mem.c:87-126 | the loop marks exactly the pages between two aligned addresses |
| Pages.PageAllocator.MemInit | kernel/mem.c:129-198 | whenever the range assertions hold, each page of memory is flagged once, for its region; the regions follow one another and the free list is the available pages in order |
| Pages.PageAllocator.AllocPage | kernel/mem.c:200-214 | null iff the count is zero, else the address of the head page; the interrupt flag is as before |
| Pages.PageAllocator.FreePage | kernel/mem.c:216-227 | the page behind the address, asserted allocated, is put back; the interrupt flag is as before |
| Paging.ConversionsInverse | kernel/paging.c:6-12 | the two address conversions are inverse on all 32-bit addresses |
| Paging.WalkIsLinear | kernel/paging.c:36-63 | over a finished mapping the processor's walk takes addresses 0xC0000000 to 0xC0FFFFFF to 0 to 0xFFFFFF and finds every other address not present |
| Paging.UserEntries | kernel/paging.c:41-61 | the flag bits the walk meets: present, writable, user level, or not present |
| Paging.FillDirectory | kernel/paging.c:41-44 | every directory entry is not present |
| Paging.FillTable | kernel/paging.c:53-57 | a table holds 1024 consecutive page addresses, and only its page is written |
| Paging.AddTable | kernel/paging.c:48-62 | one turn of the loop takes the next page, fills it as a table and enters it in the directory, the tables before it kept |
| Paging.PagingInit | kernel/paging.c:33-63 | on any five pages from the allocator the walk over what was built is the linear map for every address; the free list stays sound unless the fifth page was the last and had a link |
| Digits.ValueOfDigits | kernel/print.c:17-34 | the digits of a number stand for it |
| Digits.DigitsProper | kernel/print.c:27-30 | digits are below the base, and only zero begins with a zero |
| Digits.FixedIsDigits | kernel/print.c:20-26 | a number between two neighbouring powers of the base has exactly that many digits |
| Digits.EnoughDigits | kernel/print.c:7 | 32 bits need at most ten decimal or eight hexadecimal digits, and exactly so many from 10^9 and 16^7 on |
| KPrint.DigitRoundTrip | kernel/print.c:36-47 | a printed digit reads back as itself, in either case |
| KPrint.DigitTable | kernel/print.c:27-47 | the sixteen digits in either case, and which characters have a value |
| KPrint.TopPower | kernel/print.c:20-22 | the search finds the power at the first digit without 32-bit overflow |
| KPrint.Uint2str | kernel/print.c:17-34 | the buffer holds exactly the number's digits, closed by a null; bytes around are kept |
| KPrint.Str2uint | kernel/print.c:49-63 | the number read is, as a machine word, the value of the longest run of digits up to the base, and the position is its end |
| KPrint.ReadsExactly | kernel/print.c:53-56 | that is the ordinary reading, of digits below the base, if and only if the character after those is not the digit that equals the base |
| KPrint.BasePasses | kernel/print.c:53-56 | where it is not: "1a" in base 10 is read to its end, as twenty |
| KPrint.ParsesBack | kernel/print.c:49-63 | a printed 32-bit number followed by anything that stops the parser reads back as itself, to its end, for every base from 2 to 16 |
| KPrint.ParseFits | kernel/print.c:50-57 | reading a printed number never sums past it, so below 2^31 `int` does not overflow |
| KPrint.Atoi | kernel/string.c:79-87 | the result is, as a machine word, the decimal sum over all characters before the null |
| KPrint.AtoiBack | kernel/string.c:79-87 | `atoi` of a printed number is the number |
| KPrint.AtoiOdd | kernel/string.c:79-87 | characters that are no digits are summed all the same |
| KPrint.AtoiFits | kernel/string.c:82-84 | every intermediate sum fits `int` iff the number is at most 2147483599 |
| KPrint.PutString | kernel/print.c:65-84 | the text comes out in a field of the width asked for, padded on the left |
| KPrint.PaddedWidth | kernel/print.c:69-78 | the field has that width, or that of a longer text, ends with the text, and is filled with zeros or blanks |
| KPrint.FormatNumber | kernel/print.c:124-147 | for every `int` or `unsigned` the text fits the number buffer with its null and spells the argument: decimal or hexadecimal digits of one case whose value it is, no zero in front but for zero, a minus sign exactly if negative; the returned count leaves the sign out |
| KPrint.PrintedSpells | kernel/print.c:124-147 | every conversion prints a text that spells its argument |
| KPrint.BufferFilled | kernel/print.c:7 | the longest conversion fills the buffer to its last byte |

## Left out

- Bget.BgetHeap.Bget: takes requests up to 2^31 - 12; above that the 32-bit size goes negative (`BgetLayout.Need32Exact`), and what the code then writes is not followed. The second loop of `bget` is a single test, since the scan's result always fits.
- Bget.BgetHeap.Bpool: adds one pool to an empty heap, as the kernel does; a second pool is not modelled.
- Compaction, acquire and release callbacks and directly acquired buffers: never installed in the kernel.
- `bgetz`, and zero-filling in general: `memset` writes one byte too few; fresh records are as assigned.
- Kernel.Scheduler.Join: the caller joins a thread it created, once; the owner check in the source (kernel/thread.c:590) is an assignment and checks nothing.
- Kernel.Scheduler.Exit: main, idle thread and reaper do not exit, and no thread exits inside a mutex (`SchedTheorems.ExitExact` says what is lost if one does). Thread-local data and its destructors are left out.
- Kernel.Scheduler.CreateThread: creation is one step, and more pages are free than it takes; the rollback when memory runs out empties the page list and meets the stale head described above (`PageFrames.RollbackExact`). Pages are a sequence here; the allocator has its own class.
- Kernel.Scheduler.constructor: boots on four or more free pages; with fewer, creating the idle thread or the reaper fails.
- Kernel.Scheduler.DestroyThread: the all-threads list, thread ids and priorities are not modelled.
- The launch and shutdown stubs, stack frames and user mode: a thread's program point stands for its saved context. A preempted thread goes on where it was, and interrupts arrive between the steps of the model, not inside one.
- Kernel.Scheduler.TimerIrq: the handler's debugging output is left out. The keyboard interrupt is the action `Key`, its waking only: the ring of key codes is left out. The interrupt of the real-time clock does not touch the scheduler's state.
- Pages.PageAllocator.MemInit: the page array is kept apart from the memory it describes, and the heap's pool is not added here.
- Shared memory blocks, the decoding of keys, the screen and the real-time clock.
- Paging.PagingInit: control registers and the page fault handler are left out.
- KPrint.FormatNumber: negates the least `int` as a machine word does, where C leaves the overflow undefined; the other conversions and the parsing of formats are left out.
- KPrint.Str2uint: sums in machine words, where C leaves the overflow of `int` undefined; `KPrint.ParseFits` and `KPrint.AtoiFits` say when there is none.
- Memory operations of `string.c` other than `memcpy`, and string comparison and copying.
