# The kernel memory and cache subsystem, verified

This project models three connected parts of the xv6 kernel as the labs of this repository
rebuilt them, and proves what each of them is for.

**Hashed buffer cache** (Lab 3, `bio.c`). `Bcache.Bcache` keeps the buffers on circular doubly
linked rings in `next` and `prev` arrays, the ring heads behind the buffers, and runs `binit`,
`bget`, `brelse`, `bpin` and `bunpin` on them in place. `BufRings` says what well-linked rings are
and what unlinking and linking in do to them. `BcacheProbe` is about the bucket numbers the steal
loop computes in 32-bit arithmetic, and `BcacheRuns` about whole runs with `bget` atomic:
placement, uniqueness, reference counts, LRU order, and what readers see. `BcacheProtocol` is the
same code as a state machine in which every acquire, critical section and release of any number of
threads is a step and a stolen buffer is in transit between two rings. `BcacheAlone` ties the two
together: an operation that runs alone through the steps computes what the atomic one does.
`BcacheLinks`, `BcacheUnique`, `BcacheOrder` and `BcacheWaits` say over all its runs that the links
stay whole, when blocks stay unique, that rings stay in LRU order, and who can wait for whom;
`BcacheRace` holds the runs in which things go wrong, for any number of buffers and buckets.

**Per-CPU page allocator** (Lab 3, `kalloc.c`). `Kmem.Kmem` is `kalloc` and `kfree` on linked free
lists; `KmemProtocol` is the same code as a state machine in which every lock operation, list read
and list write of any number of CPUs is a step of its own.

**Private kernel page tables** (Lab 4, `vm.c`, `proc.c`, `exec.c`). `Sv39` describes page tables in
physical memory: three levels of 512 entries, as in section 4.4 of the RISC-V Privileged
Architecture specification, version 20211203. `Vm.Memory` is that memory, with a free set from which
page-table pages and frames are drawn, and `walk` as a real three-level walk that allocates.
`Uvm`, `UserMem`, `CopyPage`, `Teardown` and `Kvm` are `mappages`, `uvmunmap`, `uvmalloc`,
`uvmdealloc`, `uvmcopy`, `vmcopypage`, `proc_freewalk`, `proc_kvminit` and `proc_kvmmap` on it.
`UserTables`, `Mirror`, `Processes`, `Growth`, `ProcTable` and `Syscalls` build `allocproc`,
`freeproc`, `userinit`, `fork`, `growproc` and `exec` from them and keep one invariant
(`ProcTable.World`) over the whole process table; `Boot` reaches it from free memory, with the first
process. Every operation that allocates says how many free pages are enough for it (`Vm.Enough`), so
none may fail without cause. `Isolation` says what an operation on some page tables leaves alone.
`MirrorRuns` says over runs of the kernel when the mirror is complete, `Scheduler` which table is in
`satp` and what it then mirrors, and `Printwalk` what `vmprint` prints.

## What holds only under a condition

- *A steal misses a bucket near 2^32.* `blockno + i` wraps. The probes reach every bucket exactly
  if `blockno + NBUCKETS <= 2^32` or `NBUCKETS` divides 2^32 (`BcacheProbe.ProbesReachAllIff`); 13
  does not. `bget` panics exactly when the block is absent and every buffer on a ring its probes
  reach is referenced (`BcacheRuns.GetPanicsIff`). For the block numbers that meet the condition that
  is when every buffer is referenced (`BcacheRuns.GetPanicsIffFull`); for each of the others a run from
  `binit` ends with a free buffer on a ring that the probes miss (`BcacheRuns.MisalignedPanics`).
- *`vmcopypage` can leave a page out.* It touches one page for each `PGSIZE` bytes begun from an
  address that need not be aligned. With `r = start % PGSIZE` and `s = sz % PGSIZE`, it covers
  `[start, start+sz)` exactly if `r == 0`, or `s > 0` and `r + s <= PGSIZE`
  (`CopyPage.CoverIff`). So `growproc` can leave a hole in the mirror. `ProcTable.World` records for
  every process exactly which pages are mirrored, holes included. `MirrorRuns.Run` performs any list
  of `growproc` and `exec` calls on the kernel: from a complete mirror, the mirror is complete in every
  state exactly if every accepted growth meets that condition, and then nothing panics but for lack
  of memory. `MirrorRuns.HoleReached` is a kernel, from boot on, with a growth that does not, after
  which giving the page back panics and no `exec` succeeds.
- *`exec` does not ask where the new image ends.* `growproc` keeps user memory below the PLIC. `exec`
  of a larger image overwrites the device, kernel and stack mappings of the process's kernel page table
  up to the image's end and no further (`Growth.Overrun`); from the trapframe on `mappages` panics. An
  image has a frame of its own for every page, so it never has more pages than the memory
  (`UserMem.ImageFits`). With no more pages of memory than there are below the PLIC, as in the sample
  address space (`Boot.FewPagesSuffice`), every `exec` that does not panic keeps the invariant
  (`Syscalls.Kernel.Exec`), and no run comes to the PLIC (`MirrorRuns.Run`). With more, an `exec` of
  any image between the PLIC and the trapframe breaks it (`MirrorRuns.OverrunReached`, from boot on).
- *Cache uniqueness* is for `dev != 0`, since `binit` puts buffers on rings by index while all their
  keys are zero. The code gives up its bucket lock before it steals, so two interleaved `bget`s for
  one block can give two buffers its key (`BcacheRace.Race`, for any block and any cache with two
  buckets and two buffers). A step breaks uniqueness exactly if a search of the own ring fails while
  another thread is between its own failed search for the same block and its result
  (`BcacheUnique.NextUniqueIff`). In runs without such steps no block is ever in two buffers
  (`BcacheUnique.OneBufferPerBlock`), and the search of the own ring is a lookup among all buffers
  (`BcacheUnique.LookIsLookup`).
- *A reference count runs over at 2^32.* Exactly the steps that count no further than 2^32-1 keep the
  invariant (`BcacheProtocol.StepInvIff`); a run reaches one that does not (`BcacheRace.OverflowReached`).
- *The buffer cache can deadlock.* A thief holds one bucket lock while it acquires another. A thread
  inside an operation is stuck exactly if no thread that it waits for, directly or not, can step
  (`BcacheWaits.StuckIff`), and nothing can go on exactly if all are stuck (`BcacheWaits.DeadlockIff`).
  Then the chain of waiting threads comes round to thieves, each with a buffer in hand and waiting for
  the bucket that the next has as its probe (`BcacheWaits.CycleOfThieves`): two as in
  `BcacheRace.DeadlockReached`, which any two blocks of different buckets can reach if the probes of
  each come to the other's bucket and not to its own; or more, or one. It lasts for ever (`BcacheWaits.StuckForever`). With
  at most one waiting thief, and not waiting for itself, somebody can always step
  (`BcacheWaits.SomeoneCanStep`). A thief can wait for itself exactly for the last `2^32 % NBUCKETS`
  block numbers, nine of them with 13 buckets (`BcacheWaits.ProbesItselfIff`, `BcacheWaits.NoSelfWait`),
  and for each of these a run does (`BcacheRace.SelfWaitReached`). The page allocator, which
  holds one list lock at a time, always has a thread that can go on (`KmemProtocol.SomeoneCanStep`).
- *A mirror is out of step while its process resizes.* A scheduler picks only processes whose mirror
  has been made (`Scheduler.RunPickedSynced`). That mirror is in step with user memory if no process
  yields between the two halves of its own `growproc` or `exec` (`Scheduler.RunPickedInStep`), and
  complete if all growths also meet the condition above (`Scheduler.RunPickedComplete`). Exactly such
  a yield takes a process that does not run out of step (`Scheduler.NextInStepIff`); the next to be
  picked can then be it (`Scheduler.InterruptedPicked`), and a run gets there
  (`Scheduler.InterruptReached`). Out of step after a shrink or an `exec` means that the mirror still
  maps frames that are free (`MirrorRuns.StaleBetween`).

The report and the kernel source differ in one line: Lab4/Lab4.md:386 clears U, W and X,
Lab4/kernel/vm.c:572 only U. The mask is therefore a parameter that contains U and neither V nor R.
The bodies of some functions are not in the reports, and their files are not UTF-8 text, so the table
cites prototypes or callers for them. They follow Lab4/kernel/vm.c: `walk` lines 111-129, `mappages`
196-216, `uvmunmap` 222-244, `uvmalloc` 277-301, `uvmdealloc` 307-319, `uvmcopy` 379-407; and `exec`
up to its commit Lab4/kernel/exec.c:38-76.

## Model

| member | source | states |
|---|---|---|
| BufRings.LinkedUnlink | Lab3/Lab3.md:293-295 | Making a buffer's two neighbours point past it takes it off its ring and leaves every ring closed at its head with next and prev inverse |
| BufRings.LinkedPush | Lab3/Lab3.md:299-302 | The four pointer writes of a front insertion put a buffer that is on no ring first on the ring, and all rings stay linked |
| BufRings.MovePartition | Lab3/Lab3.md:282-314 | Unlink and insert of a steal: every buffer is again on exactly one ring |
| BufRings.MoveMembers | Lab3/Lab3.md:293-302 | A move changes the ring of the moved buffer only |
| Bcache.Bcache.Binit | Lab3/Lab3.md:178-214 | From empty rings, buffer i ends up on ring i mod NBUCKETS, each ring in the order of insertion, the last in front, and the links implement that |
| Bcache.Bcache.constructor | Lab3/Lab3.md:153-167 | Zeroed memory and binit give a well-formed cache with all keys and counts zero and buffer i on ring i mod NBUCKETS |
| Bcache.Bcache.FindKey | Lab3/Lab3.md:245-252 | The walk along next finds the first buffer of the ring that holds the block, if there is one |
| Bcache.Bcache.FindOldestFree | Lab3/Lab3.md:268-278 | The walk along prev finds the last unreferenced buffer of the ring, if there is one |
| Bcache.Bcache.FindFree | Lab3/Lab3.md:285-286 | The walk of the steal finds the first unreferenced buffer of another ring |
| Bcache.Bcache.FindVictim | Lab3/Lab3.md:282-314 | The steal loop stops at the first probed bucket with an unreferenced buffer |
| Bcache.Bcache.Rehome | Lab3/Lab3.md:288-302 | The stolen buffer has the new key, is not valid, has one reference and is first on the block's own ring |
| Bcache.Bcache.Bget | Lab3/Lab3.md:229-317 | The pointer code computes Get on the cache's contents, and panics exactly when Choose finds no buffer; GetMeans and ChoiceMeans say what these are |
| Bcache.Bcache.AcquireSleep | Lab3/Lab3.md:249 | The buffer's sleep lock passes to the caller, nothing else changes |
| Bcache.Bcache.Brelse | Lab3/Lab3.md:326-354 | Panics exactly when the caller does not hold the sleep lock, otherwise computes Release |
| Bcache.Bcache.Bpin | Lab3/Lab3.md:363-371 | One more reference, nothing else changes |
| Bcache.Bcache.Bunpin | Lab3/Lab3.md:380-388 | One reference less, nothing else changes |
| Bcache.ChoiceMeans | Lab3/Lab3.md:245-316 | bget settles on the first buffer of the own ring with the block; without one, on the last one there not in use; without one, on the first one not in use on the first probed ring that has any |
| Bcache.GetMeans | Lab3/Lab3.md:245-314 | It counts one more reference or gives the buffer the block's key, and a stolen buffer goes from its ring to the front of the block's own; nothing else changes |
| Bcache.ReleaseMeans | Lab3/Lab3.md:326-354 | brelse takes one reference and the sleep lock, and at the last reference puts the buffer in front of its ring; nothing else changes |
| Bcache.GetWellFormed | Lab3/Lab3.md:229-317 | bget keeps all buffers on exactly one ring each |
| Bcache.ReleaseWellFormed | Lab3/Lab3.md:326-354 | So does brelse |
| BcacheProbe.ProbeValue | Lab3/Lab3.md:282-283 | Until the sum wraps, probe i is i buckets round from the own one; from then on the probes start over at bucket 0 |
| BcacheProbe.ProbesReachAllIff | Lab3/Lab3.md:234-283 | Own bucket and probes reach every bucket if and only if the sums do not wrap off a multiple of NBUCKETS |
| BcacheProbe.MisalignedMisses | Lab3/Lab3.md:282-283 | Otherwise a bucket is named that no probe reaches |
| BcacheProbe.AlignedProbesDistinct | Lab3/Lab3.md:282-298 | Aligned probes never come back to a bucket, so the own lock is not taken twice |
| BcacheProbe.ThirteenBucketsMisaligned | Lab3/Lab3.md:148 | With 13 buckets the condition is blockno <= 2^32 - 13 |
| BcacheRuns.InitInv | Lab3/Lab3.md:178-214 | The state after binit satisfies the invariant |
| BcacheRuns.NextInv | Lab3/Lab3.md:229-388 | Every bget, brelse, bpin, bunpin and caller action keeps partition, placement, uniqueness, reference accounting and LRU order |
| BcacheRuns.RunInv | Lab3/Lab3.md:178-388 | So they hold in every state of every run |
| BcacheRuns.GetRefinesTable | Lab3/Lab3.md:229-317 | bget on the rings does what it would on a flat table: the cached buffer gains a reference, or some unreferenced buffer is re-keyed, not valid, with one reference |
| BcacheRuns.GetPanicsIff | Lab3/Lab3.md:245-316 | bget panics if and only if no buffer has the block and every buffer on a ring that its probes reach is referenced |
| BcacheRuns.GetPanicsIffFull | Lab3/Lab3.md:281-316 | For aligned block numbers bget panics if and only if the block is absent and every buffer referenced |
| BcacheRuns.MisalignedPanics | Lab3/Lab3.md:282-316 | For every other block number a run from binit ends with a free buffer and a bget for the block that panics, whatever its device |
| BcacheRuns.GetIndex | Lab3/Lab3.md:245-314 | The map from blocks to buffers changes by the requested block and loses only what the re-keyed buffer held |
| BcacheRuns.RecyclesOldest | Lab3/Lab3.md:267-278 | Local recycling picks the unreferenced buffer of the bucket that was put in front longest ago |
| BcacheRuns.ReleaseStaysInRing | Lab3/Lab3.md:333-353 | brelse relinks a buffer within the ring it is on, whose lock it holds, and touches no other ring |
| BcacheRuns.KeyStable | Lab3/Lab3.md:246-291 | A referenced buffer keeps its key, whatever happens next |
| BcacheRuns.NextCoherent | Lab3/Lab3.md:269-291 | Every step of disciplined callers keeps valid buffers and the disk in agreement with the last writes |
| BcacheRuns.RunCoherent | Lab3/Lab3.md:229-388 | So does every run |
| BcacheRuns.ReadersSeeLastWrite | Lab3/Lab3.md:229-388 | A valid buffer shows its block as last written, and a block nobody references is up to date on disk |
| BcacheProtocol.NextInv | Lab3/Lab3.md:229-388 | Every acquire, critical section and release of any thread keeps lock ownership, ring partition with the stolen buffers in transit, placement of referenced buffers, and exact reference counts |
| BcacheProtocol.StepInvIff | Lab3/Lab3.md:247-368 | A step keeps them if and only if it does not count a reference past 2^32-1 |
| BcacheProtocol.RunPartition | Lab3/Lab3.md:282-314 | In every state of every interleaving each buffer is on exactly one ring, or in the hands of exactly one thief |
| BcacheProtocol.OnItsRing | Lab3/Lab3.md:333-350 | The bucket number computed before the lock is taken is still right: brelse, bpin and bunpin find the buffer referenced, on the ring of the bucket they lock |
| BcacheProtocol.RingsUnderLock | Lab3/Lab3.md:234-312 | A thread changes only rings whose locks it holds |
| BcacheProtocol.KeyStable | Lab3/Lab3.md:268-291 | No step of any thread re-keys a buffer somebody has a reference to |
| BcacheProtocol.OnlyLocksWait | Lab3/Lab3.md:234-312 | A thread inside an operation waits for nothing but a bucket lock |
| BcacheUnique.LookIsLookup | Lab3/Lab3.md:245-252 | While no thread has missed the block and not yet got a buffer for it, the search of one ring finds it if and only if some buffer has it |
| BcacheUnique.NextUniqueIff | Lab3/Lab3.md:234-388 | A step of any thread keeps each once keyed buffer on its home ring, referenced or not, and each block in one buffer, if and only if it is not a failing search for a block that another thread has missed and not yet got |
| BcacheUnique.OneBufferPerBlock | Lab3/Lab3.md:229-388 | In every state of every run without such a step no two buffers have the same block |
| BcacheLinks.NextLinked | Lab3/Lab3.md:293-350 | Every step of every thread leaves each ring closed at its head with next and prev inverse, stolen buffers being on none |
| BcacheLinks.RunLinked | Lab3/Lab3.md:178-388 | So does every interleaved run |
| BcacheAlone.GetAlone | Lab3/Lab3.md:229-317 | A bget that runs alone through its steps, with no bucket locked, computes Get, and halts exactly when Get finds no buffer |
| BcacheAlone.OpAlone | Lab3/Lab3.md:333-388 | A brelse, bpin or bunpin that runs alone changes the count, and the ring, as the atomic one does |
| BcacheAlone.OperatedIs | Lab3/Lab3.md:333-388 | What such a brelse, bpin or bunpin does is what Release, Pin and Unpin say |
| BcacheOrder.NextOrdered | Lab3/Lab3.md:299-350 | Every step of every thread keeps each ring in the order in which its buffers were last put in front |
| BcacheOrder.RunOrdered | Lab3/Lab3.md:229-388 | So does every interleaved run |
| BcacheOrder.LooksUpOldest | Lab3/Lab3.md:268-278 | In every interleaving the buffer recycled from the own ring is the unreferenced one last in front longest ago |
| BcacheWaits.StuckIff | Lab3/Lab3.md:234-312 | A thread inside an operation is stuck if and only if no thread it waits for, directly or not, can step |
| BcacheWaits.DeadlockIff | Lab3/Lab3.md:234-312 | No operation under way can go on if and only if the chains of waiting threads all come round |
| BcacheWaits.CycleOfThieves | Lab3/Lab3.md:284-298 | They come round to thieves with a buffer in hand, each waiting for a bucket whose lock the next holds as its probe |
| BcacheWaits.StuckForever | Lab3/Lab3.md:284-298 | A stuck thread takes no step and stays stuck, whatever any thread does |
| BcacheWaits.SomeoneCanStep | Lab3/Lab3.md:234-312 | With at most one waiting thief, not waiting for itself, an unfinished operation leads to one that can step |
| BcacheWaits.WorkDecreases | Lab3/Lab3.md:229-388 | Every operation takes at most 3 NBUCKETS + 6 steps of its own |
| BcacheWaits.ProbesItselfIff | Lab3/Lab3.md:282-283 | A probe comes round to the own bucket if and only if the block number is among the last 2^32 mod NBUCKETS |
| BcacheWaits.NoSelfWait | Lab3/Lab3.md:284-298 | A thief of any other block never waits for itself |
| BcacheRace.SelfWaitReached | Lab3/Lab3.md:282-298 | For each of those block numbers and every number of buffers there is a run to a thief that waits for itself |
| BcacheRace.Race | Lab3/Lab3.md:279-302 | For every block, and any two or more buckets and buffers, there is a run in which two bgets for it both miss and each give a buffer that key |
| BcacheRace.OverflowReached | Lab3/Lab3.md:363-371 | For every number of buckets and buffers there is a run to a bpin whose count runs over, which breaks the invariant |
| BcacheRace.DeadlockReached | Lab3/Lab3.md:284-298 | For any two or more buckets and buffers, and any two blocks whose probes come to each other's bucket and not to their own, there is a run to a state where two thieves each hold the bucket lock the other waits for, and are stuck |
| BcacheRace.AlignedMeet | Lab3/Lab3.md:282-283 | All block numbers whose sums do not wrap off a multiple of NBUCKETS are such, in pairs of different buckets |
| Kmem.Kmem.Kfree | Lab3/Lab3.md:53-82 | Panics exactly for an address off page or out of range; otherwise the page is first on the CPU's own list |
| Kmem.Kmem.Take | Lab3/Lab3.md:105-110 | Removes the first page of one list, or returns 0 if it is empty |
| Kmem.Kmem.Kalloc | Lab3/Lab3.md:91-136 | The loop over the lists computes AllocSpec: the first page of the first list, from the own one on, that is not empty |
| Kmem.Kmem.Freerange | Lab3/Lab3.md:41 | Adds every whole page of the range, to the list of the calling CPU only |
| Kmem.Kmem.Kinit | Lab3/Lab3.md:31-45 | After boot the free pages are exactly those between end and PHYSTOP |
| Kmem.TargetsReachAll | Lab3/Lab3.md:104-116 | (id + i) mod NCPU visits every list exactly once |
| Kmem.AllocMeans | Lab3/Lab3.md:91-136 | kalloc takes the first page of the first list that has one, in the order from the own list on and round, and nothing else moves |
| Kmem.AllocZeroIffEmpty | Lab3/Lab3.md:104-135 | Run alone, kalloc returns 0 if and only if all lists are empty |
| Kmem.AllocTakesOne | Lab3/Lab3.md:91-136 | It removes exactly the page it returns from the set of free pages |
| Kmem.FreeAddsOne | Lab3/Lab3.md:76-77 | kfree adds exactly its page to that set |
| KmemProtocol.NextInv | Lab3/Lab3.md:72-131 | Every step of every CPU keeps locks, acyclic lists and the place of each page in order |
| KmemProtocol.RunInv | Lab3/Lab3.md:53-136 | Under every interleaving each page is in exactly one place: on one list, owned, or inside one kalloc or kfree |
| KmemProtocol.NoDoubleOwner | Lab3/Lab3.md:104-135 | The page a kalloc returns was owned by nobody, on no list and carried by no other operation |
| KmemProtocol.OneLockAtATime | Lab3/Lab3.md:105-126 | A CPU that holds a list lock waits for no other |
| KmemProtocol.SomeoneCanStep | Lab3/Lab3.md:72-131 | While an operation is unfinished, some unfinished operation can take its next step |
| KmemProtocol.WorkDecreases | Lab3/Lab3.md:114-127 | Every operation takes at most 4 NCPU steps of its own |
| KmemProtocol.ZeroMeansSeenEmpty | Lab3/Lab3.md:114-135 | A kalloc that returns 0 found each list empty at some moment since it began |
| KmemProtocol.AloneIsAllocSpec | Lab3/Lab3.md:91-136 | Run alone, the stepwise kalloc computes AllocSpec |
| KmemProtocol.AloneFrees | Lab3/Lab3.md:53-82 | Run alone, the stepwise kfree puts the page in front of the CPU's own list |
| Sv39.SetEntryMeaning | Lab4/Lab4.md:386 | Writing a last-level entry changes the translation of one page of one page table |
| Sv39.AddTableMeaning | Lab4/Lab4.md:383 | A table that walk adds changes no translation |
| Sv39.EntryMeans | Lab4/Lab4.md:382-383 | A translation goes through three entries, one for each 9-bit digit of the page number, from the root on |
| Vm.Memory.Walk | Lab4/Lab4.md:382-383 | The slot that holds the translation of va, with missing tables created on demand; panics exactly from MAXVA on; no translation changes, and without alloc nothing does; it fails only without a table, or with fewer than two free pages, and takes none if the tables are there |
| Uvm.MapPages | Lab2/kernel/defs.h:164 | Maps the pages from va to the last byte to consecutive frames with the given rights and changes no other translation; stops at a page already mapped, at MAXVA, or if fewer pages are free than tables may be missing |
| Uvm.UvmUnmap | Lab2/kernel/defs.h:171 | Unmaps the pages in order, frees exactly their frames if asked to, and panics for an unaligned address or at the first page not mapped |
| UserMem.UvmAlloc | Lab2/kernel/defs.h:167 | Gives each new page a frame not in use before and all user rights, or leaves every translation as it was, and then fewer pages were free than the frames and tables needed; panics only for an image that reaches the trapframe |
| UserMem.ImageFits | Lab3/Lab3.md:58 | An image, each page on a frame of its own, has fewer pages than memory |
| UserMem.UvmDealloc | Lab2/kernel/defs.h:168 | Unmaps and frees exactly the pages from the new to the old size |
| UserMem.UvmCopy | Lab2/kernel/defs.h:169 | The child has a fresh frame for every page of the parent, with the same flags, or nothing, and then fewer pages were free than needed |
| CopyPage.CoverIff | Lab4/Lab4.md:379-388 | The loop touches only pages of the range, and all of them if and only if the start is aligned or the last stretch crosses no page boundary |
| CopyPage.Turns | Lab4/Lab4.md:381 | The k-th turn is at page start/PGSIZE + k, for k below the number of pages begun by sz |
| CopyPage.VmCopyPage | Lab4/Lab4.md:379-388 | Each touched page leads where the user's leads, with the user's flags except those in the mask; no other translation of any page table changes; it panics only at a page without a user entry or with fewer free pages than tables may be missing |
| Teardown.ProcFreewalk | Lab4/Lab4.md:185-201 | Frees a table and all tables below it, each once, and no page in use; terminates for every tree |
| Teardown.FreeTree | Lab4/Lab4.md:185-201 | For a whole page table: exactly its own tables become free, and all other page tables keep their translations |
| Teardown.TreeIsBelow | Lab4/Lab4.md:187-194 | Every table of a tree is reached from its root through valid pointers |
| Isolation.SameFree | Lab4/Lab4.md:287-302 | When an operation leaves nothing of the page tables it worked on, the same pages are free as before |
| Kvm.ProcKvmmap | Lab4/Lab4.md:116-120 | The page table maps one more region and nothing else changes; it panics only with fewer free pages than two per block of 512 pages |
| Kvm.ProcKvminit | Lab4/Lab4.md:131-160 | In a new page table kernel text can be read and executed, data and devices read and written, each page at its own address, the trampoline is on top and executable, and every other page is unmapped; or fewer pages were free than the root and the regions' tables |
| Kvm.KernelRegionsFit | Lab4/Lab4.md:137-157 | The regions do not overlap and lie at or above the PLIC |
| Kvm.RegionsMap | Lab4/Lab4.md:137-157 | The list of regions and the page-by-page account of the kernel's address space agree at every page |
| UserTables.ProcPagetable | Lab4/Lab4.md:252 | A new user page table maps the trampoline, executable, and the trapframe, writable, neither for the user, and nothing else; it fails only with fewer than five free pages and leaves nothing behind |
| UserTables.ProcFreepagetable | Lab4/Lab4.md:292-294 | Nothing of the page table and its frames is left, and every other page table is untouched |
| Processes.AllocTables | Lab4/Lab4.md:248-277 | A process with an empty image whose kernel page table has at every page what the kernel has, its own kernel stack at KSTACK(i) and nothing below the stack; it fails, leaving nothing behind, only with fewer than six free pages, and panics only with fewer than all its tables take |
| Processes.FreeTables | Lab4/Lab4.md:287-302 | Trapframe, user page table with its frames and the tables of the kernel page table are gone, everything else is as before |
| Processes.AllocThenFree | Lab4/Lab4.md:248-302 | allocproc and then freeproc: the same pages are free as before |
| Processes.RegionsMean | Lab4/Lab4.md:268 | Each slot's regions are the kernel's and that slot's own stack, two pages below that of the slot before |
| Growth.GrowTables | Lab4/Lab4.md:471-476 | The image grows by pages with all user rights, or fails without a trace, and the pages it had translate as before; exactly the pages vmcopypage touches are added to the mirror; failure and panic each need fewer free pages than a stated number |
| Growth.ShrinkTables | Lab4/Lab4.md:477-484 | Image and mirror lose exactly the pages between the sizes and the rest translates as before; it panics if and only if one of them was not mirrored |
| Growth.ExecTables | Lab4/Lab4.md:501-512 | The old image is gone and the new one wholly mirrored; if it reaches the PLIC, the kernel page table has lost what was below its end and nothing else; it succeeds only if the old image was wholly mirrored, and then unless memory lacks |
| Growth.ImageSizeIs | Lab4/Lab4.md:498-503 | No segment ends above the guard page, which is the first whole page after the one that ends last |
| Growth.BuildImage | Lab4/Lab4.md:498-503 | exec up to the commit, for any segments: every page below the end of a segment is user memory below the guard page, which the user cannot access, with the stack above it; or nothing is left behind, for lack of a stated number of pages or an empty first segment; panics only for an image that reaches the trapframe |
| Growth.ForkTables | Lab4/Lab4.md:436-448 | The child's image has the parent's flags on frames of its own and is wholly mirrored; failure leaves the same pages free, and failure and panic each need fewer free pages than a stated number |
| Growth.UserinitTables | Lab4/Lab4.md:406-415 | The first process has one page with all user rights, mirrored; nothing but a lack of a stated number of pages prevents it |
| Growth.NeedsAre | Lab4/Lab4.md:471-476 | The stated numbers of pages are no more than the new pages and two tables for each 512 of them, and four |
| ProcTable.WorldNext | Lab4/Lab4.md:340-348 | An operation that touched only page tables of one process and left its slot in order keeps the invariant of the whole process table |
| ProcTable.NobodyLeft | Lab4/Lab4.md:287-302 | With no process left, all pages but the kernel's own are free: no operation loses one |
| Syscalls.GrowTest | Lab4/Lab4.md:462-481 | The unsigned test rejects exactly the sizes whose true sum is outside [0, PLIC), and sz - n recovers the old size |
| Syscalls.PagesAre | Lab4/Lab4.md:476 | The pages that growproc adds to the mirror are as many as n bytes begin, from the page of the old end on |
| Syscalls.Kernel.FindUnused | Lab4/Lab4.md:248-251 | The first unused slot, if there is one |
| Syscalls.Kernel.Userinit | Lab4/Lab4.md:402-427 | Keeps the invariant; one more process in the first free slot, RUNNABLE, complete; with a free slot and enough free pages it succeeds |
| Syscalls.Kernel.Fork | Lab4/Lab4.md:436-448 | Keeps the invariant; the child is RUNNABLE and wholly mirrored, or nothing changed; it fails without a free slot, and with one only for lack of a stated number of pages |
| Syscalls.Kernel.Growproc | Lab4/Lab4.md:460-487 | Keeps the invariant for every 32-bit n; the size test fails it without effect, and within it only a lack of a stated number of pages; pages that stay translate as before and new ones have all user rights; the mirrored pages gained or lost are stated exactly, and so is when a shrink panics; no other process is touched |
| Syscalls.Kernel.Exec | Lab4/Lab4.md:498-520 | For any segments: the process has the new image, segments below guard page below stack, wholly mirrored, or nothing changed; keeps the invariant for images below the PLIC, so always if memory has no more pages than there are below it, and states the damage of others; no other process is touched; each failure and panic has its cause |
| Syscalls.Kernel.Freeproc | Lab4/Lab4.md:287-302 | Keeps the invariant; nothing of the process is left |
| MirrorRuns.MirrorMeans | Lab4/Lab4.md:372-388 | In every state: a mirrored page leads where the user's leads with the user's flags except those in the mask, other pages below the PLIC are not mapped, and from the PLIC on there is what the kernel has, the process's own stack and nothing below it; the user has a frame for each page of the image, and above it only trapframe and trampoline |
| MirrorRuns.FramesDistinct | Lab4/Lab4.md:434-448 | No frame is behind two pages, of one process or two |
| MirrorRuns.CompleteMeans | Lab4/Lab4.md:372-388 | A mirror is complete if and only if it has exactly the pages with a byte below the size |
| MirrorRuns.GrowCompleteIff | Lab4/Lab4.md:476 | A complete mirror stays complete under growth if and only if the growth is aligned |
| MirrorRuns.Perform | Lab4/Lab4.md:460-512 | A growproc or exec call on the kernel changes size and mirror as Apply says, or lacks memory; a hole in what it unmaps keeps it from succeeding |
| MirrorRuns.RunCompleteIff | Lab4/Lab4.md:459-512 | Over any run from a complete mirror, it is complete in every state if and only if every accepted growth is aligned |
| MirrorRuns.Run | Lab4/Lab4.md:459-512 | The same for any list of calls on the kernel; with all growths aligned it stops early only for lack of memory or, where memory has more pages than there are below it, an image over the PLIC |
| MirrorRuns.HoleReached | Lab4/Lab4.md:476-483 | From boot on, a growth by a page from 4097 bytes leaves a hole, after which shrinking back panics and no exec succeeds |
| MirrorRuns.OverrunReached | Lab4/Lab4.md:498-512 | With enough memory for it, from boot on, an exec of any image between the PLIC and the trapframe succeeds and breaks the invariant |
| MirrorRuns.OverrunMeans | Lab4/Lab4.md:498-512 | After an exec over the PLIC the kernel page table has the image's pages in place of the devices and the kernel, up to the image's end and no further |
| MirrorRuns.StaleBetween | Lab4/Lab4.md:477-484 | Between the halves of a shrink the kernel page table still maps the pages given back, if it mirrored them, to frames that are free |
| Boot.Kvminit | Lab4/Lab4.md:137-157 | The kernel's own page table has at every page what each process's has, and the CLINT |
| Boot.Start | Lab4/Lab4.md:214-238 | kvminit and procinit reach the invariant with no process, if a stated number of pages of physical memory is there; the kernel stacks are different pages, each mapped at its KSTACK with nothing below it, and the rest of the kernel's page table is known page by page |
| Boot.FirstProcess | Lab4/Lab4.md:402-427 | Booting and userinit reach the invariant with a live process, if a stated number of pages is there |
| Boot.FewPagesSuffice | Lab4/Lab4.md:137-234 | That number is at most 500 for 128 megabytes of memory and 64 slots |
| Boot.BootRegionFits | Lab4/Lab4.md:137-157 | The regions of the kernel's own page table, with the CLINT, do not overlap |
| Scheduler.NextInv | Lab4/Lab4.md:313-335 | Every step of any CPU keeps lock, state, c->proc, satp and table lifetime in order |
| Scheduler.NextLife | Lab4/Lab4.md:314-334 | A process's state changes only along the edges of its life, by a CPU that holds its lock: to RUNNING by being picked, from RUNNING by its own doing |
| Scheduler.RunningIff | Lab4/Lab4.md:315-324 | In every run a process is RUNNING if and only if a CPU that has picked it is on it |
| Scheduler.NextLoopHolds | Lab4/Lab4.md:313-335 | In its loop a CPU holds the lock of the process it is at and no other, none while it looks for one; passing a process by, or coming back from it, gives up its lock |
| Scheduler.IdleHoldsNone | Lab4/Lab4.md:313-335 | In every run a CPU that looks for a process holds no process lock |
| Scheduler.RunSafe | Lab4/Lab4.md:314-334 | In every run satp holds the global table or one not freed, the running process's own while it runs, and the global one whenever c->proc is 0 |
| Scheduler.FreedUnused | Lab4/Lab4.md:297-299 | The kernel page table a freeproc frees is in no CPU's satp |
| Scheduler.RunPickedSynced | Lab4/Lab4.md:315-324 | In every run a scheduler that holds the lock and sees RUNNABLE finds the mirror made |
| Scheduler.RunPickedInStep | Lab4/Lab4.md:315-324 | And in step with user memory, in every run in which no process yields halfway through its own resize |
| Scheduler.RunPickedComplete | Lab4/Lab4.md:315-324 | And complete, if every growth in the run is aligned as well |
| Scheduler.NextInStepIff | Lab4/Lab4.md:471-484 | A step keeps the mirrors of all processes that do not run in step if and only if it is not such a yield |
| Scheduler.NextCompleteIff | Lab4/Lab4.md:471-512 | A step keeps all mirrors complete if and only if it is not a growth with a hole |
| Scheduler.InterruptedPicked | Lab4/Lab4.md:471-484 | Whenever a process yields halfway, a run leads to where it is picked next, out of step |
| Scheduler.InterruptReached | Lab4/Lab4.md:313-484 | A run from the start leads there with the first process, for any growproc or exec it is allowed |
| Scheduler.AnnouncedEarly | Lab4/Lab4.md:440-445 | Every fork passes through a state where the child is RUNNABLE and not mirrored; only the lock keeps schedulers away |
| Printwalk.PrintWalk | Lab4/Lab4.md:24-46 | Prints the preorder of the valid entries below a table, those of a table by increasing index, each followed by those of the table it points to |
| Printwalk.RoundTrip | Lab4/Lab4.md:24-46 | The listing of any tree, whatever follows it, reads back as that tree |
| Printwalk.LookupIs | Lab4/Lab4.md:27-43 | The tree behind a listing has exactly the valid entries of the page table, at every path of indices |
| Printwalk.ListedOnce | Lab4/Lab4.md:26 | Each entry is listed once, in increasing order |
| Printwalk.ListingInOrder | Lab4/Lab4.md:26-41 | A listing starts at its depth, goes deeper by one at most, and lists the entries of one table by increasing index |
| Printwalk.TableBounded | Lab4/Lab4.md:28-36 | A page table is at most three deep, so the recursion ends |
| Printwalk.ListingDecides | Lab4/Lab4.md:49-53 | Two page tables with the same listing translate every page alike |

## Left out

- Sleep locks: a process that waits in `acquiresleep` is not modelled; `AcquireSleep` is the step in which it gets the lock.
- Buffer contents under interleaving: `BcacheRuns` states them with each operation atomic; `BcacheProtocol` does not.
- BcacheProtocol.NextInv: callers give back or pin only references they have; the code does not check it.
- BcacheRuns.ReadersSeeLastWrite: assumes fewer than 2^32 references to a buffer, since `refcnt` wraps, and callers that leave a buffer's data on disk when they give back its last reference.
- KmemProtocol.NoDoubleOwner: callers free only pages they own; the code does not check it.
- Page contents: `memset` patterns, `memmove` in `uvmcopy`, program loading and `copyin_new`, `copyinstr_new` are not modelled.
- TLB and `sfence_vma`.
- 64-bit layout of an entry: an entry is its set of flags and its page number.
- CopyPage.VmCopyPage: addresses are unbounded numbers; `start + sz` and the loop increment do not overflow for sizes below the PLIC.
- Syscalls.Kernel.Exec: reading the program file, argument strings and registers are left out; a file that is not a program, or arguments that do not fit, are further causes of failure.
- Syscalls.Kernel.Userinit: running out of memory is a crash, after which nothing is said but that memory is in order.
- Growth.Overrun: what a process can still do after an exec of an image that reaches the PLIC; only a machine with more pages of memory than there are below the PLIC has such images.
- Boot.FewPagesSuffice: the addresses are an example; `memlayout.h` is not part of the repository.
- Growth.GrowTables: nothing is said about the process after a panic of `vmcopypage` or `proc_kvminit` for lack of memory; memory as a whole stays in order.
- UserTables.ProcFreepagetable: `freewalk` is taken as `proc_freewalk` on a page table without leaves, its panic on leaves as a precondition.
- BcacheRace.Race: less than 2^30 buffers, as in BcacheRace.DeadlockReached and BcacheRace.SelfWaitReached, so that there are device numbers enough to fill them with; far more than a cache has.
- Scheduler.RunSafe: a kernel page table is its identity, the size it mirrors and the mirrored pages, which change by MirrorRuns.Apply; a panic, or an exec over the PLIC, is not a step; file descriptors, `wait` channels and the parent links are left out.
- Printwalk.PrintWalk: a line is its depth, index and entry; the bars and the hexadecimal digits of the text are left out.
- Disk, log, traps and assembly code; the first two labs.
