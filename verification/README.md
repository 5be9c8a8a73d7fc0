# Verified model of the kernel's core and its user allocator

This project models five parts of a small AArch64 multiprocessor kernel and its C
library, and proves what they promise each other. Every file is a Dafny module. To
verify the whole project, run `dafny verify dfyconfig.toml` in this directory.

**Pages and page tables** (`Bits`, `PhysMem`, `PageTable`, `DescriptorBits`, `TableUpdate`,
`AddressSpace`, `UserSpace`, `UserMemory`, `Teardown`, `FreeTables`, `FreeUserspace`, `InitImage`,
`ProcMemory`, `LedgerRuns`).
Physical memory is a map from frames to 512 words, in which the allocator threads its
free list and the page tables keep their entries. A ghost ledger gives each frame one
role: free, pinned, or a node of one address space at one index path. All table words
are read and written as numbers, with the descriptor fields taken apart by division
and remainder; `DescriptorBits` proves that these are the bits of the architecture. User
code loads a byte only through an entry that is valid, accessed and open to it. The abstract view of an address space is `Pte` (virtual page number to
entry) and `PageOf` (its contents); every operation states what it does to that view
and that all other spaces keep theirs. `ProcTable` runs fork, sbrk, exit and wait over
it and keeps the books: every frame is free, reserved, a kernel stack, or in the
address space of exactly one live process. `LedgerRuns` follows one child through any
run: once it has been reaped the frames are as the others alone would have left them.

**User heap** (`Malloc`). The circular, address-ordered, coalescing free list of
`malloc` and `free`, with the roving `freep`. `HeapOk` says: one circle in ascending
order, no two free blocks overlapping or touching, live blocks disjoint byte by byte
from each other and from free ones, and free and live bytes together exactly the
bytes the heap was told of; `Backed` says that sbrk has really given them. Both search loops terminate by explicit circular distances.

**Processes, locks and disk requests** (`Spinlock`, `Scheduler`, `SchedCoupling`,
`SchedFamily`, `SchedDisk`, `SchedRuns`, `SchedPids`, `SchedLife`, `SchedProgress`, `RankedLocks`).
One step system for any number of CPUs, process slots and descriptors. A thread is at a place in the code, inside acquire
(spinning, or the byte set but not yet the owner) or inside release (owner cleared,
byte cleared), or about to switch contexts; interrupts nest a handler on top of
whatever a CPU executes. Scheduler, yield, sleep, wakeup, fork, wait, waitpid, exit,
virtio_blk_op, virtio_blk_intr and the device interleave freely. `SchedRuns` states
what holds in every state of every run, `SchedPids` that no two processes share an id,
`SchedLife` which thread at which place changes a slot of the process table, `SchedProgress` that the locks cannot deadlock:
the disk lock is never taken under the table lock, and the holder of a lock can go on.
These are about the two locks that sleep and wakeup are built on. `RankedLocks` is about
any number of locks taken by a rule, and about the rule all ten locks of the kernel follow.

**virtio block queue** (`Virtq`). Descriptor free list, three-descriptor chains, the
two rings with 16-bit free-running indices, and the device as a partner that completes
in any order (VIRTIO 1.1, sections 2.6.5, 2.6.6 and 2.6.8). The queue size is any
divisor of 2^16. `DiskRefinement` gives the protocol on requests that both it and the
step system above follow: every step of the step system and every sequence of calls on a
queue is one of its runs.

**ext2 and the block cache** (`Dirent`, `Path`, `Namespace`, `BlockBitmap`, `FileBytes`,
`FileWrite`, `SoundWrites`, `WriteLaws`, `Bcache`, `CacheRuns`). Directory records packed into
bytes, path walking over any directory tree, what linking names does to all paths, and
the ref-counted cache, for one caller at a time and for readers that interleave.
`FileBytes` reads any inode through direct and indirect blocks;
`FileWrite` is `ext2_w_inode` on any inode, with its growth, as the code does it.
`SoundWrites` and `WriteLaws` say when that is right: a sound file has n data blocks of
its own, and may count its indirect block in i_blocks as the file-system tools do. The
disk may have any number of blocks; those the bitmap covers but the disk lacks are marked
as in use. Since the cache returns what the disk holds, the file modules work on the disk
directly.

## Where the code does not do what one would expect

These are proved as they are, with the exact condition under which the code is right.

- `uva2ka` takes 0 for unmapped, which recognises an unmapped address only when it is
  page aligned (`UserMemory.NullTestExact`).
- `kalloc` returns NULL without releasing its lock, so no call of the allocator can follow:
  not even the `kfree` by which a failed fork cleans up (`PhysMem.Memory.KAlloc`).
- `init_userspace` copies the whole image to the first page, which spares the frames behind
  exactly when the image fits in one page (`InitImage.SpillExact`).
- `free_table` on a table with mapped pages below frees the tables and leaks exactly those
  pages (`FreeTables.FreeTable`).
- A negative `sbrk` changes the size and unmaps nothing, so the books survive exactly
  when no whole page is given up (`ProcMemory.ShrinkExact`, `ProcMemory.ProcTable.Sbrk`).
- A request of 0x7fffffe1 bytes or more makes `malloc` pass sbrk a truncated or
  negative argument, or wraps (`Malloc.SoundRequests`, `Malloc.TruncatedRequest`,
  `Malloc.WrappedRequest`). A new chunk keeps the heap sound exactly when sbrk was asked
  for all it claims or, with a negative argument, when the break stays above every owned
  byte (`Malloc.GrowthExact`). With a negative argument sbrk returns NULL and lowers the
  break all the same (`Malloc.NegativeRequest`): malloc fails, and the heap stays sound
  exactly when no owned byte lies above the new break (`Malloc.RefusedExact`). In every
  case the list itself stays sound, and the exact condition for the memory behind it to
  exist is part of `Malloc.Heap.Malloc`.
- Ring slots are right for every index exactly when the queue size divides 2^16
  (`Virtq.SlotExact`).
- The NUL of a new directory name falls behind the block exactly when the name fills
  whole words, the last name does not end on one, and the record takes all the room
  there is (`Dirent.OverrunExact`; `Dirent.OverrunHappens` is such a block). It zeroes
  the low byte of the block number that struct buf keeps there (`Dirent.LinkBlock`).
- After a doubled trailing slash `traverse_inode_parent` returns the last directory and
  no name (`Path.ParentThenLookup`).
- `ext2_w_inode` stores every byte exactly when the write starts at a block boundary or
  stays in one block, and ends within the file's blocks or, with a free direct slot, on
  the end of one of the twelve direct blocks (`WriteLaws.WholeExact`). It
  returns the full size all the same.
- Afterwards the file is sound exactly when growth stays within the direct slots and
  finds its blocks, or, without growth, the write does not end behind the data of a file
  that counts its indirect block (`WriteLaws.KeepsExact`).
- Growth past slot 11 puts a data block where the indirect block belongs. Growing a file
  of 11 blocks by 3 sends the second and third kilobyte to block 0, and the file shows
  the third in place of the second (`WriteLaws.ThreeMore`). Growth past slot 14 writes
  behind the inode's slots.
- With a full bitmap growth stores -1 for a block number and reports success; the loop
  then panics, unless the write lies behind all new blocks (`WriteLaws.FullBitmap`).
- Appending to a file that counts its indirect block overwrites block 0 of the disk
  (`WriteLaws.AppendHitsBlockZero`).
- Two readers of one block can both find it invalid, and the second fill puts the disk's
  block over what the first reader has stored. Beginning a fill is safe in all that follows
  exactly when nobody else is filling the slot (`CacheRuns.LookExact`).
- Block number 0 marks free cache slots, so block 0 can be live twice
  (`Bcache.ZeroBlockTwice`).

## Model

| member | source | states |
|---|---|---|
| PhysMem.Memory.KAlloc | kernel/kalloc.c:26-42 | takes the head of the free list, returns it zeroed, and leaves the rest of the list and all other pages alone; 0 exactly when the list is empty, and exactly then the lock stays taken |
| PhysMem.Memory.KFree | kernel/kalloc.c:44-60 | the page becomes the head of the free list, zero but for the link; nothing else changes; NULL is ignored |
| PhysMem.Memory.FreedMemKb | kernel/kalloc.c:62-74 | four times the number of free pages, by walking the links |
| PhysMem.Memory.InitRange | kernel/kalloc.c:80-91 | all whole pages of the range become free, each once |
| PhysMem.ChainFrame | kernel/kalloc.c:17-24 | the linked free list survives any change to pages that are not on it |
| PageTable.VpnDigits | include/mm.h:32-33 | the page number is its three 9-bit indices read as digits, and any three indices have a page number |
| PageTable.AddressIsIndicesAndOffset | include/mm.h:32-33 | two addresses below 2^39 are equal exactly when their three indices and offsets are |
| PageTable.TableDescRoundTrip | kernel/mm.c:26 | the table descriptor stores the frame, is recognised as a table and has no access flag |
| PageTable.PageDescRoundTrip | kernel/mm.c:66 | a page descriptor of any attribute gives back its frame, is valid (low bits 11) and carries the access flag |
| DescriptorBits.PidxBits | include/mm.h:32 | bit j of a table index is bit 39 - 9 * level + j of the address, for j < 9 |
| DescriptorBits.PtePaBits | include/mm.h:35 | the frame field of an entry is its bits 12 to 47, in place |
| DescriptorBits.TableDescBits | kernel/mm.c:26 | the bits of a table descriptor: those of the frame, and bits 0 and 1 |
| DescriptorBits.PageDescBits | kernel/mm.c:66 | bit by bit, a page descriptor is the OR of frame field, access flag, attribute and the two valid bits |
| DescriptorBits.AccessBits | include/mm.h:38-53 | user code may load through an entry exactly with bits 0, 1, 6 and 10, store exactly without bit 7, execute exactly without bit 54 |
| DescriptorBits.UserAttrs | kernel/mm.c:193-204 | a page mapped with either user attribute can be loaded from and stored to, and executed exactly without the never-execute bits |
| PageTable.WalkRoles | kernel/mm.c:13-31 | each step of a walk lands on a table of the same root at the index path of the address |
| PageTable.WalkReaches | kernel/mm.c:13-31 | every table and page of an address space is reached by the walk of its own index path |
| PageTable.OnePath | kernel/mm.c:13-31 | a frame is on the walks of one root only, and two walks reach it only by the same indices |
| TableUpdate.LinkTable | kernel/mm.c:20-27 | hanging a zeroed page into an empty entry keeps the tables a tree |
| TableUpdate.LinkTableSamePtes | kernel/mm.c:20-27 | hanging a new table changes no translation of any address space |
| TableUpdate.StoreLeafPtes | kernel/mm.c:66 | storing a level-3 entry changes one translation, in one address space |
| TableUpdate.LinkPage | kernel/mm.c:66 | mapping an unused frame keeps the tables a tree without sharing |
| TableUpdate.Unlink | kernel/mm.c:79-83 | freeing a page and clearing its entry keeps the tables a tree |
| AddressSpace.PageWalk | kernel/mm.c:13-31 | returns the level-3 slot of the address; the tables it allocates change no translation anywhere |
| AddressSpace.PageMap | kernel/mm.c:58-68 | maps exactly the pages of the range to consecutive frames, by entries that are valid and carry the attribute, leaves every other translation alone, and panics exactly on misalignment or a used entry |
| UserSpace.AllocUserspace | kernel/mm.c:132-142 | zeroed private frames for exactly the pages of the range, which user code can load and store, everything else kept |
| UserSpace.GrowUserspace | kernel/mm.c:144-157 | maps exactly the pages between the two rounded sizes and returns the old break |
| UserSpace.MapUstack | kernel/mm.c:163-171 | one zeroed page at the stack address, which user code can load and store |
| UserSpace.CpUserspace | kernel/mm.c:181-207 | every heap page and the stack page of the parent has a copy in the child that user code can load and store, in frames of its own; parent and others are as they were |
| UserSpace.PageKept | kernel/mm.c:181-207 | growth of one space leaves each page of any other as it was |
| UserMemory.Uva2Pa | kernel/mm.c:42-48 | the translation, without changing any |
| UserMemory.NullTestExact | kernel/mm.c:42-56 | translating gives 0 exactly for an unmapped page-aligned address |
| UserMemory.MappedTranslation | kernel/mm.c:42-68 | after pagemap every byte of the range translates to the physical range, at the same distance |
| UserMemory.UnmapUndoesMap | kernel/mm.c:58-85 | pageunmap after pagemap restores the abstract map |
| UserMemory.StoreKeeps | kernel/mm.c:13-31 | a user store changes no table, no translation and no page but its own |
| UserMemory.StoreSeen | kernel/mm.c:42-48 | what a program stores where it may, it loads byte by byte, least byte first, and everything else as before |
| UserMemory.StoresIsolated | kernel/mm.c:181-207 | no sequence of stores through one address space changes a byte read through another |
| UserMemory.NoSharedFrame | kernel/mm.c:13-31 | no frame is on a walk of one address space and on a walk of another |
| UserMemory.ForkIsolation | kernel/mm.c:181-207 | after fork every byte of heap and stack can be loaded in the child, and is the parent's where the parent could load it; no frame, table or page, is on walks of both; neither sees the other's later writes |
| Teardown.UnmapOne | kernel/mm.c:74-84 | frees the one frame, clears the one entry; panics exactly on an empty entry |
| Teardown.PageUnmap | kernel/mm.c:70-85 | frees exactly the frames of the range and empties exactly its translations |
| FreeTables.PruneTable | kernel/mm.c:87-98 | the recursion: tables are freed bottom up, entries of mapped pages skipped |
| FreeTables.FreeTable | kernel/mm.c:87-98 | on any table: frees exactly the tables below and including it, each once; exactly the pages still mapped below lose their owner; everything left is well linked |
| FreeTables.TreeSplits | kernel/mm.c:87-98 | the tree of a table is the table itself and the trees of its children |
| FreeTables.ChildrenApart | kernel/mm.c:87-98 | no frame is in the trees of two children of a table, so the recursion frees each once |
| FreeUserspaces.FreeUserspace | kernel/mm.c:209-216 | on a space of exactly heap and stack it never panics and frees every frame of the space and no other |
| FreeUserspaces.SpaceExact | kernel/mm.c:209-216 | the pages of a space are exactly those that hold a byte of the heap, and the stack page |
| ProcMemory.NewProc | kernel/proc.c:102-115 | two frames, one for the stack and one as an empty root |
| ProcMemory.HeapLoads | kernel/mm.c:144-157 | every byte of the heap's pages is loaded by user code, from its page and place |
| ProcMemory.EveryFrameAccounted | kernel/kalloc.c:26-60 | every frame is free, reserved, a kernel stack, or in the space of exactly one live process |
| LedgerRuns.OwnStep | kernel/proc.c:265-302 | a fork, sbrk, exit or wait that concerns the child moves no frame but the child's |
| LedgerRuns.ForeignStep | kernel/proc.c:521-546 | a step of any other process is the same step with the child's frames free |
| LedgerRuns.CallsAct | kernel/proc.c:265-302 | what fork, sbrk and wait promise makes each such a step |
| LedgerRuns.LifeConserves | kernel/proc.c:124-130 | in any run from before a child's fork to its wait, with its own sbrks and any steps of others in between, the frames end up as the others alone would have left them; without others, exactly as before |
| ProcMemory.ShrinkExact | kernel/proc.c:597-611 | a smaller size with nothing unmapped fits the space exactly when the page count is the same |
| ProcMemory.ProcTable.constructor | kernel/kalloc.c:80-91 | at boot the books balance |
| InitImage.FreshCopy | kernel/mm.c:101-105 | on the zeroed page kalloc returns the copy leaves what ImageBytes describes |
| InitImage.CopiedByte | kernel/mm.c:105 | after the copy, byte b of the frame i pages behind the first is byte i * 4096 + b of the image, if there is one, and otherwise unchanged |
| InitImage.ImageBytes | kernel/mm.c:101-105 | the code page holds the bytes of the image, each at its place, and zeros behind |
| InitImage.SpillExact | kernel/mm.c:100-108 | copying the image to its first page spares all frames behind, in every memory, exactly for images of at most one page |
| ProcMemory.ProcTable.UserprocInit | kernel/proc.c:135-157 | for an image of any size: runs over exactly when it exceeds a page, with the memory the copy leaves; otherwise the first process loads byte b of the image at 0x1000 + b and zeros behind, may execute the page, has a zero stack, all in frames that were free, and the books balance |
| ProcMemory.ProcTable.Fork | kernel/proc.c:265-302 | the books balance, the child loads the parent's byte at every heap address, everybody keeps their own, exactly the new frames left the free list |
| ProcMemory.ProcTable.Sbrk | kernel/proc.c:597-611 | growth keeps old bytes, adds loadable zero bytes and returns the old break; a non-positive increment keeps the books exactly when no page is given up |
| ProcMemory.ProcTable.Exit | kernel/proc.c:521-546 | every frame of the space is free again, the stack is not, all other spaces are kept |
| ProcMemory.ProcTable.Reap | kernel/proc.c:124-130 | exactly the kernel stack goes back |
| Malloc.SoundRequests | usr/malloc.c:16-41 | the payload fits and sbrk is asked for what the block claims exactly up to 0x7fffffe0 bytes |
| Malloc.PayloadHolds | usr/malloc.c:38-39 | the granted payload holds the request exactly when the rounding does not wrap, and is then less than a unit larger |
| Malloc.ArgExact | usr/malloc.c:22 | sbrk receives the byte count modulo 2^32, as an int |
| Malloc.WrappedRequest | usr/malloc.c:38-39 | the largest request is granted one bare header |
| Malloc.TruncatedRequest | usr/malloc.c:22 | a 4 GiB request asks sbrk for 16 bytes |
| Malloc.GrowthExact | usr/malloc.c:17-32 | for every chunk size: a chunk that sbrk returned keeps the heap sound exactly when sbrk was asked for all the bytes it claims or, for a non-positive argument, when the break stays above all owned bytes |
| Malloc.RefusedExact | kernel/proc.c:597-611 | a NULL from a non-positive argument has moved the break, and the heap is sound exactly when it did not |
| Malloc.NegativeRequest | usr/malloc.c:22 | a request of 0xffffffe0 bytes asks sbrk for -16 |
| Malloc.GapExists | usr/malloc.c:76-80 | in an ascending circle every new address has a gap |
| Malloc.GapUnique | usr/malloc.c:76-80 | and only one |
| Malloc.SearchStep | usr/malloc.c:77-80 | the loop of free goes on at every block but the gap's and stops there |
| Malloc.InsertOk | usr/malloc.c:82-97 | relinking inserts the block whatever it touches: one circle, nothing overlapping or abutting, free bytes gain exactly the block's |
| Malloc.FreeBooks | usr/malloc.c:70-99 | after free the live blocks and the free ones share no byte and cover what sbrk gave |
| Malloc.TakeWhole | usr/malloc.c:51-53 | unlinking an exact fit removes exactly its bytes from the free ones |
| Malloc.TakeTail | usr/malloc.c:54-58 | splitting gives away exactly the last units and keeps the list sound |
| Malloc.LookOn | usr/malloc.c:49-67 | passing a block that is too small brings the end of the circuit closer; a full circuit means no block fits, and cannot happen after the heap has grown |
| Malloc.Heap.InsertionPoint | usr/malloc.c:76-80 | from any freep the search ends within one circuit at the unique gap |
| Malloc.Heap.Free | usr/malloc.c:70-99 | the block leaves the live set, the heap invariant holds, no other live header is written |
| Malloc.Heap.MoreCore | usr/malloc.c:17-32 | the chunk of max(512, n) units joins the list and some block now fits; whatever sbrk was asked for, the list stays sound, and the heap is backed exactly when sbrk gave all of the chunk or, on NULL, left the break above all owned bytes |
| Malloc.Heap.Take | usr/malloc.c:50-61 | the found block gives up its last n units as a new live block |
| Malloc.Heap.Search | usr/malloc.c:49-67 | next fit: the first block after freep that is large enough; growth exactly when none is, and at most once |
| Malloc.Heap.Malloc | usr/malloc.c:34-68 | for every request: NULL exactly for 0 bytes or no fit and no memory; otherwise a fresh live block whose payload holds the request and is less than a unit larger, every other live block untouched; growth takes the larger of 8192 bytes and the block; the list is sound afterwards, and the heap backed exactly if a block fitted, or sbrk gave the whole chunk, or a refusal left the break above all owned bytes; always up to 0x7fffffe0 bytes |
| Spinlock.AcquireOk | kernel/spinlock.c:13-34 | taking a lock one does not hold, the disk lock only without the table lock, never panics and starts with one more nesting level |
| Spinlock.ReleaseOk | kernel/spinlock.c:36-47 | releasing a lock one holds never panics |
| Spinlock.LockStepOk | kernel/spinlock.c:13-68 | every step inside acquire and release keeps ownership exclusive, the byte set exactly while some CPU keeps it, holding exact and the depth right |
| Spinlock.HoldingExact | kernel/spinlock.c:9-11 | holding() is true exactly on the CPU whose thread has the lock |
| Spinlock.MaskRestored | kernel/spinlock.c:49-68 | interrupts stay off between n pushcli and the last of n popcli, which leaves mask and depth as they were |
| Spinlock.SwitchOutOk | kernel/proc.c:224 | switching to the scheduler with the table lock alone hands the lock over |
| Spinlock.SwitchInOk | kernel/proc.c:207 | so does entering a process that no CPU executes |
| Spinlock.IrqEnterOk | kernel/trap.c:118-138 | an interrupt finds a thread without locks, and keeps the lock invariants |
| SchedCoupling.ElsewhereRuns | kernel/proc.c:182-215 | while one CPU has the table lock, every other CPU's current process is RUNNING on it |
| SchedCoupling.NobodyLeaving | kernel/proc.c:419-435 | while one CPU has the table lock no process is about to switch out |
| SchedCoupling.CpuStepKept | kernel/proc.c:182-227 | every step keeps locks and coupling |
| SchedFamily.NoOtherExit | kernel/proc.c:521-546 | one process at a time is between reparent and ZOMBIE |
| SchedFamily.Orphaned | kernel/proc.c:513-519 | reparent leaves the exiting process without children and every process with a live parent |
| SchedFamily.BecomesZombie | kernel/proc.c:534-543 | becoming a zombie leaves no parent asleep in wait |
| SchedFamily.WaitSleeps | kernel/proc.c:471-497 | wait goes to sleep only without a zombie to collect |
| SchedFamily.FamilyStep | kernel/proc.c:265-302 | every step keeps parents live and sleepers in wait without zombie children |
| SchedDisk.Marked | kernel/driver/virtio.c:128-137 | setting done happens with the wakeup still ahead and nobody between check and sleep |
| SchedDisk.WokenUp | kernel/driver/virtio.c:138 | after the wakeup nobody sleeps on the request |
| SchedDisk.Finished | kernel/driver/virtio.c:110-115 | the submitter collects a request that is in no ring any more |
| SchedDisk.DisksStep | kernel/driver/virtio.c:60-144 | every step keeps requests, rings, owners and sleepers consistent |
| SchedRuns.Always | kernel/proc.c:182-215 | the whole invariant holds in every state of every run |
| SchedPids.UniquePids | kernel/proc.c:43-49 | in every run: started processes other than init have positive ids below the counter, and no two of them the same |
| SchedPids.IdsInOrder | kernel/proc.c:43-49 | the counter starts at 1, and each step gives its value to one slot and adds one, or gives no id |
| SchedPids.NeverAgain | kernel/proc.c:98 | an id that a slot has had is never given to another slot later |
| SchedPids.WaitpidReaps | kernel/proc.c:443-469 | the zombie that waitpid(pid) frees has that id, and is the only process that has it |
| SchedLife.LifeStep | kernel/proc.c:182-302 | every change of a slot, by state, id, parent and channel, is one of twelve, each made by one thread at one place: a child gets its forker as parent, only sleepers on the channel of an exiting child's parent or of a completed request's buffer are woken, wait frees only its own zombies |
| SchedLife.LifeAlways | kernel/proc.c:182-227 | so in every step of every run |
| SchedLife.BegunAlways | kernel/proc.c:265-302 | in every run a slot that is taken and not started belongs to a fork under way |
| SchedRuns.LockHandOff | kernel/spinlock.c:9-68 | in every run: one owner per lock, holding() exact, depth the number of locks, interrupts masked while there are any, no panic |
| SchedRuns.SwitchHandsOverTable | kernel/proc.c:163-227 | at every context switch the depth is 1 and the CPU owns the table lock, before and after |
| SchedRuns.RunningIsCurrent | kernel/proc.c:186-215 | with the table lock free a process is RUNNING exactly when it is some CPU's current process |
| SchedRuns.CurrentOfOne | kernel/proc.c:186-215 | and never of two; no process executes on two CPUs |
| SchedRuns.FreedStackIsIdle | kernel/proc.c:124-130 | freeproc frees the stack of a process no CPU executes, and never panics |
| SchedRuns.ParentsLive | kernel/proc.c:286-291 | every started process but init has a parent that is neither freed nor a zombie |
| SchedRuns.NobodyOversleeps | kernel/proc.c:443-497 | no process but init sleeps in wait or waitpid while the child it waits for is a zombie |
| SchedRuns.NoLostWakeup | kernel/driver/virtio.c:110-141 | a sleeper on a done request has its wakeup still to come, from a handler that holds the disk lock; a request not done is at the device or in the used ring, under the sleeper's buffer |
| SchedRuns.ExactlyOnce | kernel/driver/virtio.c:60-144 | in every run a head has been marked done once for each submission and collected once for each mark, the pending ones apart |
| SchedRuns.MarkedOnce | kernel/driver/virtio.c:128-137 | the handler marks only requests that are in flight and not yet done |
| SchedRuns.OneOwner | kernel/driver/virtio.c:60-118 | requests in flight have different submitters, and the used ring holds each at most once |
| SchedRuns.RoundRobin | kernel/proc.c:186-215 | while a slot stays RUNNABLE one CPU dispatches at most NPROC - 1 other processes |
| SchedProgress.Enabled | kernel/proc.c:182-227 | in every reachable state a CPU has a next step unless it waits for a taken lock or is out of descriptors |
| SchedProgress.HolderGoesOn | kernel/spinlock.c:13-34 | the holder of a taken lock waits for no lock, or holds the disk lock and waits for the table lock, whose holder waits for none |
| SchedProgress.NoDeadlock | kernel/driver/virtio.c:110-144 | in every run, while a CPU spins on a taken lock, a CPU that holds this lock (or the table lock, for the disk lock) can take its next step |
| SchedProgress.NeverStuck | kernel/proc.c:182-227 | no state of a run is stuck: some CPU has a next step, or is out of descriptors |
| RankedLocks.StepOk | kernel/spinlock.c:9-68 | for any number of locks and CPUs, each step of code that takes locks by a rule and gives back its own keeps one owner per lock, holding exact, the depth right and the mask closed, and panics nowhere |
| RankedLocks.Always | kernel/spinlock.c:9-68 | so in every run |
| RankedLocks.NoDeadlock | kernel/spinlock.c:13-34 | with a rule that goes up in rank, while a CPU waits for a lock, one that has it or a lock of higher rank does not wait |
| RankedLocks.CrossDeadlocks | kernel/spinlock.c:13-34 | two locks that may each be taken under the other bring two CPUs into a state without a next step |
| RankedLocks.KernelNoDeadlock | kernel/proc.c:419-439 | no deadlock over all ten locks of the kernel, by the nestings of sleep, wakeup, freeproc, copyout, user addresses and messages |
| Virtq.SlotExact | kernel/driver/virtio.c:103-104 | index modulo queue size is the slot of the true count for every count exactly when the size divides 2^16 |
| Virtq.IndexExact | kernel/driver/virtio.c:128 | 16-bit indices agree exactly when the counts do, while less than 2^16 apart |
| Virtq.RingPut | kernel/driver/virtio.c:103-104 | writing the next slot of a ring that is not full overwrites nothing |
| Virtq.Prepended | kernel/driver/virtio.c:41-58 | a freed chain in front of the free list is a free list, also when the old one was empty and the tail keeps a stale next |
| Virtq.ReadableFirst | kernel/driver/virtio.c:75-99 | the chain of a request has what the device only reads first, and a writable buffer exactly for a read |
| Virtq.RequestSeen | kernel/driver/virtio.c:75-99 | following the chain the device finds header, data and status of the right lengths and directions, and in them the request that was made |
| Virtq.Requested | kernel/driver/virtio.c:75-99 | a new chain takes three free descriptors and disturbs no other chain; free list and chains still partition the table |
| Virtq.Queue.constructor | kernel/driver/virtio.c:146-163 | all descriptors are free, in order |
| Virtq.Queue.AllocDesc | kernel/driver/virtio.c:28-39 | the head of the walk; panic exactly when nothing is free |
| Virtq.Queue.FreeDesc | kernel/driver/virtio.c:41-58 | the walk afterwards is the chain followed by the old walk |
| Virtq.Queue.Submit | kernel/driver/virtio.c:60-107 | panic exactly with fewer than three free descriptors; otherwise the request is last in the avail ring, the device reads from its chain the operation, sector 2 * bno, buffer and status asked for, all other requests read as before, and the partition holds |
| Virtq.Queue.DeviceFetch | kernel/driver/virtio.c:103-107 | the device reads the requests in the order of submission, none overwritten |
| Virtq.Queue.DeviceComplete | kernel/driver/virtio.c:128-131 | any request of the device may come back next |
| Virtq.Queue.HandleOne | kernel/driver/virtio.c:128-141 | the oldest completed request, and no other, is marked done and its sleepers named |
| Virtq.Queue.Intr | kernel/driver/virtio.c:122-144 | marks exactly the completed requests, each once, in order |
| Virtq.Queue.Finish | kernel/driver/virtio.c:110-118 | the submitter's done flag is consumed, its three descriptors are free again, and all other requests read as before |
| Virtq.MarkedExactly | kernel/driver/virtio.c:128-141 | exactly the handled heads have changed |
| DiskRefinement.SubmitRefines | kernel/driver/virtio.c:75-107 | submitting is the submission step of the step system, on a descriptor that headed nothing |
| DiskRefinement.FetchRefines | kernel/driver/virtio.c:103-107 | the device reading a request is invisible to submitters and handler |
| DiskRefinement.CompleteRefines | kernel/driver/virtio.c:128-131 | completion is the device step |
| DiskRefinement.HandleRefines | kernel/driver/virtio.c:128-141 | a round of the handler is its marking step followed by its dropping step |
| DiskRefinement.FinishRefines | kernel/driver/virtio.c:110-118 | the submitter's return is the collecting step |
| DiskRefinement.StepProjects | kernel/driver/virtio.c:60-144 | every step of the step system is one step on requests and used ring, or leaves them alone |
| DiskRefinement.OpRefines | kernel/driver/virtio.c:60-144 | what any call promises keeps the queue sound and extends a run on requests |
| DiskRefinement.Drive | kernel/driver/virtio.c:60-144 | any sequence of calls on a queue object, each allowed, is a run on requests |
| Dirent.FindExact | kernel/ext2.c:612-626 | search finds a name exactly when a record has it, with that record's inode |
| Dirent.BytesRead | kernel/ext2.c:612-626 | 16- and 32-bit fields are read least byte first |
| Dirent.FindAppend | kernel/ext2.c:308-378 | linking makes the new name resolve to its inode and leaves all others as they were |
| Dirent.AppendKeeps | kernel/ext2.c:359-373 | linking keeps inode, name and type of every record and adds one with those given |
| Dirent.FindDirAppend | kernel/ext2.c:308-378 | the same across the blocks of a directory |
| Dirent.CStrPadded | kernel/ext2.c:617-620 | a name copied into a zeroed buffer compares like the name |
| Dirent.PutReads | kernel/ext2.c:366-373 | the bytes written read back as the record, and no others change |
| Dirent.RoomExact | kernel/ext2.c:333-334 | the space check leaves room for the record; only its NUL may fall on the block end |
| Dirent.OverrunExact | kernel/ext2.c:333-373 | no room exactly when what follows the last name is no longer than the record in whole words; the NUL falls behind the block exactly when the name fills whole words, the last name does not end on one, and the record takes all the room |
| Dirent.OverrunHappens | kernel/ext2.c:333-373 | a sound directory block and a name for which it does |
| Dirent.Linking | kernel/ext2.c:359-373 | the block after linking tiles into the old records and the new one |
| Dirent.Search | kernel/ext2.c:612-626 | the walk ends at the block end and returns the first record of the name |
| Dirent.SearchDir | kernel/ext2.c:628-641 | the first block that knows the name |
| Dirent.LinkEmpty | kernel/ext2.c:347-357 | one record, with inode, name and type, tiles the whole block |
| Dirent.LinkBlock | kernel/ext2.c:316-378 | Full, Overrun or Linked as the layout decides; written blocks tile exactly with the old records and the new one, its type included, also on Overrun, where the spilled NUL clears the low byte of the buffer's block number |
| Dirent.LowByte | kernel/ext2.c:366-373 | what the spilled NUL leaves of a block number: byte 0 is 0, the others are kept |
| Dirent.Dirlink | kernel/ext2.c:308-378 | refuses exactly the present names; a directory without blocks gets its first one; otherwise the first block that is not full decides and has the new record behind its own, and on a link exactly the new name's lookup changes |
| Path.ParsedComponents | kernel/ext2.c:591-610 | what skippath cuts off is the first component of the path |
| Path.SkipPath | kernel/ext2.c:591-610 | first component and rest, for a component of any length up to the limit; fails exactly on a longer one |
| Path.Traverse | kernel/ext2.c:643-660 | folding directory lookup over the non-empty components, for every path; NULL at a component that is too long |
| Path.TraverseParent | kernel/ext2.c:662-680 | the fold up to the last component, and its name, for every path |
| Path.OneLookup | kernel/ext2.c:643-680 | looking the returned name up in the returned directory resolves the path |
| Path.LongAgrees | kernel/ext2.c:643-680 | a component that is too long makes both walks agree |
| Path.ParentThenLookup | kernel/ext2.c:643-680 | looking up the returned name resolves the path in every tree exactly for a path with a component and at most one trailing slash, or with a component that is too long |
| Namespace.ResolvedStays | kernel/ext2.c:308-378 | linking a new name changes no path that resolved before |
| Namespace.LinkedResolves | kernel/ext2.c:573-589 | the path whose parent walk gave the directory and name resolves to the new inode |
| Namespace.MakeNode | kernel/ext2.c:573-580 | parent walk, link, resolve: the path failed before, gives the new inode now, and every path that resolved still does, to the same inode |
| Namespace.MakeDirectory | kernel/ext2.c:414-447 | after mkdir the path gives the new directory, the path and "." too, the path and ".." its parent; nothing else resolves in it, and every path that resolved still does |
| BlockBitmap.FindFree | kernel/ext2.c:121-137 | the lowest clear bit; -1 exactly when there is none |
| BlockBitmap.MarkExact | kernel/ext2.c:165-189 | setting a bit changes that bit only |
| BlockBitmap.WriteBit | kernel/ext2.c:165-189 | the loop finds the byte of the bit |
| BlockBitmap.AllocBlock | kernel/ext2.c:191-202 | the lowest clear block, now used; -1, stored as 0xffffffff, and no change on a full bitmap |
| BlockBitmap.AllocNTakes | kernel/ext2.c:237-240 | n allocations give distinct blocks that were clear, then -1 for the rest, and fall short only when the bitmap is full |
| BlockBitmap.ClearExact | kernel/ext2.c:237-240 | all n allocations succeed exactly when n distinct bits are clear |
| FileBytes.ReadInode | kernel/ext2.c:497-525 | for every inode: refused exactly behind the size; a disk panic exactly when a counted block of the range is not on the disk; otherwise the bytes from off, ending exactly where the request, the size or the counted blocks do first, each from the disk block that its slot or, for an indirect block holding any 256 words, word k of it for block 12 + k, numbers |
| FileBytes.BlocksInOrder | kernel/ext2.c:213-225 | file block i < 12 is slot i; file block 12 + k is the k-th little-endian word of the indirect block |
| FileBytes.BlocksThere | kernel/ext2.c:213-225 | a sound file, counted indirect block or not, is read without a disk panic |
| FileBytes.CountsItsMap | kernel/ext2.c:11-11 | a file of thirteen data blocks that counts fourteen is sound |
| FileWrite.Volume.WriteInode | kernel/ext2.c:527-562 | for every inode, bitmap, buffer and offset: refused exactly behind the size; otherwise the size is the larger of the old one and the end of the write, and result, disk, bitmap and inode are those of the specification WInode, with what a panic or slots past the last end in |
| FileWrite.WroteSize | kernel/ext2.c:533-534 | the size after any write, also where its 32 bits wrap |
| FileWrite.Volume.Grow | kernel/ext2.c:227-247 | slots from the first empty one on get what the allocations give, -1 included; nothing without an empty direct slot |
| FileWrite.Volume.CopyIn | kernel/ext2.c:543-557 | the loop patches block by block as CopyFrom says, and panics exactly where that does |
| SoundWrites.OneBlock | kernel/ext2.c:544-550 | writing one block of a sound file changes those bytes of it and no block number |
| SoundWrites.LoopEnds | kernel/ext2.c:543-557 | on a sound file the loop ends with every byte as Written says and all blocks elsewhere kept |
| SoundWrites.GrowsReal | kernel/ext2.c:227-247 | growth within the direct slots keeps the old blocks and adds distinct ones nobody used |
| SoundWrites.SafeWrite | kernel/ext2.c:527-562 | a safe write of any length at any offset: which bytes are the buffer's, that all others are kept, that only free blocks are taken and nothing in use elsewhere is touched |
| WriteLaws.HoldsExact | kernel/ext2.c:543-557 | after a safe write position k holds the buffer's byte, for every buffer, exactly when the loop reaches k and k is in a block |
| WriteLaws.WholeExact | kernel/ext2.c:527-562 | every byte of a safe write is stored, for every buffer, exactly when it is aligned or within one block and ends within the blocks or, growing, on the end of a direct block |
| WriteLaws.WholeIsSafe | kernel/ext2.c:536-541 | and such a write is safe for every sound file, if the bitmap has the blocks it needs |
| WriteLaws.KeepsExact | kernel/ext2.c:527-562 | the file is sound after a write exactly when growth stays in the direct slots and finds its blocks or, without growth, the write does not end behind the data of a file that counts its indirect block |
| WriteLaws.FullBitmap | kernel/ext2.c:236-246 | with too few clear bits growth reports success and leaves -1 in a slot; the loop panics exactly when the write begins below the new end, and the file is not sound |
| WriteLaws.PastDirect | kernel/ext2.c:213-225 | no growth past slot 11 leaves a sound file, when the block for slot 12 was empty |
| WriteLaws.ThreeMore | kernel/ext2.c:213-246 | eleven blocks grown by three: the third kilobyte is in block 0 and stands in for the second |
| WriteLaws.AppendHitsBlockZero | kernel/ext2.c:527-562 | appending to a file that counts its indirect block writes the data to block 0 |
| WriteLaws.OtherFileKept | kernel/ext2.c:527-562 | a sound file without common blocks, indirect ones included, keeps every byte and stays sound and apart |
| WriteLaws.WholeFile | kernel/ext2.c:497-562 | every write that meets the condition, on any sound file, reads back exactly, leaves the file sound, ending at the larger of its old size and the end of the write, and every other byte of it as it was |
| WriteLaws.WriteThenRead | kernel/ext2.c:497-562 | the same of the calls, one after the other: a read of any length from the start of a file with blocks for its size ends at that size and has the new bytes where they were written, the old ones elsewhere |
| Bcache.Cache.constructor | kernel/buf.c:14-20 | all slots cleared |
| Bcache.Cache.GetBuf | kernel/buf.c:22-44 | the first slot of the block, else the first free one; panics exactly when neither exists |
| Bcache.Cache.BioRead | kernel/buf.c:46-60 | for a non-zero block the data a disk without cache would return |
| Bcache.Cache.ModifyWrite | kernel/buf.c:62-65 | the disk has the new data and the cache stays coherent |
| Bcache.Cache.BioDup | kernel/buf.c:67-73 | one more handle |
| Bcache.Cache.BioFree | kernel/buf.c:75-87 | panics exactly when nobody holds the slot; the last handle clears it |
| Bcache.ZeroBlockTwice | kernel/buf.c:22-44 | a run after which block 0 is live in two slots |
| CacheRuns.StepGood | kernel/buf.c:46-87 | with any number of readers, each step keeps references, slots and contents right, as long as nobody begins to fill a slot that is being filled |
| CacheRuns.NoLostUpdate | kernel/buf.c:46-87 | in every such run each holder of a block sees what was stored last |
| CacheRuns.WriteReaches | kernel/buf.c:62-65 | in every such run bio_write brings what any holder stored last to the block's place on the disk, and changes no other block |
| CacheRuns.TakenFresh | kernel/buf.c:22-44 | who takes a block that nobody holds starts from what the disk has |
| CacheRuns.FillsOver | kernel/buf.c:46-60 | two fills of one slot can always be continued so that the second puts the disk's block over what a holder has stored |
| CacheRuns.LookExact | kernel/buf.c:46-60 | beginning to fill is harmless in all runs that follow exactly when nobody else is filling the slot |

## Left out

- Assembly, MMIO, the interrupt controller, timer, UART, boot tables, TLB and caches: foreign or hardware state. A context switch is a transfer of control, the exclusive load and store pair one atomic test-and-set, the device a step of its own.
- pushcli and popcli are single steps; an interrupt between the counter and the mask is not modelled.
- kpgt_init: it rewrites the mappings the kernel runs on.
- P2V and V2P: a constant offset, taken as the identity on frames. OR, shift and mask of table words are written as sums, quotients and remainders.
- Out of memory: operations promise then only that the free list is empty and the lock of the allocator taken, not what the half-built space looks like. fork and sbrk that fail so are no steps of LedgerRuns.
- exec, load_prg and ELF parsing; clone, whose threads share a page table; file descriptors.
- ProcMemory.ProcTable.UserprocInit: what becomes of the kernel after an image has run over its page is not followed.
- Attributes of copied pages: cp_userspace gives all heap pages one attribute set.
- User stores are whole words; bytes are read one by one.
- kill and signals, in particular of a process asleep under a device lock, and init's sleep when it adopts a zombie: reparent wakes nobody. The properties of sleepers in wait are stated for all processes but init.
- Process ids have a counter without its lock and without wrap-around; a scan for a slot or a zombie takes any that matches, which includes the first.
- Console and other sleepers.
- SchedRuns.LockHandOff: in the step system of processes only the table lock and the disk lock; the others are in RankedLocks, by CPU and without the code around them.
- SchedProgress.NoDeadlock: virtio_blk_op with fewer than three free descriptors halts the kernel; the step system has no step there. The status byte is taken as success.
- PhysMem.Memory.KAlloc: that a second call panics or spins is left to its precondition; locks are the subject of Spinlock.
- Bcache.Cache.BioRead: one caller at a time; interleaved readers are in CacheRuns, where bio_dup does not occur and a store that is not written before the last bio_free is dropped.
- Dirent.LinkBlock: deleted records do not occur, since nothing unlinks. What becomes of a buffer whose block number lost its low byte is not followed.
- Path.Traverse: a component of exactly 255 bytes is walked like any other, but its NUL falls outside the name buffer, which is not followed.
- FileWrite.Volume.WriteInode: after a panic, or growth past slot 14, nothing is said of the memory; writing the inode back to its table is not modelled. Sums of offset and size stay below 2^39, so that block numbers fit an int.
- FileBytes.ReadInode: map words more than one past the 256 of an indirect block, which lie in what struct buf keeps behind its block number, are taken as no block.
- WriteLaws.KeepsExact: writes that end beyond 4 GiB, where the size wraps, are only in FileWrite; bit 0 of the bitmap is taken as set, and for PastDirect the block taken for slot 12 as empty.
- Buffer release on failure paths, inode allocation and the inode's fields in mknod and mkdir, symbolic links, timestamps.
- Path.LookOne: a file in the middle of a path ends the walk at that file, as the code does; MakeNode is about walks that end in a directory.
- Malloc.Heap.Malloc: calls on a heap that is no longer backed. A non-NULL result of sbrk is taken to come from a positive argument and to lie at or above the old break.
