# xv6 with swapping: a verified model

A Dafny model of the hard core of this x86 teaching kernel and of three of its user
programs, with proofs. Values (a disk, an address space, a process table, a heap) carry the
invariants and the theorems; classes and methods with the kernel's own loops are proved to
compute those values.

| files | what they model |
|---|---|
| LogCrash, LogReserve, Log | the write-ahead log: crash points of commit and recovery, space reservation, the running log |
| BufCache, BufUsers, BufStore | the buffer cache: LRU ring, key lookup, coherence with a plain block map; any number of processes using it, each with any number of buffers; what they see of it |
| Inode, WriteLog, Files, ChunkExample | block ownership, file contents, writei, readi, itrunc, filewrite and exactly which blocks each write allocates and logs |
| Paging, PageSteps, Victims, PageSwap | frames, two-level page tables, swap slots; which pages the swapper takes; the frame allocator and the swapper |
| VmSteps, Vm, UserMem, CopySpace, CopyExample, CopyOut | page-table construction and teardown, growth, swap-in, fork's copy, copyout |
| SleepLock, ProcTable, Pipe, PipeStreams | interleaved steps of any number of processes over sleep/wakeup; whose bytes a pipe carries |
| Umalloc, Malloc | the K&R allocator on its circular list |
| Shell, ShellGrammar, ShellLines | the shell's parser and nulterminate; the language it accepts, as a token grammar; lines without parentheses |
| Grep | the regular-expression matcher |

How to read the memory modules: `Inv` says who owns every frame and every named slot; `Seen`
is a page as its process sees it, its frame if present and its slot if swapped out; `Quiet`
says that outside a given hole no owner, kernel entry, held frame or live page changed;
`Still` is `Quiet` with an empty hole together with `Evicts`, all that eviction may do.
A page's permission in `Seen` is what the processor grants, both levels of the table taken
together (`HardwareGrants`).
`Leaving` says, before a `kalloc`, which pages it will evict: with the free list empty, the
first `Batch` pages of the victim, idle ones first and then by address.

Where the code falls short of what one would expect, the code is modelled as it is:

- A log of LOGSIZE blocks, which mkfs makes, can panic in `log_write` although every
  operation keeps to its budget; the bound holds exactly when the log area is larger
  (`MkfsLogTooSmall`, `BudgetSufficesIff`). Re-logging a block can panic too (`AbsorptionCanPanic`).
- `log_write` tests its bounds before it takes the lock. The in-memory list never overflows
  (`StoreInBounds`), but two operations can pass the test for the log area at once: the blocks
  fit behind its header exactly when it is larger than LOGSIZE (`AreaSufficesIff`).
- A killed writer with more to write than the pipe holds leaves a sleeping reader asleep on a
  full pipe; `ReadersRestedIff` says that this is the only way.
- `malloc` of more than 0x7ffffff0 bytes computes a wrapped size (`RequestExact`, `HonestIff`). If
  sbrk succeeds with the wrapped argument, the heap's books show at least 0x1_0000_0000 bytes that
  sbrk did not give (`Malloc`).
- `kill` does not test the state and `allocproc` does not clear `killed`. A pid that no process has
  may mark a free entry (`KillHitsFree`), and a child is born killed exactly if the last kill or
  reap that hit its entry was a kill (`BornKilledIff`); kill(0) and a fork show it (`BornKilled`).
- `swappage_in` reads an all-zero entry as slot 0. The invariant survives exactly when no live
  entry names slot 0 (`SwapIn`); on the machine of `ZeroEntryExample` it does not (`ZeroEntryBreaks`).
- `copyuvm` reads a frame number before `kalloc` may evict that very page. A page is lost that
  way exactly if it was `Leaving` when its own `kalloc` began (`CopyPresent`), for example the
  lowest idle page of the victim when the free list is empty (`LowestIdleDoomed`); a page that
  must first be brought back, exactly if it comes back into the last frame only to be the first
  to leave (`CopySwapped`, `Returns`). From the state at the call, `CopyUvm` says that nothing is
  lost as far as the frames fit: one for the directory, for each table and for each page, and one
  more for each page not in memory. The next page, if it and those before it are in memory, is
  lost exactly if the frames run out with it and a swapout at the call would take it. With ten
  free frames there is a first page that does not fit, or all do (`SomeBrink`). On the machine of
  `LossReady` the fork succeeds and the child's page 0 is not its parent's (`ForkLosesPage`).
- The retries of `kalloc` in allocuvm, copyuvm and swappage_in never help: `kalloc` fails only on
  a machine that another swapout cannot change (`KAllocMore`).
- The comment in `duplicateslot` hopes that swapping out frees slots; it only uses them up.
- `kfree` does not notice a frame that is free already; the list is then a ring (`DoubleFree`).
- `rss` is an unsigned 32-bit count that may fall below zero and wrap; the process is then
  preferred as victim (`WrapStaysVictim`).
- `>>` opens the file exactly like `>`.
- `swapInit` is reached only in the model's initial state; main calls it after a call that does
  not return.

## Model

| member | source | states |
|---|---|---|
| LogCrash.HeadRoundTrip | log.c:84-113 | reading a header block that write_head wrote gives back the same count and block numbers |
| LogCrash.InstallKeeps | log.c:68-82 | after any number of block copies of install_trans, installing the rest still gives the same home disk |
| LogCrash.InstallCompletes | log.c:68-82 | when all copies are done, every home block is the one the log prescribes |
| LogCrash.RecoverKeepsPending | log.c:115-122 | every crash point of recovery leaves the same home disk pending |
| LogCrash.RecoverCompletes | log.c:115-122 | completed recovery leaves exactly the pending home disk and an empty log |
| LogCrash.BeforeHeader | log.c:176-190 | until the header is written, a crash in commit leaves the old home disk pending |
| LogCrash.HeaderCommits | log.c:98-113 | the header write alone switches what is pending from the old to the new home disk |
| LogCrash.CommitPoint | log.c:192-202 | after each of commit's block writes either the old or the new home disk is pending, the new one exactly from the header write on |
| LogCrash.CrashesKeepPending | log.c:115-122 | any number of recoveries that crash themselves leave the same home disk pending |
| LogCrash.CrashAtomicity | log.c:68-202 | commit crashing anywhere, then any crashed recoveries, then a completed one: all home blocks are old or all are new, never a mix |
| LogReserve.StepKeepsInv | log.c:124-233 | every begin_op, test and store of log_write, end_op and commit step keeps the reservation invariant |
| LogReserve.Reservation | log.c:124-174 | in every interleaving logged numbers are distinct, the log plus all unspent budgets fits in LOGSIZE, at most LOGSIZE / MAXOPBLOCKS operations are outstanding, a commit runs alone, and nothing stays logged once no operation is outstanding and no commit runs |
| LogReserve.StoreInBounds | log.c:213-233 | in every interleaving a store of log_write stays within lh.block although its test ran before the lock was taken |
| LogReserve.WritePanicsExactly | log.c:214-233 | with a log larger than LOGSIZE, in every reachable state log_write panics exactly when the log holds LOGSIZE blocks, and then the operation has spent its budget |
| LogReserve.MkfsLogTooSmall | log.c:214-219 | a run on a log of LOGSIZE blocks in which an operation within its budget panics |
| LogReserve.AbsorptionCanPanic | log.c:218-227 | for larger logs, a run in which re-logging a block already logged panics |
| LogReserve.BudgetSufficesIff | log.c:124-141 | admitted new blocks never panic if and only if the log area holds LOGSIZE blocks besides its header |
| LogReserve.AreaSufficesIff | log.c:218-230 | in every interleaving the logged blocks fit the log area if and only if it holds LOGSIZE blocks besides its header (or none) |
| Log.FsLog.constructor | log.c:53-66 | initlog on a crashed disk: the pending home disk is recovered and the log is empty |
| Log.FsLog.WriteHead | log.c:98-113 | one block write, of the header that encodes the in-memory list |
| Log.FsLog.ReadHead | log.c:84-96 | the in-memory list becomes the one encoded on disk |
| Log.FsLog.InstallTrans | log.c:68-82 | passes through the install states of the crash model and ends in the last |
| Log.FsLog.WriteLog | log.c:176-190 | passes through the log-copy states of the crash model |
| Log.FsLog.Commit | log.c:192-202 | every disk state on the way is a crash point of the crash model; at the end the home disk is the logged one |
| Log.FsLog.RecoverFromLog | log.c:115-122 | passes exactly through the recovery states and installs the pending home disk |
| Log.FsLog.BeginOp | log.c:124-141 | admits exactly when no commit runs and the logged blocks plus MAXOPBLOCKS for each operation, this one included, fit in LOGSIZE; then one more operation is outstanding |
| Log.FsLog.TestLog | log.c:218-221 | passes exactly when the list holds fewer than LOGSIZE blocks and fewer than fit the log area behind its header |
| Log.FsLog.StoreLog | log.c:223-232 | the block's number is in the list once and its new contents are logged |
| Log.FsLog.LogWrite | log.c:204-233 | the block's number is in the list once and its new contents are logged, with absorption; false exactly at the panics |
| Log.FsLog.EndOp | log.c:143-174 | the only outstanding operation commits: the log is empty and each home block is the logged contents, or as before if it was not logged; with others outstanding disk and log are untouched |
| BufCache.MoveKeepsOrder | bio.c:118-141 | moving a released buffer to the front keeps latest-release-first order |
| BufCache.SetRecycled | bio.c:81-91 | recycling an unreferenced clean buffer loses nothing: cache and disk still present the same block map |
| BufCache.SetDirty | log.c:227-233 | logging a change updates the plain map while the disk keeps the old contents |
| BufCache.SetWritten | bio.c:108-116 | writing a change updates the plain map and the disk together |
| BufCache.Sole | bio.c:58-79 | no two buffers in use carry the same key |
| BufCache.Cache.constructor | bio.c:38-56 | binit threads every buffer once into one circular list, none of them in use |
| BufCache.Cache.FindKey | bio.c:63-79 | the first buffer with the key in list order, or none has it |
| BufCache.Cache.FindFree | bio.c:81-91 | of all buffers without references or logged changes, the one released longest ago |
| BufCache.Cache.BGet | bio.c:58-93 | hit or least recently released clean buffer; list, keys and coherence are kept |
| BufCache.Cache.Lock | bio.c:58-93 | the process that bget chose the buffer for becomes its holder; contents and list are kept |
| BufCache.Cache.Modify | fs.c:216-236 | a holder's change to the data shows only in the buffer until it is logged or written |
| BufCache.Cache.Fill | bio.c:95-106 | the holder sees the block's contents in the plain block map |
| BufCache.Cache.BWrite | bio.c:108-116 | disk and plain map get the buffer, which is clean |
| BufCache.Cache.MarkDirty | log.c:204-233 | the plain map gets the data and the buffer cannot be recycled |
| BufCache.Cache.BRelse | bio.c:118-141 | the last release moves the buffer to the front and stamps it latest |
| BufUsers.TouchedFirst | bio.c:65-75 | a buffer in use is the first in the list with its key, so bget's scan finds it |
| BufUsers.StepKeepsInv | bio.c:58-141 | every section of bget, bread, bwrite, log_write and brelse, by any process with any number of buffers, keeps counts, keys, list order, holders and coherence |
| BufUsers.UsersSafe | bio.c:58-141 | in every interleaving the buffer still carries the key when locked, a block has one holder, bread's data is the plain map's, and refcnt is the number of users |
| BufUsers.NoPanic | bio.c:108-141 | in every interleaving bwrite and brelse find the caller holding the lock and the count positive |
| BufUsers.FillsView | bio.c:95-106 | a block that is not valid in its buffer is valid in none, so reading the disk gives the plain map's value |
| BufStore.CacheIsStore | bio.c:58-141 | in every interleaving the cache is a plain store: whoever has read a block sees what was last logged or written to it, through whichever buffer and by whichever user, or its own changes since |
| Inode.WordRoundTrip | fs.c:370-400 | an indirect entry written as four little-endian bytes reads back, the others unchanged |
| Inode.SlotLayout | fs.c:370-400 | the number of data block k is word k of the inode, or for k from 12 on the little-endian word k - 12 of the indirect block |
| Inode.AllocOwned | fs.c:55-78 | a freshly allocated block is in no inode and allocating it keeps ownership |
| Inode.AttachSlots | fs.c:370-400 | bmap's store fills that slot and no other slot of any inode |
| Inode.AttachOwned | fs.c:370-400 | after the store every block is still in at most one slot and marked in the bitmap |
| Inode.AttachByte | fs.c:370-400 | attaching a zeroed block changes no byte of any file |
| Inode.PutByte | fs.c:478-511 | a stored piece changes exactly its bytes of exactly that file |
| Files.GrowGrew | fs.c:370-400 | allocating and attaching a block keeps ownership and all contents |
| Files.WriteDone | fs.c:478-511 | loop and size update together are one splice of the file's byte sequence |
| Files.SpliceBytes | fs.c:478-511 | the splice is the one sequence that has src in its range and the old bytes elsewhere |
| Files.ChunkFits | file.c:115-156 | a chunk of filewrite logs at most MAXOPBLOCKS blocks for every size, offset and alignment |
| WriteLog.LogSetGrow | fs.c:370-400 | what a round that allocates adds to the logged set |
| WriteLog.LogSetCard | fs.c:478-511 | the logged set has at most one block per round, a bitmap block per new block, the indirect block and its bitmap block |
| Files.GrewTwice | fs.c:385-396 | the first indirect entry takes exactly two free blocks |
| Files.ProgressStep | fs.c:492-502 | one round of writei keeps the exact account of bytes, new blocks and logged blocks |
| Files.LoggedCard | fs.c:478-511 | the exact logged set stays within WriteCost |
| ChunkExample.SlotsTaken | fs.c:370-400 | on a volume with four free blocks a write that needs four takes all of them |
| ChunkExample.ChunkFillsLog | file.c:133-145 | on a valid volume every chunk of that size at that offset logs exactly MAXOPBLOCKS blocks: the bound is tight |
| Files.BlockRun | fs.c:449-476 | a run inside one block is a run of the file |
| Files.ClearStep | fs.c:402-435 | the block itrunc frees next is still marked, so bfree cannot panic |
| Files.TruncatedOk | fs.c:402-435 | after itrunc the file is empty, every other file and its ownership are untouched |
| Files.Volume.BAlloc | fs.c:55-78 | the lowest free block, marked and zeroed, logged with its bitmap block; false exactly when none is free |
| Files.Volume.BMap | fs.c:370-400 | a slot the file holds is just read; the next one gets a new block, exactly if enough are free; no byte changes |
| Files.Volume.IUpdate | fs.c:216-236 | the disk copy of the inode becomes the in-memory one |
| Files.Volume.WriteI | fs.c:478-511 | -1 with no effect, exactly for an offset beyond the file or an end beyond the limit; or every byte of the file is the one of src at its place or the old one, the file ending where the longer of both ends; all inodes are on disk and exactly the blocks of LoggedWrite were logged; balloc panics exactly if too few blocks are free |
| Files.Volume.ReadI | fs.c:449-476 | -1 exactly if the offset is beyond the file or its sum with n wraps; else exactly the slice of n bytes at the offset, cut at the end of the file, none at its end; nothing is allocated or changed |
| Files.Volume.BFree | fs.c:80-95 | clears the bit; false exactly for a free block |
| Files.Volume.ITrunc | fs.c:402-435 | clears exactly the inode's bits, never panics, empties the file in memory and on disk, keeps every other file |
| Files.Volume.FileWrite | file.c:115-156 | all of src lands at the offset or whole chunks up to the file size limit; no transaction logs more than its reservation |
| Paging.SwapEntryFacts | pageswap.c:201-204 | a swapped-out entry is never all zero, is not present, and names its slot with the old flags |
| Paging.MapEntryFacts | vm.c:57-80 | the entry of mappages is present and names its frame and flags |
| Paging.FlagsRoundTrip | pageswap.c:172-281 | out and back in, the flag bits of the entry are the old ones |
| Paging.SetPteAt | vm.c:32-55 | storing one entry changes that entry of that directory and no other entry of any directory |
| Paging.HardwareGrants | vm.c:32-55 | on every machine, a user may read or write a page, judged at both levels of the table, exactly if it is present and the permission its process sees says so |
| PageSteps.PopKeeps | kalloc.c:104-108 | taking a frame keeps the list, every owner and every page seen |
| PageSteps.FreeKeeps | kalloc.c:55-77 | freeing a held frame keeps the list, every owner and every page seen |
| PageSteps.OutKeeps | pageswap.c:172-211 | moving a page to a free slot keeps frame and slot ownership, and every live page looks the same |
| PageSteps.ClearKeeps | pageswap.c:344-352 | clearing an Accessed bit is invisible |
| PageSwap.FrameSeenOnce | vm.c:57-80 | no frame is mapped at two user pages, and no mapped frame is free |
| PageSwap.SlotNamedOnce | pageswap.c:114-144 | a slot named by a live entry is in range, in use, and named by no other |
| PageSwap.SlotReleased | pageswap.c:133-144 | freeing a slot that no live entry names is invisible |
| PageSwap.SlotFilled | pageswap.c:45-95 | filling a free slot is invisible |
| Victims.ClearedIdle | pageswap.c:344-367 | after the clearing pass a page is idle exactly when it could be evicted |
| Victims.PickedBits | pageswap.c:323-370 | on the bits of the entries: the page taken is the first present, user and not accessed; Accessed bits are cleared on the present user pages, and only when all of them have it |
| Victims.FirstRank | pageswap.c:323-370 | the pages gone after k turns are exactly those with fewer than k before them in order |
| Victims.EvictingTurn | pageswap.c:389-401 | a turn takes the next page in order, clearing Accessed bits when no idle page is left |
| Victims.WrapStaysVictim | pageswap.c:399-399 | a victim that gives up more pages than its 32-bit rss counts stays the victim |
| Victims.OneVictim | pageswap.c:285-319 | findproc's choice is unique |
| Victims.SomeVictim | pageswap.c:285-319 | there is a choice as soon as some process has a resident page |
| Victims.LowestIdleDoomed | pageswap.c:323-342 | the victim's lowest idle page leaves as soon as a slot is free |
| Victims.SwapStuck | pageswap.c:375-410 | a swapout frees nothing if and only if the machine is stuck, and then it stays so |
| Victims.SwapLeft | pageswap.c:375-410 | the pages that left are exactly those that were Leaving |
| PageSwap.EvictedStill | pageswap.c:397-401 | page out, rss down and frame freed: all that eviction may do, and no more |
| PageSwap.Machine.constructor | main.c:18-38 | the booted machine satisfies the invariant with every frame from end up free and every slot free |
| PageSwap.Machine.SwapInit | pageswap.c:98-112 | every slot becomes free with no flags |
| PageSwap.WholeFrames | kalloc.c:46-53 | the range freerange works on is that of the frames wholly between the addresses |
| PageSwap.Machine.FreeRange | kalloc.c:46-53 | exactly the whole pages between the addresses become free |
| PageSwap.DoubleFree | kalloc.c:55-77 | after a double free no list of frames describes the machine |
| PageSwap.Machine.KFree | kalloc.c:55-77 | panics exactly for addresses that are not allocatable pages; else the frame, filled with ones behind its link, is the new head of the list, which stays a list exactly if the frame was not on it |
| PageSwap.Machine.CountPages | pageswap.c:146-170 | the walk along the links counts exactly the free frames |
| PageSwap.Machine.FindSlot | pageswap.c:114-131 | the lowest free slot, now used, or none is free |
| PageSwap.Machine.FreeSlot | pageswap.c:133-144 | the slot in range becomes free, any other number does nothing |
| PageSwap.Machine.StorePage | pageswap.c:193-199 | the page is in the slot's eight blocks in order, from block 2 plus eight times the slot on, and no other slot changed |
| PageSwap.Machine.LoadPage | pageswap.c:251-256 | the eight blocks read, in order, are the slot's page |
| PageSwap.Machine.FindProc | pageswap.c:285-319 | the process with the largest 32-bit rss, lowest pid on ties, first in the table after that; none exactly when every rss is 0 |
| PageSwap.Machine.FindPage | pageswap.c:323-370 | the lowest idle page of the resulting tables; Accessed bits change only when none was idle; none exactly when nothing can be evicted |
| PageSwap.Machine.SwapPageOut | pageswap.c:172-211 | the page is in the lowest free slot with its flags; -1 exactly when not present or no slot is free |
| PageSwap.Machine.EvictOne | pageswap.c:389-407 | a turn evicts the lowest idle page exactly when a page and a slot exist, freeing one frame; rss drops by one, wrapping |
| PageSwap.SwapEnds | pageswap.c:389-409 | the loop stops after exactly Batch pages: npages_to_swap, unless pages or slots run out |
| PageSwap.Machine.SwapOut | pageswap.c:375-410 | exactly the first Batch pages of the victim in order leave memory, its rss drops by that, no other directory changes, no live process's memory changes |
| PageSwap.Machine.CheckASwap | pageswap.c:413-433 | swaps exactly when memory is short, then takes beta percent off the threshold, down to 1, and adds alpha percent to the batch, up to 100, both rounded as the source's division does; nobody's memory changes |
| PageSwap.PolicyAdapts | pageswap.c:426-431 | the two updates differ from the exact percentages by less than one, and stop at 1 and at 100 |
| PageSwap.PolicySettles | pageswap.c:426-431 | threshold and batch stay within their bounds; with the default percentages they stop changing exactly at 9 or less and at the limit |
| PageSwap.Machine.KAlloc | kalloc.c:79-111 | a frame nobody held, filled with fives; 0 if and only if the list was empty and nothing could be evicted; exactly the Leaving pages are evicted, and that is invisible |
| PageSwap.Machine.DuplicateSlot | pageswap.c:45-95 | the lowest free slot gets the same page and flags and is named by nobody; -1 exactly when the parent slot holds nothing or no slot is free; no page moves |
| PageSwap.Machine.SwapFree | pageswap.c:436-459 | exactly the slots that the process's entries name become free |
| VmSteps.TabledKeeps | vm.c:44-53 | a new page table changes no entry of any page |
| VmSteps.MapKeeps | vm.c:68-79 | mapping a held frame shows its bytes at that page and changes nothing else |
| VmSteps.GoneKeeps | vm.c:275-287 | freeing one page clears its entry and changes nothing else |
| VmSteps.ScanSkip | vm.c:276-278 | the page-by-page scan may jump over pages that are not present |
| VmSteps.Detach | vm.c:301-307 | a directory without user pages may give up its tables and itself |
| Vm.WalkPgDir | vm.c:32-55 | the table that covers the page, its directory entry present, writable and open to users, made if asked for with exactly one frame; 0 exactly without one; no page anyone sees changes |
| Vm.MapPage | vm.c:66-79 | one page is mapped; fails exactly when its table is missing and no frame can be had; the remap panic exactly when it was present |
| Vm.MapPages | vm.c:57-80 | over a kernel range every page maps its frame, exactly the missing tables take frames, others unchanged |
| Vm.MapKernel | vm.c:129-134 | all rows of kmap are mapped, with nothing else in the kernel half |
| Vm.KernelGrants | vm.c:105-115 | no kernel page is open to users, physical frame f is at KERNBASE plus f pages and writable unless it holds kernel text, and devices map to themselves |
| Vm.SetupKvm | vm.c:117-136 | a directory with exactly the kernel's mappings and no user page, or 0 and no trace; from ten free frames on it takes exactly ten |
| Vm.FreeOne | vm.c:275-287 | the page-by-page step at a page whose table exists |
| Vm.PagesHold | vm.c:219-289 | the pages of a process of sz bytes are those that hold a byte below sz |
| Vm.DeallocUvm | vm.c:261-289 | with its jumps, the same machine as the page-by-page scan; exactly the present pages of the range become free |
| Vm.FreeVm | vm.c:291-308 | exactly the frames the directory owns become free, every other owner and page is kept; for wait the invariant holds again once the process it reaps, which still names the directory, is unused |
| Vm.AllocUvm | vm.c:219-259 | new pages over the whole range, zero in every byte and open to the user for writing, or none present and no frame held, while other pages look the same; panics only if a page of the range was present, and exactly then when there is a frame for each page and each table they lack |
| Vm.GrownZero | vm.c:250-256 | each page of the grown range is mapped, user-accessible, writable and zero, and if it is in memory the processor lets the user write it |
| Vm.GrowTurn | vm.c:233-257 | one more zero page, or everything undone, or the panic: exactly if the page is present, a frame can be had and that does not evict it |
| Vm.TwoEachSuffice | vm.c:233-257 | two free frames per page always suffice |
| Vm.KAllocMore | vm.c:235-242 | a retry after checkAswap returns 0 again and moves nothing |
| Vm.KAllocRetry | vm.c:234-249 | kalloc with any number of retries: 0 if and only if the list was empty and nothing could be evicted |
| UserMem.NamesAfter | pageswap.c:251-274 | bringing a page in changes no name of a slot in use but the page's own |
| UserMem.KernelFault | trap.c:83-88 | a kernel page of a directory made by setupkvm is present or has no table |
| UserMem.SwapIn | pageswap.c:214-281 | the page is back with its bytes and flags and its slot is free; -1 exactly when no frame can be had; a zero entry fails exactly without table, with slot 0 free or without frame, and otherwise keeps the invariant exactly when slot 0 has no name |
| UserMem.Install | pageswap.c:248-281 | the page is mapped, its slot freed and rss counted up |
| UserMem.InAndOut | pageswap.c:275-279 | swapping a page in counts it, and swapping it out again leaves rss as it was, across the wrap too |
| UserMem.BringIn | pageswap.c:248-271 | the slot's page is mapped with its flags; as the table exists this cannot fail |
| UserMem.ZeroEntryExample | pageswap.c:231-235 | a machine that satisfies the invariant, with an all-zero entry and slot 0 named by another page |
| UserMem.ZeroEntryBreaks | pageswap.c:214-281 | on that machine swap-in of the all-zero entry succeeds and breaks the invariant |
| CopySpace.SourceAfter | vm.c:338-352 | after the allocation the source frame holds the page if still present, and no user data otherwise |
| CopySpace.CopyPresent | vm.c:338-356 | the child's page equals the parent's, or is lost if and only if it was Leaving when its kalloc began; exact use of frames, and success with two to be had |
| CopySpace.CopyDuplicated | vm.c:380-387 | the child's swapped-out page equals the parent's, in a slot of its own |
| CopySpace.CopySwapped | vm.c:357-387 | a swapped-out page is copied by slot or by bringing it in; lost if and only if no slot is free, one frame is, the child has the table, and the page would be the first to leave again |
| CopySpace.ReturnsIff | vm.c:361-375 | back in the last free frame, the page is Leaving exactly if it would be the first to leave, judged before the call |
| CopySpace.CopyReaches | vm.c:335-352 | pages before the brink find frames for themselves and their tables; at the brink the list is empty exactly if the frames ran out there, and the page is Leaving exactly if it was also doomed at the call |
| CopySpace.SomeBrink | vm.c:335-352 | with ten free frames there is a first page that does not fit, or all do |
| CopySpace.ThreeEachFit | vm.c:335-352 | three free frames per page always do |
| CopySpace.CopyUvm | vm.c:323-396 | a child with the kernel's mappings whose pages equal the parent's except the lost ones, or 0 and nobody's memory changed; success and none lost as far as the frames fit; the next page, if it and those before are in memory, is lost if and only if the frames run out with it and a swapout at the call would take it |
| CopyExample.LossReady | vm.c:323-396 | a machine with ten free frames whose page 0 is doomed |
| CopyExample.ForkLosesPage | vm.c:323-396 | on that machine copyuvm succeeds and the child's page 0 differs from its parent's |
| CopyOut.PageStored | vm.c:443-449 | a store into a present page changes that page of that process only |
| CopyOut.Reach | vm.c:427-441 | the page is present and user-accessible with its contents unchanged, or copyout fails, or an all-zero entry meets slot 0 in use |
| CopyOut.ZeroSafe | vm.c:427-437 | an all-zero entry that copyout gets to finds slot 0 free, so swappage_in refuses it |
| CopyOut.CopyOut | vm.c:415-452 | exactly the bytes land at the address across present and swapped-out pages; on failure a prefix up to the page that cannot be written; it goes astray only at an all-zero entry while slot 0 is in use, and never if the zeros are safe |
| SleepLock.StepKeepsWaker | sleeplock.c:22-42 | every step keeps someone responsible for waking the sleepers |
| SleepLock.RunKeepsInv | proc.c:441-500 | every run of any number of processes keeps the lock invariants |
| SleepLock.MutualExclusion | sleeplock.c:22-53 | at most one owner in every run, and holdingsleep tells the truth |
| SleepLock.NoLostWakeup | sleeplock.c:22-42 | a process sleeps on a free lock only while a releaser holds the inner spin lock before its wakeup |
| SleepLock.NoDeadlock | spinlock.c:24-68 | some busy process can always take a step |
| ProcTable.Procs.constructor | proc.c:134-167 | the table at boot, which satisfies the invariant |
| ProcTable.Procs.Wakeup1 | proc.c:480-491 | exactly the sleepers on the channel become runnable |
| ProcTable.Procs.AllocProc | proc.c:83-132 | the first unused entry becomes an embryo with a new pid, or none is unused |
| ProcTable.Procs.Exit | proc.c:249-294 | children go to init, parent and if need be init are woken, the process is a zombie |
| ProcTable.Procs.Wait | proc.c:296-338 | reaps the first zombie child, or -1 exactly without children or when killed, or sleeps |
| ProcTable.Procs.Kill | proc.c:502-523 | the first entry with the pid is killed and no longer asleep, runnable if it was; nothing else changes; -1 exactly if none has it |
| ProcTable.ExitSays | proc.c:249-294 | exit entry by entry: children get init as parent, the process is a zombie, a sleeper wakes exactly if it sleeps on the parent, or on init which inherits a zombie; nothing else changes |
| ProcTable.WaitSays | proc.c:296-338 | a pass of wait clears the first zombie child, or returns -1 exactly without children or when killed, or else sleeps on the process itself |
| ProcTable.LifeCycle | proc.c:83-523 | every step moves an entry only along the life cycle of a process, and makes each move of exactly the entry it is about |
| ProcTable.StepKeepsInv | proc.c:201-523 | every section under ptable.lock keeps tree, wait, fork and pid invariants |
| ProcTable.ProcessTree | proc.c:201-338 | in every run a parent is never free, half made or a zombie, and nobody sleeps in wait beside a zombie child |
| ProcTable.ReapedOnce | proc.c:296-338 | in every run no pid is returned twice by wait |
| ProcTable.KillHitsFree | proc.c:505-519 | in every run kill marks a free entry exactly if no process has the pid |
| ProcTable.BornKilledIff | proc.c:98-106 | in every run a child is born killed exactly if the last kill or reap that hit its entry was a kill |
| ProcTable.BornKilled | proc.c:98-106 | kill(0) and a fork give a killed child that no kill was meant for |
| ProcTable.KillFinds | proc.c:502-523 | in every run the pid of a process leads kill to that process |
| Pipe.CountersAgree | pipe.c:78-121 | wrapped 32-bit counters tell full, empty and cell exactly as unbounded ones would |
| Pipe.Ring.constructor | pipe.c:22-57 | an empty open pipe |
| Pipe.Ring.Write | pipe.c:78-98 | a section of pipewrite that starts at byte i of its buffer appends bytes i up to j of it, j being the end or where the ring is full; out of room it fails exactly if killed or without a reader, and else sleeps |
| Pipe.Ring.Read | pipe.c:100-121 | a section of piperead delivers exactly the oldest bytes, as many as asked for or there are |
| Pipe.Ring.Close | pipe.c:59-75 | the end is closed; the page is freed exactly when both are |
| Pipe.ReadersRestedIff | pipe.c:78-98 | a step strands a reader if and only if a writer that is killed, or whose reader is gone, has more than PIPESIZE bytes left and a reader sleeps |
| Pipe.PipeSafety | pipe.c:78-121 | in every run delivered bytes are a prefix of accepted ones, at most 512 are in flight, and without a stranding section nobody sleeps on a satisfied condition |
| Pipe.KilledWriterStrandsReader | pipe.c:84-90 | a run in which a reader sleeps on a full pipe |
| PipeStreams.WritersInterleave | pipe.c:78-98 | in every run the accepted bytes are an interleaving: those of each process are, call by call and in order, the first bytes of what it passed, and its open call has got as far as the process has |
| PipeStreams.OneWriter | pipe.c:78-121 | with one writer that is not killed and a reader that stays, what was accepted and what was read are prefixes of what was written; all of it is accepted once the writer is out of pipewrite |
| PipeStreams.ReadersServed | pipe.c:100-121 | in every run a section of piperead hands out the next accepted bytes, as many as that call asked for or as there are, and sleeps exactly on an empty pipe with a writer unless killed |
| Umalloc.InsertOk | umalloc.c:24-44 | freeing keeps the list ordered, disjoint and coalesced and adds exactly the block's units |
| Umalloc.InsertKeepsApart | umalloc.c:24-44 | blocks apart from the list stay apart from it |
| Umalloc.InsertHolds | umalloc.c:24-44 | the list covers exactly the units it covered before and those of the block put in |
| Umalloc.CarveOk | umalloc.c:76-84 | cutting a block keeps the list ordered, disjoint and coalesced |
| Umalloc.CarvedFresh | umalloc.c:76-84 | the block handed out is apart from what stays free |
| Umalloc.FreeChain | umalloc.c:32-43 | free's stores turn the circular chain of the old list into that of the new one |
| Umalloc.TakeChain | umalloc.c:76-84 | malloc's stores do the same and leave the size in the header |
| Umalloc.FreedOk | umalloc.c:24-44 | free keeps the whole heap: list, live blocks and total units |
| Umalloc.GrownOk | umalloc.c:46-61 | morecore's block joins the heap and the total grows by exactly its units |
| Umalloc.TakenOk | umalloc.c:63-90 | malloc keeps the heap and adds one live block of the requested units |
| Malloc.UnitsSufficeIff | umalloc.c:63-69 | the unit count holds the request if and only if its rounding does not wrap |
| Malloc.HugeRequestGetsNothing | umalloc.c:63-69 | every request whose rounding wraps settles for a header without payload |
| Malloc.HonestIff | umalloc.c:46-69 | sbrk is asked for what morecore records if and only if the request is at most MAXBYTES or its rounding wraps |
| Malloc.RequestExact | umalloc.c:46-69 | sbrk is asked for what the request needs if and only if it is at most MAXBYTES |
| Malloc.SearchStop | umalloc.c:30-32 | free's search condition holds at exactly one place of the list |
| Malloc.Allocator.Search | umalloc.c:30-32 | the search ends within one turn, at the block below |
| Malloc.Allocator.Free | umalloc.c:24-44 | the live block goes back: the list covers what it covered and the block, every other live block stays, the heap is kept |
| Malloc.HonestOrShort | umalloc.c:46-61 | morecore records what sbrk was asked for, or at least 0x1_0000_0000 bytes more |
| Malloc.Allocator.MoreCore | umalloc.c:46-61 | 0 when sbrk fails, else a free block of at least the units asked for, whatever sbrk was asked for; the list covers what it covered and sbrk's block |
| Malloc.Allocator.Turn | umalloc.c:75-87 | the first block large enough in list order from behind freep, every block passed being too small, or all are too small |
| Malloc.Allocator.Malloc | umalloc.c:63-90 | sbrk is called if and only if no free block fits, and then once; 0 if and only if sbrk fails; else the last units of the first block that fits, from behind freep, are a new live block, the rest of the list is as it was and freep is the block before; the units hold the request exactly if its rounding does not wrap, and the heap has just what sbrk gave if and only if sbrk was not called or failed or its argument did not wrap |
| Shell.GetToken | sh.c:265-308 | the cursor advances and never passes the end; a word token is a maximal run of word characters |
| Shell.LineWords | sh.c:344-446 | every word a parsed command points at is a whole word of the line |
| Shell.ArgsRead | sh.c:415-446 | printed arguments are read back as those arguments |
| Shell.LineRead | sh.c:344-446 | a printed tree standing in a line is read as that tree and no further |
| Shell.RoundTrip | sh.c:327-446 | parsing the parenthesised printing of any legal tree gives the tree |
| Shell.Parser.NextToken | sh.c:265-308 | the loops compute the token and cursor of the grammar |
| Shell.Parser.LookFor | sh.c:310-320 | the loop computes peek |
| Shell.Parser.ReadRedirs | sh.c:374-397 | the loop reads the redirections of the grammar or panics |
| Shell.Parser.ReadArgs | sh.c:429-445 | the loop reads the arguments and redirections of the grammar, panicking at the tenth argument |
| Shell.Parser.ReadExec | sh.c:415-446 | agrees with the grammar |
| Shell.Parser.ReadBlock | sh.c:399-413 | agrees with the grammar |
| Shell.Parser.ReadPipe | sh.c:361-372 | agrees with the grammar |
| Shell.Parser.ReadLine | sh.c:344-359 | agrees with the grammar |
| Shell.NulTerminate | sh.c:448-493 | exactly the ends of the command's words become NUL |
| Shell.CutKeeps | sh.c:448-493 | cutting at the end of every word leaves each word whole |
| Shell.ParseCmd | sh.c:327-342 | the command of the grammar or a panic; every argument and file name is then the NUL-terminated string of its token |
| ShellGrammar.LineSound | sh.c:344-446 | what the parser reads is derived from the tokens it consumed |
| ShellGrammar.LineComplete | sh.c:344-446 | a derivation that nothing in the rest of the line extends is what the parser reads |
| ShellGrammar.ParsesIff | sh.c:327-446 | on every line parsecmd gives a command if and only if a token grammar, which does not mention the parser, derives it from the whole line; it panics if and only if nothing is derived |
| ShellLines.SimpleRoundTrip | sh.c:374-446 | words and redirections in any order, with any white space, are read as exactly those words inside exactly those redirections in order, `<` for reading and `>` or `>>` for writing; ten words or more panic |
| Grep.AtOne | grep.c:84-96 | one character item denotes one matching character and then the rest |
| Grep.AtStar | grep.c:98-106 | a starred item denotes some run of its character and then the rest |
| Grep.MatchHere | grep.c:84-96 | true exactly when the pattern denotes a prefix of the text |
| Grep.MatchStar | grep.c:98-106 | true exactly when some run of the character and then the pattern denote a prefix |
| Grep.Match | grep.c:72-82 | true exactly when the pattern denotes some stretch of the text |

## Left out

- Malloc.Allocator.Malloc: sbrk's result is a parameter and lies above every recorded block; the fault on memory that sbrk did not give, and a later sbrk below it, are not modelled.
- CopyOut.CopyOut: stops as Astray where swappage_in is about to take an all-zero entry for slot 0 in use; UserMem.SwapIn states that call, what copyout writes after it is not modelled. Addresses lie below KERNBASE.
- UserMem.SwapIn: a kernel page must be present or without a table, as setupkvm leaves it (KernelFault).
- CopySpace.CopyUvm: from the first page that does not fit on, and for that page if one before it is swapped out, losses are stated per page (CopyPresent, CopySwapped), not from the state at the call; so are they when fewer than ten frames are free.
- Vm.AllocUvm: without a frame for each page and table a present page may be swapped out before it is reached; then the panic is stated exactly per page (GrowTurn) and one way for the whole call.
- Vm.MapPages: states ranges above KERNBASE; user pages are mapped one at a time, by Vm.MapPage.
- Shell.Parser.ReadArgs: commands are values, so the redirections are collected and wrapped around the finished command instead of around a node still being filled.
- Files.Volume.WriteI: device inodes and the major/minor switch are not modelled.
- Files.Volume.FileWrite: the inode stays with one writer between chunks; the source unlocks it there.
- BufCache.Cache.Lock: references are counted, not attributed to processes; BufUsers does that.
- BufCache.Cache.BRelse: releasing the sleep lock and dropping the reference are one step; BufUsers takes them apart.
- BufUsers: the disk driver's sleeping is not part of it; bget's panic without a free buffer is BufCache's.
- Memory operations run one at a time; races between processors over the free list, the slots and the page tables are not modelled, nor are TLB flushes.
- A frame's bytes and its page-table entries are kept side by side; no operation reads page data as entries. The link of a free frame is kept apart from its bytes.
- The slots lost by the source's own error paths, by exec and by deallocuvm stay in use; only "named implies in use and named once" is claimed.
- clearpteu, inituvm, loaduvm, exec and trap handling.
- The free bitmap is one boolean per block instead of packed bits.
- Spin locks and the scheduler appear as atomic steps; interrupts and pushcli/popcli nesting are not modelled.
- Pids are unbounded; the source's int would wrap.
- Reference counts of open files (filealloc, filedup, fileclose), which would only add easy members.
- Path lookup, directories and the system-call layer.
- grep's line buffer and the other user programs.
- Drivers, boot code and mkfs; a well-formed disk layout is a precondition.
