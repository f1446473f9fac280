# Verified models of the xv6 RISC-V kernel

This project models the parts of the xv6 RISC-V kernel (with copy-on-write fork and lazy `sbrk`) that are hardest to
get right, and proves what they promise over every input and every run.

Two kinds of model stand side by side.

- State machines, for what several processes, CPUs, devices and crashes do to shared state. A run is any sequence of
  enabled steps; each machine has an invariant that every step keeps and theorems about every state of every run.
  `TransactionLog`, `CowMemory`, `SleepWakeup`, `SleepLock`, `Lifecycle`, `Virtio` and `Pipe` are of this kind.
- Imperative code, for the functions themselves: classes and methods with the source's loops, branches and error
  paths, specified by the machine's steps or by functions of the state. `LogDevice`, `BufferCache`, `VmCode`,
  `UserMemory`, `ProcMemory`, `GuardPage`, `PageTable`, `FileCode`, `FileOps`, `FileWrite`, `Journal`, `InodeTable`,
  `Umalloc`, `ShellParser`, `Grep`, and the classes of `Virtio` and `Pipe` are of this kind.

The reference definitions are simple ones: a disk is two maps from block to contents, the durable one and the current
one (`TransactionLog`); a process owns a private array of pages (`CowMemory`); a file is a flat byte sequence
(`FileOps.Contents`), and a file system is the bytes of its blocks (`DiskImage.Image`); a page table is a flat map from
page number to entry (`PageTable.Flat`); a pattern denotes a set of strings (`Grep.Here`); a command is a tree with a
printed form (`ShellRoundTrip.Print`).

`panic` is never a step. Each one is a precondition that the callers establish, a fact proved to hold where the source
tests for it, or a failure result whose exact condition is proved.

## Model

| member | source | states |
|---|---|---|
| `TransactionLog.Step` | kernel/log.c:128-236 | every step of every process, of the committer, of recovery and a crash keeps the invariant, and changes the durable and current contents of the disk exactly as the two-map specification says |
| `TransactionLog.RunRefines` | kernel/log.c:118-236 | in every run the machine meets the specification computed from the actions alone: the durable contents jump to the current ones at the header write and at no other step, whatever crashes occur |
| `TransactionLog.RecoveryIsAtomic` | kernel/log.c:67-124 | whenever recovery has completed, after any number of crashes inside commit and inside earlier recoveries, every home block has its contents as of the last header write: all of a transaction or none of it |
| `TransactionLog.WriteHeadCommits` | kernel/log.c:104-115 | the header write alone turns what recovery would restore, for every home block, into what the cache holds |
| `TransactionLog.HeadRoundTrip` | kernel/log.c:88-115 | the header block read back gives the block numbers that were written, for any log within LOGBLOCKS |
| `TransactionLog.HeadLayout` | kernel/log.c:35-38 | the header block holds the count, then the block numbers, and keeps the rest |
| `TransactionLog.BreadReturnsLatest` | kernel/bio.c:93-103 | in every run a process that holds a valid buffer sees the last contents logged or written for that block, because a logged block is not recycled before it is installed |
| `TransactionLog.ReservationHolds` | kernel/log.c:128-176 | in every run the logged blocks plus the unspent budgets of active operations fit in LOGBLOCKS, logged numbers are distinct, no operation is active during a commit, and neither panic of log_write nor the one of end_op is reached |
| `TransactionLog.LogWriteHasRoom` | kernel/log.c:216-236 | a log_write with budget left finds room, also when the block is already logged and only absorbed, and leaves the reservation intact |
| `TransactionLog.ReserveNew` | kernel/log.c:128-143 | begin_op's test for space is enough to reserve a whole new operation beside the budgets already promised |
| `TransactionLog.SpareBuffer` | kernel/bio.c:59-89 | a new block can be cached exactly when the pinned and used blocks number fewer than NBUF |
| `TransactionLog.BusyWhileCopying` | kernel/log.c:180-192 | before the installation the blocks that cannot be recycled are exactly the logged ones and the ones in use |
| `TransactionLog.CommitNeedsSpareBuffer` | kernel/log.c:180-192 | bread of a log block has no buffer to take exactly when the logged blocks together with the blocks in use number NBUF or more |
| `LogExhaustion.FullLogPanics` | kernel/log.c:180-192 | a run from the initial state reaches a commit of NBUF logged blocks in which write_log has no buffer left |
| `LogExhaustion.ReaderPanics` | kernel/file.c:107-130 | a run reaches the same failure with one logged block fewer and one reader, who takes no part in the transaction |
| `LogDevice.Log.WriteLog` | kernel/log.c:180-192 | copies every logged block without changing what recovery would restore at any disk state passed through; succeeds exactly when a buffer is spare |
| `LogDevice.Log.WriteHead` | kernel/log.c:104-115 | one disk write that makes the current contents durable; succeeds exactly when a buffer is spare |
| `LogDevice.Log.InstallTrans` | kernel/log.c:67-84 | in commit and in recovery, no disk state passed through changes what recovery would restore; in a commit it goes through exactly when the log is empty or a buffer is spare, in recovery always |
| `LogDevice.Log.Commit` | kernel/log.c:195-204 | over the disk states passed through, the durable contents are the old ones up to one point and the new ones from there on, never a mixture; the commit goes through exactly when the log is empty or the logged and used blocks number fewer than NBUF |
| `LogDevice.Log.ReadHead` | kernel/log.c:88-98 | loads the committed block numbers and leaves the disk and the durable contents alone |
| `LogDevice.Log.RecoverFromLog` | kernel/log.c:118-124 | leaves the home blocks with the durable contents and an empty log, and every disk state on the way would recover to the same contents |
| `LogDevice.Log.BeginOp` | kernel/log.c:128-143 | starts an operation exactly when no commit is running and a whole operation's blocks still fit, else changes nothing |
| `LogDevice.Log.FindLogged` | kernel/log.c:226-229 | the absorption scan: the first position that holds the block, or the length of the log |
| `LogDevice.Log.LogWrite` | kernel/log.c:216-236 | is the machine's step, with its two panics shown not to happen and the disk contents untouched |
| `LogDevice.Log.EndOp` | kernel/log.c:148-176 | the last operation out commits everything current to the home blocks and empties the log, and the disk states passed through recover to the old contents up to one point and to the new ones from there on; another one only leaves; success exactly as for Commit |
| `LogDevice.Log.Bread` | kernel/bio.c:93-103 | caches the block without changing any content; succeeds exactly when the block is cached or a buffer is spare that is neither busy nor the one the caller holds |
| `BufferCache.Bcache.constructor` | kernel/bio.c:37-53 | the list links all NBUF buffers, next and prev are inverse, nothing is cached |
| `BufferCache.Bcache.FindCached` | kernel/bio.c:66-73 | finds a buffer with that device and that block number, or none exactly when no buffer has both |
| `BufferCache.Bcache.FindVictim` | kernel/bio.c:77-87 | the unused buffer released longest ago, or none exactly when all are in use |
| `BufferCache.Bcache.Bget` | kernel/bio.c:59-89 | returns a buffer with that device and block number, keeps at most one buffer for each block, recycles only an unused buffer and the least recently released one, and fails exactly when the block is not cached and every buffer is in use |
| `BufferCache.Bcache.Brelse` | kernel/bio.c:117-137 | gives up one reference; at the last one the buffer becomes the most recently released; the list stays a permutation of all buffers |
| `BufferCache.Bcache.Bpin` | kernel/bio.c:140-144 | one reference more, nothing else, list intact |
| `BufferCache.Bcache.Bunpin` | kernel/bio.c:147-151 | one reference less, nothing else, list intact |
| `BufferCache.FrontRing` | kernel/bio.c:126-134 | the six pointer assignments of brelse turn a circular doubly linked list into the one with that buffer moved to the front |
| `BufferCache.FrontIsLatest` | kernel/bio.c:117-137 | moving to the front keeps the list sorted by time of release |
| `BufferCache.FrontIsComplete` | kernel/bio.c:117-137 | moving to the front keeps every buffer on the list, once |
| `CowMemory.Step` | kernel/vm.c:193-541 | every step of allocating, sharing, faulting, storing and freeing keeps the invariant and changes the pages that processes see only as a private eager copy would |
| `CowMemory.RunRefines` | kernel/vm.c:305-541 | in every interleaving each process sees, page by page and with rights, exactly the private memory computed from the actions alone, unmapped lazy pages reading as zero |
| `CowMemory.LoadIsPrivate` | kernel/vm.c:305-341 | in every run a mapped byte has the value of the private copy of its process |
| `CowMemory.CountsAreExact` | kernel/kalloc.c:54-112 | in every state of every run a page's count is its number of owners without those leaves that uvmcopy has mapped and not yet counted, the page is on the free list once exactly when the count is 0 and no kfree is between its decrement and its push, and a writable user entry is sole owner and not copy-on-write |
| `CowMemory.AloneAt` | kernel/vm.c:305-341 | a page reached by a writable entry, a table or a fresh page has count 1 |
| `CowMemory.ForkAmongOthers` | kernel/proc.c:257-303 | a fork whose steps are interleaved with any steps of other processes ends with child and parent both seeing what the parent saw before it |
| `CowMemory.ForkProgress` | kernel/vm.c:305-341 | at every moment of such a fork the parent is unchanged and the child has exactly the pages shared so far |
| `VmCode.Vm.constructor` | kernel/kalloc.c:36-48 | every page is free and no process has memory |
| `VmCode.Vm.Kalloc` | kernel/kalloc.c:85-103 | fails exactly when the free list is empty; otherwise a page with one owner, and no process sees a difference |
| `VmCode.Vm.Kfree` | kernel/kalloc.c:54-79 | drops one owner; only that owner's view changes, and the page becomes free exactly when nobody is left |
| `VmCode.Vm.Walk` | kernel/vm.c:95-116 | reaches the leaf table exactly when it exists or when the missing table pages fit in the free list; no process sees a difference |
| `VmCode.Vm.LazyFault` | kernel/vm.c:501-512 | maps one zero page; fails exactly when the page and the missing tables exceed the free list |
| `VmCode.Vm.CowFault` | kernel/vm.c:514-540 | the entry becomes a writable private copy with the same bytes; fails, changing nothing, exactly when no page is free |
| `VmCode.Vm.VmFault` | kernel/vm.c:489-541 | never changes what a process sees; succeeds exactly when the address is below the size, the page is missing or copy-on-write and written to, and the pages this takes fit in the free list |
| `VmCode.Vm.UvmUnmap` | kernel/vm.c:193-214 | removes exactly the leaves of the range, and nobody else's pages change |
| `VmCode.Vm.UvmCopy` | kernel/vm.c:305-341 | the child sees the parent's pages and rights, the parent sees no change; a failure is undone; success exactly when the child's missing tables fit in the free list |
| `VmCode.Vm.UvmAlloc` | kernel/vm.c:219-245 | the new pages read as zero with the given rights; a failure restores the memory; success exactly when pages and tables fit in the free list |
| `UserMemory.Memmove` | kernel/vm.c:390-393 | replaces exactly the given bytes of one page of one process |
| `UserMemory.MakeWritable` | kernel/vm.c:369-388 | the page lookup of copyout: it succeeds exactly for the pages copyout may write when the pages this takes fit in the free list |
| `UserMemory.Copyout` | kernel/vm.c:358-400 | writes a prefix of the source into the memory of one process and changes no other byte; the prefix is all of it exactly when the call succeeds, every written byte was allowed, and a failure stops at a byte that is not allowed or whose page takes more pages than are free at that moment |
| `UserMemory.Copyin` | kernel/vm.c:405-430 | returns a prefix of what the process sees there and changes nothing; all of it exactly when the call succeeds, with the same account of failure |
| `UserMemory.CopyRights` | kernel/vm.c:122-139 | copyout writes what the user may write, and copyin reads what the user may read, exactly at pages that are not copy-on-write without user access |
| `UserMemory.Load` | kernel/vm.c:489-541 | a user load, through a fault if need be, gives the byte of the private memory; it succeeds exactly with the right to read and, for a page not there yet, below the size and with the pages free that it takes |
| `UserMemory.Store` | kernel/vm.c:489-541 | a user store changes that one byte of that one process, through a copy if the page is shared; it succeeds exactly with the right to write and, where a page is needed, below the size and with the pages free that it takes |
| `ProcMemory.Freewalk` | kernel/vm.c:268-287 | frees exactly the table pages below the given one, once each, and no process sees a difference |
| `ProcMemory.UvmFree` | kernel/vm.c:291-296 | the process has neither pages nor tables left, everybody else is unchanged |
| `ProcMemory.FreeProc` | kernel/proc.c:156-172 | gives back everything of the process: pages, tables, trampoline and trapframe mappings, trapframe |
| `ProcMemory.UvmCreate` | kernel/vm.c:180-188 | a root table, or nothing exactly when no page is free |
| `ProcMemory.AllocProc` | kernel/proc.c:110-150 | a table with only the two fixed mappings and a trapframe, for four pages; on failure nothing of it remains; success exactly when four pages are free |
| `ProcMemory.Fork` | kernel/proc.c:257-303 | child and parent both see what the parent saw; success exactly when the trapframe, the tables and the fixed mappings fit in the free list; after a failure counts and free pages are what they were |
| `ProcMemory.ForkLeaksNothing` | kernel/proc.c:257-303 | once the child is gone the counts and the free pages are those from before the fork |
| `ProcMemory.ForkNeedsAre` | kernel/proc.c:257-303 | the pages a fork takes, counted from the parent alone, are the four of allocproc and the tables uvmcopy misses |
| `ProcMemory.Grow` | kernel/proc.c:237-252 | the size grows and nothing seen changes, exactly when the pages and tables fit in the free list; afterwards every new page is mapped and writable |
| `ProcMemory.Shrink` | kernel/vm.c:252-264 | exactly the pages above the new size go; a shrink by more than the size does nothing |
| `ProcMemory.Sbrk` | kernel/sysproc.c:40-63 | returns the old size; fails exactly when an eager growth does not fit in the free list; both ways of growing look the same to the process, and an eager one leaves the new pages mapped and writable |
| `GuardPage.UvmClear` | kernel/vm.c:345-353 | takes user access away from that page and changes nothing else |
| `GuardPage.ForkOpensGuard` | kernel/vm.c:305-341 | whatever fork succeeds: a writable page without user access is shut to copyout and copyin before it, and open to both after it, in the parent and in the child, though neither process may touch it |
| `GuardPage.Demonstrate` | kernel/proc.c:257-303 | such a page is reached by the operations themselves: allocproc, uvmalloc, uvmclear and fork from a freshly booted machine |
| `PageTable.EncodeRoundTrip` | kernel/riscv.h:358-370 | the bits of an entry give back the page number and each right, bit 8 included, and a pointer entry is one without R, W and X |
| `PageTable.TranslateIsFlat` | kernel/vm.c:95-116 | following the three levels of table words gives the flat map's entry, for every page number |
| `PageTable.SlotsDiffer` | kernel/vm.c:95-116 | distinct pages have distinct entries in memory |
| `PageTable.PutFlat` | kernel/vm.c:146-175 | writing one leaf word changes the flat map at that page and nowhere else |
| `PageTable.Tables.Walk` | kernel/vm.c:95-116 | gives the entry's place, adding only table pages, and none exactly when a table is missing and cannot be made |
| `PageTable.Tables.MapPages` | kernel/vm.c:146-175 | gives a prefix of the range valid entries that lead to consecutive pages with exactly the flags asked for, and changes no other entry; all of it exactly on success; a failure means no page was free |
| `PageTable.Tables.Unmap` | kernel/vm.c:193-214 | clears exactly the range, and hands out the mapped pages of the range in order |
| `PageTable.Freewalk` | kernel/vm.c:268-287 | every table page below goes on the free list once and the leaf panic is not reached when no leaf is left |
| `PageTable.UvmFree` | kernel/vm.c:291-296 | hands out every mapped page and frees every table page |
| `PageTable.TranslateIsRef` | kernel/vm.c:95-116 | where table words represent the references of CowMemory, translation gives that process's entry |
| `PageTable.GrownRepresents` | kernel/vm.c:95-116 | adding a table page keeps the words and the references in step |
| `PageTable.MapRepresents` | kernel/vm.c:146-175 | writing a leaf keeps them in step |
| `PageTable.UnmapRepresents` | kernel/vm.c:193-214 | clearing a leaf keeps them in step |
| `TableRefinement.GrownSame` | kernel/vm.c:95-116 | adding a table page takes the same page off both free lists |
| `TableRefinement.FreewalksAgree` | kernel/vm.c:268-287 | the freewalk on table words and the freewalk on references leave representing states with agreeing free lists |
| `TableRefinement.OwnedFreed` | kernel/vm.c:268-287 | a table page of the process is free after the one exactly when it is free after the other |
| `TableRefinement.UnownedFreed` | kernel/vm.c:268-287 | no other page's freedom changes |
| `DiskFormat.TestIsBit` | kernel/fs.c:76-77 | balloc's mask test on the byte of a bitmap block is the test of that bit of the block |
| `DiskFormat.OrSetsBit` | kernel/fs.c:67-89 | balloc's or sets that bit of the block and no other |
| `DiskFormat.AndClearsBit` | kernel/fs.c:93-106 | bfree's and clears that bit of the block and no other |
| `Bits.ToBitsIs` | kernel/fs.c:76-77 | a byte of a block as a vector of bits has the same value |
| `DiskFormat.DigitsRoundTrip` | kernel/fs.c:406-444 | a number written as little-endian bytes reads back, for every width |
| `DiskFormat.LittleEndian` | kernel/fs.c:406-444 | a two-byte or four-byte number has its low byte first |
| `DiskFormat.EntryUpdate` | kernel/fs.c:406-444 | storing one entry of an indirect block leaves the others |
| `FileSystem.AttachCore` | kernel/fs.c:406-444 | giving a free block to one slot keeps block ownership consistent and changes that slot only |
| `FileSystem.AttachData` | kernel/fs.c:406-444 | no file's data changes by that |
| `FileSystem.DetachCore` | kernel/fs.c:449-476 | an owned block is marked used, so bfree's panic is not reached, and taking it away keeps ownership consistent |
| `FileCode.FindFree` | kernel/fs.c:67-89 | the first free block of the whole bitmap, or none exactly when all are used |
| `FileCode.FileSys.Balloc` | kernel/fs.c:67-89 | the first free block, marked used and zeroed; 0 exactly when the disk is full |
| `FileCode.FileSys.Bmap` | kernel/fs.c:406-444 | the block of that index, allocated if missing together with the indirect block; consistent also when the second allocation fails; 0 only on a full disk; an existing block changes nothing |
| `FileCode.FileSys.Readi` | kernel/fs.c:495-519 | returns the bytes of the range cut at the end of the file and changes nothing, so it never allocates |
| `FileCode.FileSys.Writei` | kernel/fs.c:529-562 | fails exactly for an offset past the end or a range past the largest file; else writes a prefix, grows the size to cover it, keeps the no-hole invariant, is short only on a full disk, and logs no more blocks than its range spans plus the metadata |
| `FileOps.ReadsContents` | kernel/fs.c:495-519 | what readi returns is a slice of the file's byte sequence |
| `FileOps.WrittenContents` | kernel/fs.c:529-562 | after writei the file is the old byte sequence overwritten at the offset, and every other file is as before |
| `FileOps.ReadBack` | kernel/fs.c:495-562 | readi after writei returns the bytes written, over direct and indirect blocks and unaligned offsets |
| `FileOps.WriteOp` | kernel/file.c:149-172 | one transaction of filewrite logs at most six blocks beside the bitmap, within MAXOPBLOCKS while the bitmap has at most four blocks |
| `FileOps.Bfree` | kernel/fs.c:93-106 | that block is free afterwards, no other block changes its state, and one bitmap block is logged |
| `FileOps.Itrunc` | kernel/fs.c:449-476 | frees exactly the blocks the file owned, every other file keeps its blocks, and the file is empty |
| `FileOps.EmptiedOwners` | kernel/fs.c:449-476 | after it the owned blocks are those of the other files |
| `FileWrite.WriteOne` | kernel/file.c:149-172 | one turn: the file becomes its overwriting by what was written, within the log budget, and other files stay |
| `FileWrite.Filewrite` | kernel/file.c:135-179 | the whole loop: the file becomes its overwriting by the bytes written, the offset advances by their number, the result is n exactly when all were written and -1 otherwise, and -1 means a turn met the size limit, the end of the file or a full disk |
| `DiskImage.DinodeInjective` | kernel/fs.h:32-39 | two inodes with the same bytes on disk are the same inode |
| `DiskImage.DinodeFields` | kernel/fs.h:32-39 | type, major, minor, nlink, size and each block address are at their offsets in struct dinode |
| `DiskImage.InodePlace` | kernel/fs.h:41-45 | inode i is the (i mod IPB)-th dinode of inode block i / IPB |
| `DiskImage.ImageDetermines` | kernel/fs.c:226-242 | the blocks outside of the log determine all inodes and the contents of every file |
| `DiskImage.ImageKept` | kernel/fs.c:226-242 | an operation of the file system changes the bytes of logged blocks only, inode blocks included |
| `Journal.Perform` | kernel/file.c:162-167 | an operation from begin_op to end_op: up to one disk write recovery yields the whole file system before the operation, from there on the whole one after it |
| `Journal.FilewriteLogged` | kernel/file.c:149-172 | filewrite with its transactions: whichever disk write is the last before a crash, recovery yields a consistent file system in which a prefix of the bytes has been written and every other file is as before |
| `Journal.ItruncLogged` | kernel/fs.c:449-476 | itrunc in a transaction: recovery yields the file system with the whole file or with the file empty and its blocks free, never a part of either |
| `Journal.FormattedYields` | kernel/log.c:53-64 | every file system has a disk with an empty log that recovers to it |
| `Journal.Reboot` | kernel/log.c:53-64 | recovery from such a disk leaves the file system on the disk, ready for operations, and a crash during recovery yields the same file system |
| `InodeTable.Itable.Iget` | kernel/fs.c:248-278 | one entry per inode number; fails exactly as the source does, when the inode is not there and no entry is unused; other entries stay |
| `InodeTable.Itable.Ilock` | kernel/fs.c:294-318 | the entry holds the inode as it is on disk, which is read only if the entry was not valid; other entries stay |
| `InodeTable.Itable.Iput` | kernel/fs.c:338-363 | gives up one reference; frees inode and blocks exactly when it was the last reference and the loaded copy, which agrees with the disk, has no links |
| `InodeTable.Itable.Ireclaim` | kernel/fs.c:374-393 | gives back exactly the inodes of any type other than 0 without links; afterwards no allocated inode is without links, exactly the blocks of those have become free, and every other file has its contents |
| `InodeTable.ReclaimedBlocks` | kernel/fs.c:374-393 | reclaiming a set of inodes frees exactly the blocks they owned |
| `InodeTable.ReclaimedContents` | kernel/fs.c:374-393 | and leaves every other file's bytes |
| `SleepWakeup.Step` | kernel/proc.c:422-608 | every step of the scheduler, yield, sleep, wakeup, kill, and of a lock holder's updates keeps the invariant |
| `SleepWakeup.RunInv` | kernel/proc.c:422-608 | so every state of every run has it |
| `SleepWakeup.NoLostWakeup` | kernel/proc.c:540-584 | for any spin lock, channel and condition over the data under the lock: a sleeping process whose condition has become true has a wakeup of its channel still coming to it, and once the lock is free no process sleeps whose condition holds |
| `SleepWakeup.DebtsArePaid` | kernel/proc.c:571-584 | over any stretch of any run, a wakeup that is due to a process stays due until the step that examines that very process |
| `SleepWakeup.OneCpu` | kernel/proc.c:422-460 | no process runs on two CPUs |
| `SleepWakeup.RunningIsRun` | kernel/proc.c:422-460 | a process marked RUNNING is run by some CPU |
| `SleepWakeup.SchedIsSafe` | kernel/proc.c:470-487 | at every switch the process holds its own lock, no other one, and is not RUNNING, so no panic of sched is reached |
| `SleepWakeup.StatesChange` | kernel/proc.c:422-608 | how a process's state changes in a run: a sleeper becomes RUNNABLE by a wakeup on its own channel or by kill, and these do wake it; it goes to sleep and yields by itself; only a RUNNABLE process is run |
| `SleepWakeup.SleepReturnsLocked` | kernel/proc.c:540-567 | whatever happens in between, the spin lock given to sleep is the first that the sleeper takes again |
| `SleepWakeup.NoDeadlock` | kernel/proc.c:422-608 | in every state of every run some CPU can take a step, and so can whoever holds a process's lock |
| `SleepLock.MutualExclusion` | kernel/sleeplock.c:22-41 | in every run the lock word names a process exactly when that process is between acquiresleep and releasesleep |
| `SleepLock.OneInside` | kernel/sleeplock.c:22-41 | two processes are never both between them |
| `SleepLock.NobodyStuck` | kernel/sleeplock.c:22-31 | with the lock free nobody who wants it is asleep |
| `Lifecycle.Step` | kernel/proc.c:257-412 | every step of fork, exit, reparenting and wait keeps the invariant |
| `Lifecycle.RunInv` | kernel/proc.c:257-412 | so every state of every run has it |
| `Lifecycle.NobodyIsOrphaned` | kernel/proc.c:308-363 | in every run each live process or zombie other than init has a live parent |
| `Lifecycle.NoMissedExit` | kernel/proc.c:324-412 | with the wait lock free no parent sleeps in wait while it has a zombie child |
| `Lifecycle.ReapIsRight` | kernel/proc.c:368-412 | wait reaps a child of its own that has finished exiting, never reaped before, with the status that the run's exit step of that pid was given |
| `Lifecycle.StatusArrives` | kernel/proc.c:324-412 | the status passed to exit is the one that wait returns for that pid, however far apart the two are in a run |
| `Lifecycle.ExitsAreConserved` | kernel/proc.c:324-412 | a pid for which the run has an exit step is either reaped, with the status of that step, or is a zombie, and never both |
| `Lifecycle.NoChildIsRight` | kernel/proc.c:403-407 | wait reports no child only when there is none |
| `Lifecycle.WaitIsRight` | kernel/proc.c:374-411 | at the end of its scan wait can return -1 for want of children exactly if it has none and can sleep exactly if it has one, and then no child is a zombie |
| `Lifecycle.ForkIsRight` | kernel/proc.c:257-302 | fork makes a process that runs, with the caller as its parent and a pid that no process has or had |
| `Lifecycle.EntriesAreConserved` | kernel/proc.c:257-302 | an entry of the process table is neither free nor a process exactly while somebody in fork is making it |
| `Lifecycle.ParentIsMakerOrInit` | kernel/proc.c:308-318 | a process's parent is the one that forked it, or init |
| `Lifecycle.SleepersWake` | kernel/proc.c:308-412 | a process that sleeps in wait is woken by the exit of a child, by reparent if it is init, and by kill, and by nothing else |
| `Lifecycle.NobodyIsStuck` | kernel/proc.c:257-412 | in every state of every run a process that is neither asleep in wait nor dead can take its next step, once the wait lock is free if it needs it, or waits for a child that can switch away |
| `Umalloc.FindGap` | user/umalloc.c:30-32 | the search in free ends at the gap of the address-ordered circular list that the block belongs to |
| `Umalloc.Scan` | user/umalloc.c:74-90 | the search in malloc ends at the first block from freep that is large enough, or has seen that none is |
| `Umalloc.Allocator.Free` | user/umalloc.c:25-44 | the block is free and in one piece on a list that stays circular, ordered and without adjacent blocks; every other live block keeps its size |
| `Umalloc.Allocator.Morecore` | user/umalloc.c:47-61 | the new units become a free block of the size asked for, or nothing changes |
| `Umalloc.Allocator.Malloc` | user/umalloc.c:64-90 | a new live block of exactly the units needed; asks sbrk for memory only when no free block fits and fails only when sbrk then does; live blocks keep their sizes |
| `Umalloc.BlocksAreDisjoint` | user/umalloc.c:25-90 | a live block overlaps no other live block and no free one |
| `Umalloc.UnitsAreConserved` | user/umalloc.c:25-90 | each unit obtained from sbrk is in exactly one block, live or free, and no other unit is in any |
| `Umalloc.GapFits` | user/umalloc.c:25-44 | a freed block fits between its neighbours on the list |
| `Umalloc.MergeApart` | user/umalloc.c:33-43 | joining two touching neighbours restores full coalescing there |
| `ShellParser.GetToken` | user/sh.c:272-314 | the loops compute the token function: kind, word and cursor |
| `ShellParser.TokenMeans` | user/sh.c:267-314 | in characters: white space before and after; the end of the line, a symbol, two symbols for >>, or the longest run of characters that are neither |
| `ShellParser.Peek` | user/sh.c:317-326 | skips white space and tests the next character |
| `ShellParser.Parsecmd` | user/sh.c:334-348 | ends on every line with the grammar's tree or its error; every word of the tree is then a C string in the line buffer, unaltered, and nothing else in the buffer has changed |
| `ShellParser.CmdSpanned` | user/sh.c:334-452 | every word of a parsed tree is a maximal word of the line |
| `ShellParser.EndsOutside` | user/sh.c:456-499 | a word's end is never inside a word |
| `ShellParser.Nulterminate` | user/sh.c:456-499 | puts NUL exactly at the words' ends and leaves every other byte |
| `ShellParser.WordsIntact` | user/sh.c:456-499 | after it every word is NUL-terminated in place and unaltered |
| `ShellRoundTrip.LineRoundTrip` | user/sh.c:351-452 | parsing the printed form of a tree, with parentheses only where precedence needs them and any number of redirections, inside any line gives that tree and stops at its end |
| `ShellRoundTrip.RoundTrip` | user/sh.c:334-348 | for every tree with valid words and fewer than MAXARGS arguments, parsing what it prints gives it back |
| `Grep.MatchHere` | user/grep.c:85-96 | true exactly when the pattern's meaning holds of a prefix of the text |
| `Grep.MatchStar` | user/grep.c:99-106 | true exactly when some number of repetitions, then the rest, match |
| `Grep.Match` | user/grep.c:73-82 | true exactly when the pattern matches at some position, or at the start for a leading caret |
| `Grep.HereMany` | user/grep.c:85-106 | the meaning of a starred character is a choice of a number of repetitions |
| `Grep.HereOne` | user/grep.c:85-96 | the meaning of a literal or dot followed by a pattern |
| `Grep.HereEnd` | user/grep.c:85-96 | a trailing dollar matches exactly the empty rest |
| `Virtio.AllocDesc` | kernel/virtio_disk.c:157-166 | the first free descriptor, or none exactly when none is free |
| `Virtio.Alloc3` | kernel/virtio_disk.c:202-213 | three distinct free descriptors; otherwise everything is put back, exactly when fewer than three are free |
| `Virtio.FreeChain` | kernel/virtio_disk.c:186-197 | ends, and frees and clears exactly the three descriptors of the chain |
| `Virtio.RingPush` | kernel/virtio_disk.c:271-277 | a push never overwrites a slot still waiting, also when the 16-bit index wraps |
| `Virtio.RingPop` | kernel/virtio_disk.c:312-323 | a pop yields the oldest waiting element |
| `Virtio.RingEmpty` | kernel/virtio_disk.c:312-312 | the comparison of wrapped indices tells exactly whether something waits |
| `Virtio.TakeIsRight` | kernel/virtio_disk.c:271-277 | what the device finds at its place in the ring is the oldest request that is queued |
| `Virtio.DeviceReadsRequest` | kernel/virtio_disk.c:238-269 | following the descriptors from the head gives the request, its sector, its buffer and its status byte |
| `Virtio.IntrIsRight` | kernel/virtio_disk.c:295-327 | the interrupt handler finds a finished request of its own with status 0 |
| `Virtio.FinishIsRight` | kernel/virtio_disk.c:283-292 | when a buffer is no longer marked as the disk's, its own request has been done and its chain is whole |
| `Virtio.RunInv` | kernel/virtio_disk.c:216-327 | any sequence of driver, device and interrupt steps keeps the invariant: a descriptor is free or in one chain |
| `Virtio.RequestIsAtomic` | kernel/virtio_disk.c:216-292 | whatever else happens meanwhile, once the buffer is given back, buffer and disk block agree on what was to be written or read |
| `Virtio.RequestCompletes` | kernel/virtio_disk.c:216-327 | from any state with nothing else waiting, the device and the interrupt handler bring a request to the point where the buffer is given back |
| `Virtio.NoneLeaks` | kernel/virtio_disk.c:157-213 | all descriptors are free exactly when no request is in flight |
| `Virtio.Disk.Start` | kernel/virtio_disk.c:216-281 | queues the request on three free descriptors, or changes nothing exactly when fewer than three are free |
| `Virtio.Disk.Interrupt` | kernel/virtio_disk.c:295-327 | hands back every finished buffer and only those |
| `Virtio.Disk.End` | kernel/virtio_disk.c:283-292 | removes that request and frees its chain |
| `Pipe.TestsAreRight` | kernel/pipe.c:77-130 | comparing the wrapped 32-bit counters tells exactly whether the ring is full and whether it is empty |
| `Pipe.RunKeeps` | kernel/pipe.c:77-130 | over any interleaving the bytes read are the bytes written, in order and from where reading stood |
| `Pipe.DeliveredIsPrefix` | kernel/pipe.c:77-130 | from a new pipe on, delivered bytes are a prefix of written ones and at most PIPESIZE are outstanding |
| `Pipe.Pipe.Write` | kernel/pipe.c:77-103 | adds bytes until the source or the room is used up |
| `Pipe.Pipe.Read` | kernel/pipe.c:106-130 | takes the oldest bytes, as many as asked for and there |

## Findings

Two properties that the code suggests do not hold. Each has its inputs and its exact condition.

- A commit can panic for want of a buffer (kernel/log.c:180-192, kernel/bio.c:59-89). `LOGBLOCKS` and `NBUF` are both
  30 (kernel/param.h:10-11) and every logged block is pinned, so the log can pin the whole cache; `write_log` then has
  no buffer for the first log block. Inputs: three operations that log ten different blocks each
  (`LogExhaustion.FullLogPanics`), or 29 logged blocks and one process reading another block with `fileread`, which
  calls `readi` outside of any operation (kernel/file.c:121-124, `LogExhaustion.ReaderPanics`). Exact condition: the
  commit goes through if and only if the log is empty or the logged blocks together with the blocks in use number
  fewer than `NBUF` (`TransactionLog.CommitNeedsSpareBuffer`, `LogDevice.Log.Commit`, `LogDevice.Log.EndOp`). What is
  durable is never at risk: a commit that stops leaves the old contents to recovery.
- `copyout` and `copyin` do not respect the guard page below the user stack after a fork (kernel/vm.c:358-400,
  kernel/vm.c:405-430). `uvmclear` takes user access away from the page (kernel/vm.c:345-353); `uvmcopy` marks it
  copy-on-write because it is writable (kernel/vm.c:305-341); `walkaddr` gives 0 for it and `vmfault` then treats it as
  an ordinary copy-on-write page (kernel/vm.c:489-541). Input: any process with a writable page without user access
  below its size, after a fork (`GuardPage.ForkOpensGuard`), which `GuardPage.Demonstrate` arrives at. Exact
  condition: the copy functions agree with the user's rights at a page if and only if the page is not a copy-on-write
  page without user access (`UserMemory.CopyRights`).

## Left out

- PageTable.Tables.MapPages: the range is assumed unmapped, as the callers arrange; the remap panic is not modelled.
- ProcMemory.Sbrk: growth is assumed to stay below TRAPFRAME, which neither growproc nor sys_sbrk tests.
- ProcMemory.Grow: the same assumption.
- Lifecycle.ExitsAreConserved: pids are unbounded, where the kernel's counter is an int that can wrap and repeat.
- Lifecycle.ReapIsRight: the same assumption.
- Lifecycle.StatusArrives: the same assumption.
- Lifecycle.ForkIsRight: the same assumption.
- Umalloc.Allocator.Malloc: the address sbrk returns is a parameter above all memory in use; sizes are unbounded.
- Virtio.Disk.Start: one request per buffer and per block at a time, which the buffer's sleep lock arranges; the
  device answers with status 0.
- InodeTable.Itable.Ilock: dinode bytes are not decoded here (`DiskImage.Dinode` has their format); writei and itrunc
  are modelled on the inode itself, and not on the copy that iupdate then writes.
- SleepWakeup.SchedIsSafe: sched's test that interrupts are off is not modelled.
- FileWrite.Filewrite: the copy from the user succeeds, so that the -1 for a bad address is left out.
- FileWrite.WriteOne: the same.
- FileCode.FileSys.Readi: the copy to the user succeeds, so the short read of kernel/fs.c:511-515 is not modelled.
- FileCode.FileSys.Writei: the copy from the user succeeds; kernel/fs.c:545-547 leaves a half-copied block in the cache
  without logging it.
- FileOps.WriteOp: the budget of MAXOPBLOCKS is met for bitmaps of up to four blocks; larger disks are not covered by
  the source's own count either.
- Journal.Perform: one process at a time uses the file system, and an operation hands its blocks to log_write when it
  has computed them all, where the source does so block by block; no disk write happens in between in either.
- Journal.FilewriteLogged: the same, and bitmaps of up to four blocks as for FileOps.WriteOp.
- Journal.ItruncLogged: the same.
- DiskImage.DinodeInjective: the major and minor numbers of device inodes are 0.
- ShellParser.Nulterminate: it is given the words' spans; redirections keep file, mode and descriptor but files are
  not opened.
- Disk block writes are atomic and reach the disk in order; a crash loses memory and nothing else.
- The methods of VmCode, UserMemory and ProcMemory run without interruption; the interleavings are in CowMemory, where
  kfree is two steps, and so are mapping a page in the child and counting it.
- The trampoline and trapframe mappings are kept beside the references in Vm and own nothing: the trampoline is kernel
  text and the trapframe belongs to the process. Their flags are not modelled.
- The list of BufferCache and the log machine are separate: the machine may recycle any unused buffer, which includes
  the one the list picks.
- An interrupt handler on a CPU that is in its scheduler is a process of its own in SleepWakeup.
- The committer's wait for a buffer that another process has locked is modelled as that process releasing it.
- Spin locks are atomic acquire and release steps; memory fences, interrupts being off and the TLB are not modelled.
- ialloc, directories and path names, link counting across link and unlink, stat, and the global file table.
- exec, system call arguments, copyinstr, traps, boot and assembly.
- UART, PLIC, console, printf, mkfs and the test programs.
- Pipe end of file, closing, killing, and the byte that piperead loses when its copy fails (kernel/pipe.c:123-125).
- grep's line buffering around the matcher.
