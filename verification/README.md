# The metadata layer of an elastic memory pool

EMP keeps an application's memory in a bounded local page cache over donor memory. The unit of fetching and
eviction is a block, a power-of-two run of subblocks whose size changes while it is used. Address spaces fork
privately, map the same blocks, and close one after the other. This project models the layer that keeps the books
for all that, for the user-space configuration with elastic blocks: who may change a block, who maps it, who is
charged for it, which directory slot names it, where its contents are, and when each descriptor, record, request,
donor slot and page is given back.

What the modules are about:

- **BlockLock, BlockLockSafety, BlockLockProgress, BlockLockRelease.** The lock of a block is the lock word of its head, and the head
  moves while threads spin. Every compare-and-swap, every read of an order or a directory slot and every store of one
  order is a step; any number of threads interleave. The safety module proves the invariant and what follows from it,
  the other two that a waiting thread follows its slot and gets the block when it is free, and that every lock comes
  back.
- **ElasticGeometry, ElasticCounts, ElasticFlags, ElasticRuns, ElasticProtect, ElasticBlock.** Merging and splitting
  buddies: orders, flags and counters as functions, dirtiness and write protection over whole runs, then the loops that
  change them in place, locks included.
- **MapperList, MapperRecords.** The circular list of mappers of a subblock with its first node embedded, on the heap,
  and what its operations leave of the records.
- **Residency, MapperSync, LedgerRuns, LedgerMapping, ResidentBlock.** Which address space is charged for how many
  pages of which subblock, and which maps it, through every install, unmap, copy, eviction and close; the loops over the
  subblocks of a block.
- **ViewIntervals, ViewList.** The views of a directory as a multiset of intervals, kept as a sorted list with its
  first node embedded; the sweep that decides what a close may release.
- **Regions, CloseDirectory, CloseSafety, Closers.** The boundary arithmetic of a directory, the walk of a closing
  vmr over it, and the arbitration between vmrs that close at the same time.
- **CloseRuns, ForkRange, CloseRunsSafety, CloseCuts, CloseLedger, CloseFindings.** Directories that share
  descriptors, over runs of opening, forking, copy-on-write, recording and closing: which slots a fork copies, what is
  counted, what is given back, and who is still recorded on it; the last close of a directory that names groups in
  part; and that these records are the ones the residency ledger keeps.
- **DonorSlots, CowFork, CowForkSafety, CowForkRefinement, CowForkLoss, CowForkProgress, CowForkSpace.** Donor
  slots shared by reference, and the private fork, word by word against a fork that copies all memory at once; that
  reads, writes and evictions always get through; and that no descriptor and no donor slot is lost.
- **WorkRequests, FetchBlock.** The requests of a block, completed or cancelled in any order, and the population of a
  block as a whole.
- **PageLists, FreePages, FreePageCalls.** Free pages on a global list and a list for each cpu, with threads that push
  and pop at the same time, and what one call alone gets and leaves.
- **PowerOfTwo.** Rounding on power-of-two grids.

Protocols between threads are state machines whose theorems are about every schedule. What one thread does in
place is a class with the same fields; its methods are tied to specification functions, and the properties are
lemmas about those functions. A step or function named after a source function takes the branches that function
takes; where the text below says "exactly when", both directions are proved.

Findings, each proved with its condition:

- Sharing the donor slot of a block that was never touched makes a record over nothing
  (`module_gpl/cow.c:277-285`), and such a block loses what is written to it once it leaves the cache. Every
  continuation reads what an eager fork would read exactly when the block was touched
  (`CowForkLoss.RemoteShareIff`); `UntouchedShareLoses` gives the continuation that does not, from any state, and
  `UntouchedShareLosesAWrite` a whole run. So the fork refinement is stated for runs that share only touched blocks.
- A fork copies the slots of the blocks under the forked views (`module_gpl/cow.c:2266-2306`), which is the forked range
  moved out to block boundaries (`ForkRange.CopiedIsRange`) and need not be whole groups: after half of a split range
  is unmapped its group stays, and a fork of the other half names it in part (`CloseFindings.HalfForkCutsAGroup`). The
  groups of the child are whole exactly when neither end of that range falls inside a group the parent names, that is,
  off the grid its region is walked on (`ForkRange.ForkWholeIff`, `InsideIsOffGrid`). The last close of the child gets
  through and leaves no slot exactly under the same condition (`CloseCuts.ForkedLastCloseIff`). A group cut by the
  start of the range is passed over, for its first slot is empty, and what is left of it stays named and counted
  (`module_gpl/gpa.c:1709-1711`); of one cut by the end alone an empty slot is taken
  (`module_gpl/gpa.c:1493-1494`). `CloseCuts.CutFate` and `PartialGroup` say so for every cut group, and
  `CloseFindings.HalfForkLastClose` for the two halves of the run.
- Copy-on-write replaces a whole group in the directory but moves the records of the faulting vmr alone
  (`module_gpl/cow.c:1503-1537`). If the vmr of the other half of a split range is recorded on the old group, it stays
  recorded there, and its close does not come by any more (`CloseRunsSafety.OtherStrands`, `StrandedNameStays`,
  `CloseFindings.SiblingIsStranded`). Everything recorded stays in order exactly when no other vmr of the directory is
  recorded on the group (`CloseRunsSafety.ReplaceNamesIff`).
- The error path of sharing puts the old descriptor's reference too; it restores the old descriptor exactly when that
  was not shared already (`DonorSlots.RollbackIff`).
- A copy of a vmdesc takes `is_closing` along (`module_gpl/gpa.c:2434`). The copy can be closed exactly when no closer
  of the parent was inside at that moment (`Closers.CopyClosesIff`). No caller is known that forks a directory while
  one of its vmrs is inside.
- Moving an unmapped block to another owner reads the previous owner from the head alone. That is right because such
  a block has one owner; with several owners the ledger would come out wrong (`Residency.TakeOverExactIff`).
- A complete split copies the head's flags to members with a page only (`module_gpl/els_block.c:443-456`). Every member
  stays under the flags it was under exactly when the members without a page agree with the head
  (`ElasticFlags.CompleteKeepsFlagsIff`, and `ElasticProtect.PagelessMemberLeft` for a block where they do not); only
  resident blocks are split (`module_gpl/reclaim.c:1415-1430`), and write protection is set and cleared on whole blocks,
  so that it agrees (`ElasticProtect.ProtectionFollows`).
- Cutting a page list into a list that is not empty loses pages or a length (`PageLists.CutKeepsIff`); every caller
  cuts into a fresh list.

## Model

| member | source | states |
|---|---|---|
| BlockLockSafety.StepKeepsInv | module_gpl/block.h:93-171 | every atomic step of every thread keeps the invariant: each set lock word is accounted for by one thread in one role, blocks not being rewritten are uniform, validated heads are heads |
| BlockLockSafety.MutualExclusion | module_gpl/block.h:93-171 | in no interleaving of lock, trylock, merge, split, retarget and unlock are two threads past validation for the same descriptor |
| BlockLockSafety.ValidatedBlocksDisjoint | module_gpl/block.h:427-465 | the descriptors spanned by the validated heads of two threads are disjoint |
| BlockLockSafety.OwnedIsStable | module_gpl/els_block.c:217-243 | while a thread owns a block no step of another thread changes its order, its head, the ownership, or a directory slot that names it |
| BlockLockSafety.OwnedStaysPut | module_gpl/els_block.c:294-324 | the same over any stretch of steps of the others |
| BlockLockSafety.ValidationIsCurrent | module_gpl/block.h:107-127 | slot and head are re-read at two moments, yet when the second re-read succeeds the thread owns the block of the descriptor its slot names at that moment |
| BlockLockProgress.RetryFollowsSlot | module_gpl/block.h:107-127 | in any run: after a failed slot check the thread's next derivation goes to the head of the descriptor the slot named when the check failed |
| BlockLockProgress.OwnRunEnds | module_gpl/block.h:93-127 | from a waiting state the thread's own steps end the attempt after at most ten, whatever they are |
| BlockLockProgress.AcquiresAloneIff | module_gpl/block.h:93-127 | by its own steps it comes to own the block exactly when the block waited for is free, and so is the stale one it locks first, if any |
| BlockLockProgress.AttemptsWait | module_gpl/block.h:93-127 | in every reachable state an attempt through a slot that names a descriptor is such a waiting state |
| BlockLockProgress.WaiterOwnsBlock | module_gpl/block.h:93-127 | so in every reachable state, with the way clear, the thread owns the block its slot names after at most ten steps of its own |
| BlockLockRelease.ComesToRest | module_gpl/els_block.c:372-472 | whatever a thread is in the middle of, a bounded number of its own steps ends it, with no step of the others |
| BlockLockRelease.LocksComeBack | module_gpl/block.h:117-171 | in every reachable state a thread by its own steps gives back every lock word it holds and takes none of anybody else's |
| BlockLock.RegionHeadLocked | module_gpl/els_block.c:143-161 | whoever may store an order holds the lock of the head derived from it at any moment, also half way through the rewrite |
| ElasticGeometry.StretchGeometry | module_gpl/els_block.c:143-161 | one merge keeps the buddy partition below every ceiling, uniform orders, states on heads only and dirty blocks resident |
| ElasticGeometry.StretchKeepsDirty | module_gpl/els_block.c:76-105 | a subblock under a dirty head stays under one, whichever half carried the flag, and nothing outside the merged block becomes dirty |
| ElasticGeometry.ReduceKeepsDirty | module_gpl/els_block.c:372-408 | splitting moves no subblock in or out of dirtiness |
| ElasticGeometry.ReduceGeometry | module_gpl/els_block.c:372-408 | splitting once keeps the geometry |
| ElasticGeometry.CompleteGeometry | module_gpl/els_block.c:424-472 | splitting all the way down keeps the geometry, members without a page included |
| ElasticFlags.ReduceKeepsFlags | module_gpl/els_block.c:372-408 | splitting once leaves every member under every flag it was under, and in a block of the same state; nothing but the new head changes |
| ElasticFlags.CompleteKeepsFlagsIff | module_gpl/els_block.c:424-472 | splitting all the way does so exactly when the members without a page agree with the head, so for every resident block |
| ElasticFlags.StretchKeepsFlagIff | module_gpl/els_block.c:76-105 | a merge leaves every member under a flag, or not, as it was, exactly when the two heads agree on the flag |
| ElasticFlags.MergedUnder | module_gpl/els_block.c:76-105 | where they do not: which flags of which head the merged block is under |
| ElasticFlags.StretchState | module_gpl/els_block.c:76-105 | the merged block is in the state of the faulting half |
| ElasticCounts.StretchCounts | module_gpl/els_block.c:143-161 | a merge takes two heads of one order and adds one of the next, and no other order changes its number of blocks |
| ElasticCounts.ReduceCounts | module_gpl/els_block.c:372-408 | a split takes one head of its order and adds two of the order below |
| ElasticCounts.CompleteCounts | module_gpl/els_block.c:424-472 | a complete split takes one head and adds a head of order zero for every member |
| ElasticCounts.TalliesWeigh | module_gpl/els_block.c:143-161 | counters that count the blocks of a partition weigh, block_count[o] times 2^o summed up, exactly the descriptors there are |
| ElasticCounts.BlocksCoverAll | module_gpl/els_block.c:143-161 | the blocks of a partition cover the descriptors exactly, nothing twice and nothing missing |
| ElasticRuns.DirtinessNeverLost | module_gpl/els_block.c:76-105 | over every sequence of stretches and splits, with fetches, list moves, writebacks and evictions in between, the geometry holds and what is under a dirty head stays under a dirty head until its block is written back or given up |
| ElasticProtect.ProtectionFollows | module_gpl/cow.c:739-766 | over every sequence of events in which merged heads agree on protection, members agree with their head on it, and a member is under it exactly when the last event that protected or unprotected its block protected it |
| ElasticProtect.PagelessMemberLeft | module_gpl/els_block.c:443-456 | a block without pages whose head alone carries a flag: after a complete split its member is not under it any more |
| ElasticRuns.NewGroupGeometry | module_gpl/gpa.c:190-258 | a group as it is allocated is such a geometry: one block, ceilings set alike |
| ElasticBlock.MergeableAreBuddies | module_gpl/els_block.c:175-244 | the checks made on two heads and their ceilings suffice for the whole merged block: it is two buddies within every member's ceiling that agree on write protection, and the one merged in is active, mapped, dirty exactly if the fault writes, and neither pinned, prefetched nor stretched |
| ElasticBlock.BlockSet.IsStretchable | module_gpl/els_block.c:175-244 | success returns a locked matching buddy, failure changes no lock |
| ElasticBlock.BlockSet.StretchLevel | module_gpl/els_block.c:143-161 | orders, flags and counters in place equal one merge |
| ElasticBlock.BlockSet.StretchRep | module_gpl/els_block.c:263-361 | the loop terminates and stops only where no further merge is possible or wanted; when the block grew only the new head stays locked, active plus proactive page_len rose by exactly the faulting block, the grown block is made of the faulting one and of blocks that may join it, nothing else changed, no subblock left a dirty block, and write protection is where it was |
| ElasticBlock.BlockSet.ReduceOnce | module_gpl/els_block.c:372-408 | two locked halves whose members are under the flags they were under, or nothing done |
| ElasticBlock.BlockSet.LockMembers | module_gpl/els_block.c:424-440 | the locks of all members or of none |
| ElasticBlock.BlockSet.TryReduceComplete | module_gpl/els_block.c:424-472 | every member its own locked block, under the flags it was under if the block was resident, or nothing done |
| MapperList.InsertAddsMapper | module_gpl/local_page.c:16-47 | inserting adds one mapper or finds it there, keeps the entries duplicate-free and the record in a legal state |
| MapperList.PopRemovesMapper | module_gpl/local_page.c:49-94 | popping removes exactly one mapper; the last one stays as owner; the representative maps while any mapping survives |
| MapperList.PopUndoesInsert | module_gpl/local_page.c:16-94 | inserting an absent vmr and popping it gives the same records, and the same owner unless there was no record |
| MapperList.PromoteKeepsMappers | module_gpl/local_page.h:523-542 | promotion makes an existing mapper the owner and changes no mapper |
| MapperList.CountIsCardinality | module_gpl/local_page.h:637-640 | num_pmds counts distinct mappers |
| MapperRecords.InsertKeepsRecords | module_gpl/local_page.c:16-47 | inserting records an absent vmr with the pmd given and changes no record there is |
| MapperRecords.PopKeepsRecords | module_gpl/local_page.c:49-94 | popping takes the record of the vmr and leaves the others with their pmds |
| MapperRecords.PromoteKeepsRecords | module_gpl/local_page.h:523-542 | promotion changes no record |
| MapperList.LocalPage.Insert | module_gpl/local_page.c:16-47 | on the circular list: the new state, the linked nodes, and failure exactly when a node is needed and none was allocated |
| MapperList.LocalPage.Pop | module_gpl/local_page.c:49-94 | on the circular list: the new state, the pmd returned, and the node freed, never the embedded one |
| MapperList.LocalPage.PromoteOwner | module_gpl/local_page.h:523-542 | the contents of two nodes are exchanged |
| MapperList.LocalPage.Lookup | module_gpl/local_page.h:544-562 | a mapper's pmd, or none |
| MapperList.LocalPage.SetOwner | module_gpl/local_page.h:507-513 | an unmapped page gets a retained owner |
| Residency.PartialLenIsOverlap | module_gpl/paging.h:103-114 | the clipped length is the number of pages the subblock and the view share |
| Residency.PageLenIsPages | module_gpl/paging.h:103-150 | a mapping is charged exactly the pages seen through it: those of its view on a partial subblock, and else all |
| Residency.InstallExact | module_gpl/hva.c:246-284 | installing keeps the ledger exact, the first mapping taking the whole-subblock charge away |
| Residency.UnmapExact | module_gpl/gpa.c:871-933 | unmapping keeps it exact, the last mapping handing the whole subblock to the retained owner |
| Residency.StripExact | module_gpl/gpa.c:1416-1450 | after a strip nothing names the closed vmr and nothing is booked on it |
| Residency.UnmapAllClears | module_gpl/gpa.c:1013-1044 | unmapping a block ends with nothing mapped, an exact ledger, and on each subblock one owner it had before |
| Residency.EvictedBlock | module_gpl/gpa.c:1061-1097 | after owner synchronisation the whole block has one common owner, or none anywhere |
| Residency.TakeOverExact | module_gpl/page_mgmt.c:167-186 | a fault on an unmapped block moves all of it to the faulting vmr and keeps the ledger exact, given one common owner |
| Residency.TakeOverExactIff | module_gpl/page_mgmt.c:79-103 | the loop keeps the ledger exactly when the block has one owner or is the faulting vmr's already |
| Residency.ReleasedSettled | module_gpl/gpa.c:2048-2064 | when the local copy goes nothing stays booked |
| Residency.HandoffSettles | module_gpl/cow.c:1200-1224 | handing a block over moves the only record and its charge and leaves nothing booked on the pages given away |
| Residency.HandoffMovesRecord | module_gpl/cow.c:1200-1224 | the new page has the record of the old one as it was |
| Residency.CopiedExact | module_gpl/cow.c:1045-1127 | the copy is booked to the faulting vmr alone |
| LedgerRuns.LedgerIsExact | module_gpl/debug.c:348-380 | over every run: what is booked for v on a subblock is the number of its pages that v sees if v maps it, plus the whole subblock if nobody does and v is the retained owner; an unmapped block stands whole on one address space |
| LedgerRuns.NothingLost | module_gpl/gpa.c:2048-2064 | a local page is destroyed only with nothing booked on it; that a last close finds nobody else recorded is its guard, which CloseLedger.LastCloseLosesNothing discharges |
| LedgerRuns.FetchDemandOk | module_gpl/hva.c:291-380 | after a critical-subblock-first fetch, which maps the demanded subblock alone, the ledger is exact and all of the block stands on the fetching vmr |
| LedgerRuns.StepOk | module_gpl/gpa.c:871-933 | fetch, install, evict, promote, refault, copy, handoff, split, close and release keep every block in a well-formed phase |
| LedgerRuns.StepSeen | module_gpl/hva.c:246-284 | and whoever maps a subblock sees a page of it |
| LedgerMapping.FaultMaps | module_gpl/hva.c:467-547 | a fault ends with every subblock of the block mapped by exactly the faulting vmr and whoever mapped some subblock before, of either half after a merge |
| LedgerMapping.DemandMaps | module_gpl/hva.c:291-380 | a demand-first fetch maps the subblock asked for and no other, and every subblock stands on the fetching vmr |
| LedgerMapping.LeavingUnmaps | module_gpl/gpa.c:1416-1450 | a close and a copy take the vmr off every subblock and nobody else |
| LedgerMapping.EvictUnmaps | module_gpl/gpa.c:1013-1044 | an eviction takes everybody off and keeps the subblocks |
| LedgerMapping.OthersStay | module_gpl/gpa.c:871-933 | no event touches another block, and only a merge and a last close take one away |
| MapperSync.SyncAllIsUnion | module_gpl/hva.c:537-547 | after one pass every subblock has the same mappers, the union of all the original sets, and the ledger is exact |
| MapperSync.SyncAllKeepsRecords | module_gpl/hva.c:479-547 | every record stays, and every record added was one of some subblock, pmd included; where the subblocks agreed on pmds all end with the same records, those that were on any of them |
| MapperSync.InstalledIsGrowth | module_gpl/hva.c:479-535 | what is installed is what was missing, and the counts then agree exactly when the lesser side had nothing of its own |
| MapperSync.CountMeetsSet | module_gpl/hva.c:479-535 | with duplicate-free lists equal counts and inclusion mean equal sets |
| MapperSync.SyncOfAgreed | module_gpl/hva.c:537-547 | a block whose subblocks agree is left as it is |
| ResidentBlock.Block.InstallHptes | module_gpl/hva.c:291-380 | the loop equals installing on every subblock that lacks the vmr |
| ResidentBlock.Block.SyncHptMap | module_gpl/hva.c:537-547 | the loop over the subblocks equals the one-pass synchronisation, and adds no record that was on no subblock |
| ResidentBlock.Block.UnmapPtes | module_gpl/gpa.c:1013-1044 | the nested loops terminate, measured by the records left, and equal unmapping every mapper |
| ResidentBlock.Block.SyncBlockOwner | module_gpl/gpa.c:1061-1097 | the loops give every unmapped subblock the head's owner, or the first found |
| ResidentBlock.Block.TakeOverBlock | module_gpl/page_mgmt.c:167-186 | the loop equals moving every subblock the previous owner held |
| ResidentBlock.Block.StripVmr | module_gpl/gpa.c:1416-1450 | the loop equals stripping every subblock, and tells whether anybody still maps the block |
| ResidentBlock.Block.IsMappedByOnly | module_gpl/cow.c:1141-1158 | true exactly when v maps every subblock and nobody else any |
| ResidentBlock.LeaveCopied | module_gpl/cow.c:1045-1109 | a mapper is popped with its view, a bare owner released whole, anybody else charged nothing here, and the vmr is not retained: the same as stripping it |
| ResidentBlock.CopyBlock | module_gpl/cow.c:973-1128 | new pages mapped by v through the pmd given and charged its view, the old block without v and with an owner that remains; tells whether nobody is left |
| ResidentBlock.HandOverBlock | module_gpl/cow.c:918-960 | records, pmds included, and charges move to the new descriptors, the old pages are settled |
| ResidentBlock.SetRemote | module_gpl/gpa.c:2048-2064 | the owner of every subblock stops carrying it |
| ViewIntervals.AddedMultiplicity | module_gpl/gpa.c:2101-2162 | adding raises the multiplicity of one interval by one and of no other |
| ViewIntervals.AddedWellFormed | module_gpl/gpa.c:2101-2162 | and keeps the list sorted, duplicate-free, with positive counts |
| ViewIntervals.DeletedMultiplicity | module_gpl/gpa.c:2194-2226 | deleting lowers one multiplicity by one |
| ViewIntervals.DeleteUndoesAdd | module_gpl/gpa.c:2101-2226 | deleting what was added gives the very list back |
| ViewIntervals.SplitPreservesCoverage | module_gpl/gpa.c:2257-2298 | a split keeps the number of views on every page and adds one unit |
| ViewIntervals.SplitKeepsSeen | module_gpl/gpa.c:2257-2298 | and leaves the pages that some view covers as they were |
| ViewIntervals.UncoveredIsExact | module_gpl/gpa.c:2317-2368 | a returned range is precisely the pages of the input no view covers; otherwise an uncovered page exists and a view lies strictly inside what remains |
| ViewIntervals.FullyCoveredIsEmpty | module_gpl/gpa.c:2317-2368 | the range is empty exactly when the input is fully covered |
| ViewIntervals.MetIsSeen | module_gpl/gpa.c:2387-2410 | a non-empty range is met by a view exactly when one of its pages is seen |
| ViewList.Vmdesc.AddLocked | module_gpl/gpa.c:2101-2162 | on the linked list: one unit more, the node consumed exactly when the interval is new, and every node linked once |
| ViewList.Vmdesc.DelLocked | module_gpl/gpa.c:2194-2226 | one unit less; the unlinked node is returned, and the embedded entry is empty only when the list is |
| ViewList.Vmdesc.SplitView | module_gpl/gpa.c:2257-2298 | the halves replace the interval under one hold of the lock; every preallocated node ends linked or freed |
| ViewList.Vmdesc.FindUncovered | module_gpl/gpa.c:2317-2368 | the walk computes the specified answer |
| ViewList.Vmdesc.IsCovered | module_gpl/gpa.c:2387-2410 | the early stop of the walk is right |
| ViewList.Vmdesc.Exit | module_gpl/gpa.c:2412-2425 | every overflow node is given back once |
| Regions.BlocksFillTheMiddle | module_gpl/gpa.c:333-466 | regions with whole blocks are exactly the aligned middle of the namespace |
| Regions.PartialIsSingle | module_gpl/gpa.c:366-460 | a partial-map region is one subblock at an end, with subblock order |
| Regions.GroupInsideRegion | module_gpl/block.h:50-60 | the group derived from an index lies inside that index's region, on the grid the region is walked on, and contains the index |
| Regions.GroupMembersAgree | module_gpl/block.h:50-60 | every member of a group derives the same head index |
| Regions.AddressAndIndexAgree | module_gpl/block.h:73-84 | the head found from a descriptor's address is the one found from its index |
| Regions.SortBoundaries | module_gpl/gpa.c:262-284 | in place: ascending, a permutation |
| Regions.SortRegions | module_gpl/gpa.c:287-311 | in place: largest first, a permutation |
| Regions.BuildRegions | module_gpl/gpa.c:430-466 | regions end to end, none empty, cut at every boundary |
| Regions.SetGpadescRegions | module_gpl/gpa.c:333-466 | the whole construction yields a partition cut at the boundaries, largest region first |
| Regions.GetRegion | module_gpl/block.h:302-340 | the one region that holds the index |
| Regions.RegionsPartition | module_gpl/gpa.c:333-466 | for every vma and order the regions partition [0, gpa_len), whole-block regions are multiples of their group, partial subblocks stand alone |
| CloseDirectory.ReleaseIsSafe | module_gpl/gpa.c:1847-1908 | with views surviving, a released group is met by none of them |
| CloseDirectory.UnseenIsReleased | module_gpl/gpa.c:1847-1908 | and inside the closing view every group that no surviving view meets is released, whether one range is uncovered or several |
| CloseDirectory.ClearedIff | module_gpl/gpa.c:1722-1730 | so of the groups inside the closing view a close clears the slots of exactly those of which no surviving view sees a page |
| CloseDirectory.WalkMeetsView | module_gpl/gpa.c:1847-1908 | while views survive only groups with a page of the closing view are walked |
| CloseDirectory.EveryPageWalked | module_gpl/gpa.c:1847-1908 | every group with a page of the closing view is walked |
| CloseDirectory.LastCloseReleasesAll | module_gpl/gpa.c:1847-1908 | the last close walks and releases everything |
| CloseDirectory.ClippedWalk | module_gpl/gpa.c:1689-1705 | the clipped walk of a region visits exactly its groups that meet the walk range |
| CloseDirectory.Vmdesc.PutGroup | module_gpl/gpa.c:1456-1573 | for any slots: tells how many could be taken before an empty one, which references are dropped and which slots cleared; of a whole group strips the vmr and gives the group back exactly when the last slot goes |
| CloseDirectory.Vmdesc.FreeRegion | module_gpl/gpa.c:1657-1794 | what the walk of one region leaves, position by position |
| CloseDirectory.Vmdesc.Close | module_gpl/gpa.c:1803-1941 | the view goes first, then the directory is walked by what the surviving views say: inside the closing view exactly the groups unseen by them lose their slots, and a reference is dropped exactly with its slot |
| CloseSafety.ReleasedAreUnseen | module_gpl/gpa.c:1456-1573 | while other views live, a slot cleared by a close belongs to a group none of whose pages a surviving view covers |
| CloseSafety.ClosedVmrIsStripped | module_gpl/gpa.c:1416-1450 | no descriptor under a page of the closing view names the closed vmr afterwards |
| CloseSafety.LastCloseEmpties | module_gpl/gpa.c:1908-1941 | the last close leaves no slot |
| CloseSafety.FreedWithLastSlot | module_gpl/vm.h:543-595 | one close: references keep counting slots, and a descriptor is given back exactly when its last slot goes (nobody is recorded on it then: CloseRunsSafety.FreedIsNameless) |
| CloseSafety.ForkCounts | module_gpl/cow.c:2244-2321 | a fork counts the slots it copies |
| CloseRunsSafety.StepOk | module_gpl/vm.h:543-595 | opening, allocating, recording, forking that cuts no group, replacing a group and closing keep: counts are slots, groups are named whole, a descriptor is given back exactly when unnamed; and, unless a replacement strands another vmr, whoever is recorded is open, reaches the group by its view, and its directory names the descriptor |
| CloseRunsSafety.CountsOverRuns | module_gpl/vm.h:543-595 | over every run whose forks cut no group, with any replacements: references count slots, groups are whole, and a descriptor is given back exactly when nothing names it |
| CloseRunsSafety.NamesOverRuns | module_gpl/gpa.c:1847-1870 | over every such run whose replacements strand nobody only open vmrs are recorded, on descriptors their own directory names and their view reaches; on a descriptor given back, nobody |
| CloseRunsSafety.FreedIsNameless | module_gpl/gpa.c:1456-1573 | what a close gives back was recorded for the closing vmr at most, and is recorded for nobody then |
| CloseRunsSafety.GroupGoesIff | module_gpl/gpa.c:1456-1573 | in every such state: a group inside the closing vmr's view loses its slots exactly when no other vmr of the directory views a page of it |
| ForkRange.CopiedIsRange | module_gpl/cow.c:2266-2306 | the slots a fork copies, block by block under its views, are one range: the forked range moved out to block boundaries |
| ForkRange.InsideIsOffGrid | module_gpl/gpa.c:1696-1703 | an index falls inside a group exactly when it is off the grid of its region |
| ForkRange.ForkWholeIff | module_gpl/cow.c:2266-2306 | a forked directory names its groups whole exactly when neither end of the copied range falls inside a group the parent names |
| CloseCuts.LastClose | module_gpl/gpa.c:1657-1794 | the walk of a last close over any directory: every group with a first slot is taken whole and each reference dropped, the others keep their slots and references, and an empty slot is met exactly when a group with a first slot lacks another |
| CloseCuts.LastCloseIff | module_gpl/gpa.c:1908-1941 | the last close gets through and leaves no slot exactly when every group is named by all of its slots or none |
| CloseCuts.PartialGroup | module_gpl/gpa.c:1709-1711 | a group named in part: with its first slot an empty slot is taken; without it its slots stay and its descriptors stay counted |
| CloseCuts.ForkedLastCloseIff | module_gpl/cow.c:2266-2306 | for a directory as it was forked, exactly when neither end of what the fork copied fell inside a group of the parent |
| CloseCuts.CutFate | module_gpl/cow.c:2266-2306 | a copied group has its first slot in the child exactly when that slot lies in the copied range |
| CloseLedger.CloseLinks | module_gpl/gpa.c:1456-1573 | a close gives the descriptors of a block back together or not at all; if it does the ledger's last close of the block is enabled, if not the block's records stay the directory's |
| CloseLedger.LastCloseLosesNothing | module_gpl/gpa.c:1456-1573 | so whenever the directories give a block back, its pages go with nothing booked on them |
| CloseLedger.CopyLinks | module_gpl/cow.c:1045-1127 | a copy-on-write leaves the old block and the new one with the same records in both models |
| CloseLedger.MapLinks | module_gpl/hva.c:537-547 | whoever synchronisation and a fault record on a subblock, the directory may record on its descriptor |
| CloseRunsSafety.ReplaceNamesIff | module_gpl/cow.c:1503-1537 | replacing a group keeps the records in order exactly when no other vmr of the directory is recorded on it |
| CloseRunsSafety.StrandedNameStays | module_gpl/cow.c:1503-1537 | otherwise that vmr is still recorded on the old group after it has closed |
| CloseFindings.HalfForkCutsAGroup | module_gpl/cow.c:2266-2306 | for either half: a run that unmaps the other one and reaches a fork that cuts the group |
| CloseFindings.HalfForkLastClose | module_gpl/gpa.c:1709-1711 | the last close of the child: forked from the lower half it takes an empty slot, from the upper half it gets through and leaves the slot and its reference |
| CloseFindings.SiblingIsStranded | module_gpl/cow.c:1503-1537 | a run that reaches a replacement with the other half's vmr recorded |
| Closers.OneWalker | module_gpl/gpa.c:1818-1848 | no two closers walk the directory at once |
| Closers.LastCloserIsAlone | module_gpl/gpa.c:1924-1940 | exactly one closer sees the count reach zero, and then nobody waits |
| Closers.RefcountIsUnits | module_gpl/gpa.c:1818-1848 | at stable boundaries the reference count is the number of units in the view list |
| Closers.SomebodyMoves | module_gpl/gpa.c:1818-1848 | some closer that has begun and not finished can always move |
| Closers.ClosingTerminates | module_gpl/gpa.c:1818-1940 | every step of a closer lowers one measure of the whole group |
| Closers.RunsAreBounded | module_gpl/gpa.c:1818-1940 | so a run without new vmrs is no longer than that measure |
| Closers.CopiedFlagStrands | module_gpl/gpa.c:2427-2440 | with the flag set and nobody inside, no run ever lets a closer in |
| Closers.CopyClosesIff | module_gpl/gpa.c:2427-2440 | whatever the parent's closers did, a copy made then can be closed exactly when none of them was inside |
| DonorSlots.ShareInv | module_gpl/cow.c:273-292 | after sharing both descriptors read the slot the old one read; nobody else is affected |
| DonorSlots.PutInv | module_gpl/cow.c:294-309 | a put is noticed by nobody else and leaves the descriptor no reference |
| DonorSlots.LastPutKeepsSlot | module_gpl/cow.c:294-309 | the slot stays with the descriptor exactly when nobody else referred to it; otherwise the descriptor is left without one |
| DonorSlots.FetchDoneIsSafe | module_gpl/donor_mem_rw.c:563-574 | completing a fetch frees no slot another descriptor can read |
| DonorSlots.FetchDoneKeepsIff | module_gpl/donor_mem_rw.c:563-574 | it leaves the descriptor its slot exactly when donor copies are reused and nobody shares the slot, and gives the slot back exactly when they are not and nobody does |
| DonorSlots.HoldersOverRuns | module_gpl/remote_page.c:45-94 | over every run a slot in use has one holder, a record's count is the number of descriptors naming it, and no readable slot is free |
| DonorSlots.SlotsAccounted | module_gpl/remote_page.c:366-383 | over every run no slot is lost: it is free, a descriptor's own, or a record's |
| DonorSlots.ShareReadableIff | module_gpl/cow.c:277-285 | sharing keeps every claimed donor copy readable exactly when the shared descriptor has one |
| DonorSlots.RollbackIff | module_gpl/cow.c:311-325 | the rollback restores the old descriptor exactly when it was not shared before |
| DonorSlots.RemotePages.GetCow | module_gpl/cow.c:273-292 | in place: a share, or nothing at all when no record could be allocated |
| DonorSlots.RemotePages.PutCow | module_gpl/cow.c:294-309 | in place: a put, true exactly when the slot is now the descriptor's own |
| DonorSlots.RemotePages.ClearFetching | module_gpl/donor_mem_rw.c:563-574 | in place: put first, free only what is then its own, and keep it exactly when donor copies are reused |
| CowForkSafety.StepGood | module_gpl/cow.c:1334-1368 | every event keeps: shared implies write-protected, writable implies dirty and unshared, a clean resident block equals its donor copy; and every event but a store, copies and handovers included, keeps every word of every block |
| CowForkSafety.AfterCopyGood | module_gpl/cow.c:251-270 | the copy holds word for word what the old block holds, which keeps its own contents |
| CowForkSafety.AfterHandoffGood | module_gpl/cow.c:918-960 | the new descriptor holds the page, and the old one still means the same by its donor copy |
| CowForkSafety.StoreGood | module_gpl/cow.c:783-794 | a store that takes no fault changes one word of a block no other directory names |
| CowForkSafety.HandoffIsClean | module_gpl/cow.c:1341-1366 | handoff happens only when the donor copy equals the page |
| CowForkRefinement.StepSame | module_gpl/cow.c:1334-1368 | no open directory notices anything but forks and stores |
| CowForkRefinement.StepRefines | module_gpl/cow.c:1334-1368 | each event is one event of the fork that copies at once |
| CowForkRefinement.ForkRefinesEagerCopy | module_gpl/cow.c:2244-2321 | over every run of fork, nested too, faults, copy, handoff, remote share, stores, fetch, eviction, writeback and close, each directory reads in every word what it would read if fork copied eagerly |
| CowForkRefinement.SharedIsProtected | module_gpl/cow.c:783-794 | in every reachable state a descriptor named by two directories is write-protected and has no writable pte |
| CowForkLoss.RemoteShareIff | module_gpl/cow.c:1234-1257 | after sharing by reference every continuation that shares only touched blocks reads what an eager fork reads, exactly when the shared block was touched |
| CowForkLoss.UntouchedShareLoses | module_gpl/cow.c:277-285 | otherwise, from any state: fetch, write one word, evict and write back, and the word is lost |
| CowForkLoss.UntouchedShareLosesAWrite | module_gpl/cow.c:277-285 | a run that reaches such a share from nothing |
| CowForkProgress.CopyAnswers | module_gpl/cow.c:1334-1368 | copying and handing over leave the faulting directory a block of its own, shared with nobody and writable at once |
| CowForkProgress.WriteGoesThrough | module_gpl/cow.c:1334-1368 | from every state of the invariant a directory can store to any of its blocks after at most three events |
| CowForkProgress.ReadGoesThrough | module_gpl/hva.c:577-720 | and map any of its blocks after at most two, none of them a copy |
| CowForkSpace.NothingIsLost | module_gpl/remote_page.c:366-383 | over every such run every descriptor is named by some directory, and a donor slot is free exactly when no named descriptor reads it |
| CowForkSpace.AllComesBack | module_gpl/gpa.c:1456-1573 | once all directories are empty no descriptor is left and every donor slot is free |
| CowForkSpace.CloseEmpties | module_gpl/gpa.c:1456-1573 | slot by slot a closing directory becomes empty, and the others keep their names |
| CowForkSpace.LeavesCache | module_gpl/reclaim.c:1356-1409 | from every state of the invariant a block leaves the cache after at most three events, and every block holds what it held |
| WorkRequests.FinishedOnce | module_gpl/donor_mem_rw.c:581-598 | in any order of completion each read request is given back once, the head last, none used after |
| WorkRequests.PostedAndReleased | module_gpl/donor_mem_rw.c:792-816 | posting a block's reads and completing or cancelling them in any order leaves the requests as they were |
| WorkRequests.WrittenOnce | module_gpl/donor_mem_rw.c:224-295 | in any order a writeback gives back all its requests at its last completion, the head last |
| WorkRequests.NothingEarly | module_gpl/donor_mem_rw.c:224-295 | and none before |
| WorkRequests.ReadsConsume | module_gpl/donor_mem_rw.c:563-598 | after any order of completion every descriptor of the block has put its share, and no other reads another slot |
| WorkRequests.Requests.PostRead | module_gpl/bdev.c:345-351 | the head counts the request |
| WorkRequests.Requests.ClearFetching | module_gpl/donor_mem_rw.c:581-598 | in place: one completion, donor copies consumed |
| WorkRequests.Requests.CancelRead | module_gpl/donor_mem_rw.c:792-816 | in place: one completion, donor copies kept |
| WorkRequests.Requests.ClearWriteback | module_gpl/donor_mem_rw.c:224-295 | in place: parked on the head, everything given back by the last |
| WorkRequests.Requests.GiveBackAll | module_gpl/donor_mem_rw.c:194-212 | the loop gives back each of the head's list once |
| FetchBlock.Block.AllocBlock | module_gpl/page_mgmt.c:358-382 | a page for every subblock exactly when there are that many, or no page taken |
| FetchBlock.Block.FetchSubblock | module_gpl/donor_mem_rw.c:108-187 | populated, charged and posted exactly when neither the page record nor the read fails, or nothing but the page given back |
| FetchBlock.Block.Unwind | module_gpl/page_mgmt.c:386-415 | pages, charges and requests of the populated subblocks go back, donor copies stay, the first-touch mark is taken back |
| FetchBlock.Block.Fetch | module_gpl/page_mgmt.c:438-534 | all exactly when pages, page records and reads can be had for every subblock, and else nothing: on failure pages, charges, requests, donor copies and TOUCHED are as before, and just the flags of subblocks that were populated are gone; on success every subblock holds its donor's contents or zeroes, and one head counts all reads |
| FetchBlock.DroppedExactly | module_gpl/page_mgmt.c:505-512 | a fetch that reads nothing gives back exactly the flagged copies that are not shared |
| FetchBlock.FetchCompletes | module_gpl/donor_mem_rw.c:581-598 | after a successful fetch any order of completion leaves no request and settles every donor copy |
| PageLists.CutKeepsIff | module_gpl/lru.h:137-184 | a cut keeps every page and both lengths exactly when it goes to an empty list |
| PageLists.PageList.CutCount | module_gpl/lru.h:162-184 | the walk to the cut position takes the first `count` pages, or drains the list |
| FreePages.EventInv | module_gpl/alloc.c:34-101 | every atomic step of every pushing or allocating thread keeps the pages conserved and the counters in step |
| FreePages.PagesConserved | module_gpl/alloc.c:34-263 | over every interleaving each page got from the host is in exactly one place, lengths match, the cache exceeds its limit by less than a subblock a thread, no more goes back than asked; at rest alloc_pages_len is subblock_size times the pages held |
| FreePages.FinishBalanced | module_gpl/alloc.c:34-263 | a whole call by one thread makes and loses no page |
| FreePages.Allocator.PushFreePage | module_gpl/alloc.c:34-101 | in place, whatever the first read of the reclaim counter saw: reclaim path, restoring of an overdrawn counter, local list, cut and spill, or the return after a failed trylock |
| FreePages.Allocator.PopFreePage | module_gpl/alloc.c:203-263 | in place: own list, global pull, then the other cpus in turn; the first page is handed out and the rest kept |
| FreePages.Allocator.TryOthers | module_gpl/alloc.c:232-248 | the loop over the other cpus stops at the first that yields pages |
| FreePageCalls.PopFindsPage | module_gpl/alloc.c:203-263 | an allocation left alone gets a page exactly when some list holds one: the first of its own list, which is all that changes then, else the first of the global list or of another cpu's |
| FreePageCalls.KeepSplits | module_gpl/alloc.c:61-101 | a page given back stays with its cpu up to the limit; beyond it the newest half of the limit stays and the rest goes to the global list, or back behind them |

## Left out

- Donor back ends (`bdev.c`, `rdma.c`, `memdev.c`, `udma.c`): a read returns the slot's bytes and a write stores them; chained RDMA requests are not modelled.
- KVM and EPT code and the low-memory boundary of `set_gpadesc_regions`.
- Real page tables, TLB flushing, rmap and kernel zaps: a pte is mapped or not, writable or not.
- Critical-page-first, which maps a single page without a mapper record.
- `procfs.c`, `ioctl.c`, `glue.c`, `compat.h`, `libemp`, `mimalloc-emp`: plumbing and parsing.
- Reclaim policy, remote slot allocation and vma split: an eviction, an allocation or a split may happen at any time.
- The mmu-notifier grant path (`module_gpl/cow.c:1834-1847`) makes ptes dirty without the DIRTY flag that handoff reads, so writes are those through `emp_page_fault_hva`.
- The error path of `__handle_emp_cow_fault_reduced` (`module_gpl/cow.c:1527-1530`), which does not undo blocks already duplicated.
- The in-flight writeback counter, which `__wait_writeback_async` does not lower.
- `clear_in_flight_fetching_block`, `flush_local_free_pages` and `alloc_exit`: teardown with nothing else at work.
- The retry loop of `_alloc_pages`: its rounds are steps of FreePages, and the waiting between them is not modelled.
- 64-bit wrap-around of addresses, counters and reference counts; the stale-block flag in fork runs (set by the VM path only).
- Flags other than those named in the modules, and the fields of debug configurations.
- Assumptions about helpers: `set_gpa_dir_new`, `change_gpa_dir` and `remove_gpa_dir` count directory slots; `is_block_remote_page_valid` and `free_remote_page` are as in `remote_page.h` and `remote_page.c`; `emp_writeback_block` stores the page in the descriptor's own slot; `emp_update_rss_*` add and subtract; callers of `emp_lp_insert_pmd` get their node.
- ElasticRuns.DirtinessNeverLost: for ceilings as groups are allocated with; a vma split lowers them block by block (`module_gpl/vm.c:601-690`), which is not an event there.
- ElasticCounts.TalliesWeigh: for counters of all blocks; the source counts a block from its first touch on, so its counters weigh the touched part.
- BlockLockSafety.MutualExclusion: no descriptor is given back and allocated again while a thread spins on its lock word.
- BlockLockProgress.WaiterOwnsBlock: with no step of the others in between; what they hold for ever, or retarget again and again, can keep a thread waiting.
- BlockLockRelease.LocksComeBack: for threads that spin on nobody else's lock and are not setting up or taking down a group, which locks its members one by one.
- ElasticProtect.ProtectionFollows: that merged heads agree is the check of `module_gpl/els_block.c:229-233`, a guard of the runs there and proved of the code in ElasticBlock.
- LedgerRuns.LedgerIsExact: a vmr faults on a subblock only if it sees a page of it, a guard of the events; windows do not change in a run.
- FetchBlock.Block.Fetch: which page records and reads fail is given with the block; waiting for pages is not modelled.
- CowForkProgress.WriteGoesThrough: with no event of others in between, and for blocks that may be shared by reference only if they were touched.
- CowForkSpace.LeavesCache: with no event of others in between, and a donor slot at hand if the block has none.
- CowForkSpace.NothingIsLost: for the runs of ForkRefinesEagerCopy; a directory that closes empties itself slot by slot.
- FreePageCalls.PopFindsPage: for calls with nobody else moving, pulls of at least one page, and lists whose lengths are exact, as FreePages.PagesConserved keeps them.
- LedgerRuns.NothingLost: that nobody but the closing vmr is recorded at a last close is a guard there; CloseLedger discharges it for blocks whose records are those of the directories, which it shows for closes, copies and faults; an eviction only takes vmrs off and is not linked.
- CloseRunsSafety.StepOk: for forks that cut no group, because of the finding above; the directories of other forks are those of CloseCuts, for their last close only.
- CloseRunsSafety.CountsOverRuns: for the same forks; the halves of a vma split enter as views opened on one directory, the views of a fork together, and blocks are runs of positions inside a group, given with the fork.
- CloseRunsSafety.NamesOverRuns: for the same runs, with groups replaced only where no other vmr of the directory is recorded; records are told by group, and a close is one step, as Closers allows one walker at a time.
- CloseCuts.LastClose: slots and references alone; taking an empty slot ends the walk there, whatever the kernel does then.
- CowForkRefinement.ForkRefinesEagerCopy: for runs that share only touched blocks, because of the finding above; the subblocks of a block are copied together, and a word not listed reads zero. One block is replaced at a time, on a copy-on-write fault of its own; the source asks of the faulting block alone whether it is one and then replaces all blocks of its group, each by its own state (`module_gpl/cow.c:1469-1537`).
- CowForkRefinement.SharedIsProtected: for the same runs.
- FreePages.EventInv: the unlocked read of a list's length and the locked pop are one step; a race makes the pop find the list empty, or the read skip it, and either is that step at the moment of the pop or of the read.
- WorkRequests.WrittenOnce: a request's remote page that is flagged freed is not given back (`module_gpl/donor_mem_rw.c:203-209`); nothing sets that flag.
- WorkRequests.Requests.ClearWriteback: the same.
- WorkRequests.Requests.ClearFetching: for requests that are not chained.
- ResidentBlock.Block.UnmapPtes: the subblocks are values in a sequence, so aliasing between local pages is not modelled there; the circular list of one subblock is in MapperList.
- ElasticBlock.BlockSet.StretchRep: descriptors are positions of a sequence, not heap objects.
