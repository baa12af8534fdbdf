# Apollo: a verified model of the memory pool, the reactor and the RPC frame

This project models the parts of Apollo that keep state under concurrency or in linked
structures, and proves what they promise.

- **Memory pool.** `PageCache` (page spans, 128 buckets, best fit, coalescing, a page map in a
  three-level radix tree), `CentralCache` (carving, use counts), `ThreadCache`, the size-class
  arithmetic, and the whole pool as a machine whose steps are the critical sections, so that
  its runs are all interleavings of any number of threads.
- **Timers.** The two indexes of `TimerQueue`, re-entrant add and cancel from callbacks,
  deferred cancellation, the one-shot descriptor.
- **Event loop.** The task queue and the eventfd wakeup, for one loop thread and any number of
  producers.
- **Output path of a TCP connection** over `Buffer`.
- **Pollers.** `PollPoller` and `EPollPoller` against one registry of channels.
- **RPC frame and header codec.** Wire format as in the Protocol Buffers Encoding
  specification, sections "Base 128 Varints", "Message Structure" and "Length-Delimited
  Records", and compared in `WireFormat` with a decoder that knows of no header.

Most components come in two forms: functions on values, with the theorems about every step and
every run, and objects with the source's fields, loops and in-place updates, whose methods are
proved to do to `View()` what the function, or a run of the machine, does. In the memory pool the
objects are proved piecewise: `PageCache` against `PageModel`, one bucket of `CentralCache` against
its own value (`CentralCaching.Bucket`), which `CentralSteps` shows to be the bucket of the pool
machine, and `ThreadCache` against sequences, with the blocks it is granted as an input, which
`ThreadSteps` shows to be the lists of its thread in the pool. Objects
whose addresses the code reuses (spans, timers) are records in an explicit store keyed by address,
because stale addresses are part of what has to be proved harmless.

The pool is one machine seen from four sides: `MemoryPool`, `PoolTheorems` and `PoolSpans` have its
sections and invariant, `PoolLocks` and `PoolCalls` the lock and unlock statements around them and
what whole calls come to, `MapWrites`, `PageWrites` and `PageReading` the single writes to the page map inside them and its readers, and `PoolLinks` and
`PoolMemory` the words of memory, written by the pool, by threads that carve a span or split a
fetched chain with no lock held, and by users.

## What the proofs found

Where code and comments or intentions disagree, the model follows the code.

- `FreeList::push` and `pop` do not count and nothing raises `maxSize_`, so a thread cache never
  returns a block to `CentralCache` (`ThreadCaching.ThreadCache.Deallocate`). The pool machine
  still lets any list be returned at any time, so the return path is covered.
- The carving loop tests only the start of a block. Blocks of a span overlap the next span's
  blocks exactly when the class size does not divide the span and the very next page carries
  blocks (`PoolOverlap.SpanOverlapsIff`). Whoever has such a block may write all of it exactly as
  long as no link word in use is in that overrun: of a free list, of a span that another thread is
  carving, or of a chain just fetched (`PoolMemory.WholeBlockIsSafeIff`). A single thread reaches
  two overlapping live blocks with six allocations (`OverlapWitness.OverlapIsReachable`), and a
  write inside a live block that breaks a list (`CarveWitness.InsideWriteCanBreak`); blocks of 528
  bytes overrun by 144 (`PoolOverlap.SomeClassOverruns`).
- A request for 0 bytes has no bucket: its index wraps around (`SizeClasses.BucketExistsIffNonzero`).
- Adjacent free spans may together fit into 128 pages. A release never brings that about; an
  allocation does exactly when it cuts a span whose rest fits together with the free span behind
  it (`Coalescing.StepCoalescesIff`), and six operations get there
  (`Coalescing.UncoalescedIsReachable`).
- Releasing a span of over 128 pages calls brk, which hands back every page above it as well, and
  leaves its entry in the page map. No state survives that with the page-heap invariant; all but
  the one entry survives exactly when no span lies behind (`LargeRelease.EntryStays`,
  `LargeRelease.RestSurvivesIff`). Once the span object is reused, releasing the span in front can
  turn pages in use into free ones (`LargeRelease.PagesInUseBecomeFree`). The pool machine
  therefore has no such release.
- concurrentFree asserts that the calling thread has a cache. A thread that never allocated a small
  block cannot give one back that it was handed (`PoolTheorems.BlockCanBeFreedIff`).
- Cancelling a timer whose insertion is still queued has no effect; in every other case
  it takes effect (`TimerModel.CancelDoomsIff`, `TimerModel.CancelledTimerRuns`).
- The timer descriptor is never set less than 100 microseconds ahead: it fires in time exactly for
  a timer due at least that long after the arming, and otherwise 100 microseconds after it
  (`TimerModel.EveryRunIsTimely`). `Timestamp::now` is an input of the model.
- The first `loop()` starts without a lost wakeup exactly when its own thread has queued no task
  before, or another thread has made a call (`LoopModel.StartIsAwakeIff`). A `quit()` can be forgotten
  exactly when it is made outside `loop()` (`LoopModel.QuitIsForgottenIff`).
- `shutdownInLoop` looks only at the write interest. When `handleClose` came first and found
  unsent data, the half-close happens with data unsent (`TcpModel.ShutdownDrainsIff`).
- `PollPoller::removeChannel` leaves the channel's `status_`, so a removed channel object can
  never be registered again; with `EPollPoller` it can (`PollerModel.RemovedChannelCannotReturn`).
- `RpcProvider::onMessage` takes whatever has arrived for one whole frame: bytes after the first
  frame are dropped, and an incomplete frame is misread
  (`RpcFrame.FollowingBytesAreDropped`, `RpcFrame.PrefixUnpacksIff`).
- `4 + headerSize` is 32-bit arithmetic and wraps, so that even four bytes can lead to a call
  (`RpcFrame.IncompleteHeaderCallsIff`, `RpcFrame.BogusCall`).

## Model

Line numbers are those of the source files. "Every run" means any finite sequence of enabled
steps with any inputs.

| member | source | states |
|---|---|---|
| SizeClasses.ClassOfIndex | apollo/include/mempool/utilis.h:103-133 | each of the 208 buckets has its own class size, which is a fixed point of rounding and maps back to the bucket |
| SizeClasses.RoundUpIsClassOfIndex | apollo/include/mempool/utilis.h:73-133 | bucket and rounding agree for every size 1..256 KB, although they are computed by different formulas |
| SizeClasses.RoundUpIsLeastClass | apollo/include/mempool/utilis.h:73-100 | rounding gives the least class that is large enough, a multiple of 8, in the same bucket |
| SizeClasses.WasteIsBounded | apollo/include/mempool/utilis.h:73-100 | up to 256 KB rounding wastes at most 7 bytes, or less than an eighth of what is asked for |
| SizeClasses.RoundUpIsLeastPages | apollo/include/mempool/utilis.h:98-98 | over 256 KB rounding gives the least number of whole 4 KB pages that hold the request |
| SizeClasses.RoundsToNoPageIff | apollo/include/mempool/utilis.h:73-100 | the sum wraps around, and the request is for no page, exactly in the last 4095 sizes |
| SizeClasses.IndexSeparatesClasses | apollo/include/mempool/utilis.h:73-133 | two sizes share a bucket iff they round to the same class |
| SizeClasses.BucketExistsIffNonzero | apollo/include/mempool/utilis.h:103-111 | a size has a bucket iff it is not 0; for 0 the index wraps around |
| SizeClasses.NumMoveSizeIsLargest | apollo/include/mempool/utilis.h:136-148 | numMoveSize is the largest number of blocks that 256 KB hold, kept between 2 and 512 |
| SizeClasses.NumMovePageFills | apollo/include/mempool/utilis.h:151-163 | numMovePage is the number of whole pages those blocks fill, at least one |
| SizeClasses.NumMovePageInRange | apollo/include/mempool/utilis.h:136-163 | every class asks for 1..128 pages, room for a block at least; up to 512 bytes the pages are filled exactly by 512 blocks |
| PageModel.GrantKeeps | apollo/mempool/pagecache.cc:5-76 | newSpan with its caller's marking keeps the page-heap invariant for every page count, through the split, the system request and the recursion |
| PageModel.GrantIsGranted | apollo/mempool/pagecache.cc:24-76 | exactly n pages, cut from a smallest free span of at least n, or from the system only when there is none, and only then need it supply any; record, pages and map entries of every other span in use stay |
| PageModel.NeighbourLookup | apollo/mempool/pagecache.cc:103-112 | next to a span the page map is never stale: it names the owner of the page, and it has every page that was obtained except those behind the first one of a used span of over 128 |
| PageModel.BackTestIsExact | apollo/mempool/pagecache.cc:103-122 | the backward loop goes on iff the preceding page belongs to a free span and both fit into 128 pages |
| PageModel.ForwardTestIsExact | apollo/mempool/pagecache.cc:134-143 | the same for the forward loop |
| PageModel.MergeBackKeeps | apollo/mempool/pagecache.cc:101-129 | the backward loop ends, keeps the weakened invariant, absorbs only free spans, and stops only when blocked |
| PageModel.MergeForwardKeeps | apollo/mempool/pagecache.cc:132-152 | the same for the forward loop, which moreover never unblocks the backward side |
| PageModel.RevertKeeps | apollo/mempool/pagecache.cc:89-164 | a release restores the invariant; the free span covers exactly the released and the absorbed pages, is maximal on both sides, and no other span in use is touched |
| PageModel.StepKeeps | apollo/mempool/pagecache.cc:5-164 | every allocation and release keeps the invariant |
| PageModel.EveryRun | apollo/mempool/pagecache.cc:5-164 | after every run the spans partition the pages obtained, free spans are in the bucket of their size, ends of free spans and all pages of used spans are mapped, other pages are null |
| Coalescing.GrantCuts | apollo/mempool/pagecache.cc:24-76 | an allocation of up to 128 pages takes the head of the first span of the first bucket that fits, or of a fresh batch, and the rest keeps that span's object |
| Coalescing.GrantCoalescesIff | apollo/mempool/pagecache.cc:24-76 | with no two adjacent free spans that fit into 128 pages, an allocation keeps it so iff it does not cut a span whose rest fits together with the free span right behind it |
| Coalescing.RevertCoalesces | apollo/mempool/pagecache.cc:99-163 | a release always keeps it so |
| Coalescing.RevertPrefersFront | apollo/mempool/pagecache.cc:99-152 | between its two neighbours a release prefers the one in front: the free span begins where what is free before it no longer fits together with the pages of the released span and those already joined, whatever is free behind |
| Coalescing.StepCoalescesIff | apollo/mempool/pagecache.cc:5-164 | both, for every operation |
| Coalescing.UncoalescedIsReachable | apollo/mempool/pagecache.cc:5-164 | a run of six operations that leaves two adjacent free spans of 28 pages |
| LargeRelease.EntryStays | apollo/mempool/pagecache.cc:91-97 | the release of a span of over 128 pages leaves a map entry for a page it has handed back, so the invariant is lost from every state |
| LargeRelease.RestSurvivesIff | apollo/mempool/pagecache.cc:91-97 | apart from that entry the invariant survives iff no span lies behind the released one, as brk takes every page above |
| LargeRelease.CallIsStep | apollo/mempool/pagecache.cc:89-164 | as long as the invariant holds, the calls that include this release are the operations of PageModel |
| LargeRelease.PagesInUseBecomeFree | apollo/mempool/pagecache.cc:91-152 | a run in which a later release follows the entry left behind to another span and takes pages in use into a free span |
| SpanListing.PushFrontRing | apollo/include/mempool/utilis.h:380-391 | linking after the head makes the ring of the list with the new span in front |
| SpanListing.EraseRing | apollo/include/mempool/utilis.h:396-405 | unlinking makes the ring of the list without that span |
| SpanListing.SpanLists.PushFront | apollo/include/mempool/utilis.h:380-411 | on the shared next_/prev_ fields, bucket i becomes [span] + list and every other ring stays a ring of its list |
| SpanListing.SpanLists.Erase | apollo/include/mempool/utilis.h:396-405 | the span leaves its ring, all rings stay well formed |
| SpanListing.SpanLists.PopFront | apollo/include/mempool/utilis.h:413-418 | returns and unlinks the first span of a non-empty ring |
| RadixTrees.SlotsAreInjective | apollo/include/mempool/radixtree.h:73-75 | below 2^BITS the three indexes determine the key |
| RadixTrees.RadixTree.Get | apollo/include/mempool/radixtree.h:54-68 | get is lookup in a map, null outside it and beyond the range |
| RadixTrees.RadixTree.Ensure | apollo/include/mempool/radixtree.h:88-122 | ensure adds only empty nodes: the map stays the same |
| RadixTrees.RadixTree.Set | apollo/include/mempool/radixtree.h:70-82 | set updates the map at one key and nowhere else |
| PageCaching.PageCache.NewSpan | apollo/mempool/pagecache.cc:5-76 | the object with its linked buckets and radix tree does what the value function does, including the recursive call, and writes the page map page by page in the order listed by MapWrites |
| PageCaching.PageCache.Allocate | apollo/mempool/centralcache.cc:88-95 | newSpan and the marking under one lock keep the invariant and refine the value function |
| PageCaching.PageCache.MapToSpan | apollo/mempool/pagecache.cc:79-87 | the lookup returns the page's entry at whatever moment it reads, and between sections, for a page in use, that is its owner |
| PageCaching.PageCache.MergeDown | apollo/mempool/pagecache.cc:101-129 | the loop refines the recursive merge |
| PageCaching.PageCache.MergeUp | apollo/mempool/pagecache.cc:132-152 | the loop refines the recursive merge |
| PageCaching.PageCache.Revert | apollo/mempool/pagecache.cc:89-164 | the whole release refines the value function, keeps the object valid, and writes the page map only at the two ends, in order |
| Blocks.ChainFrame | apollo/include/mempool/utilis.h:64-67 | a write outside the blocks of a list leaves the list alone |
| Blocks.ChainIsUnique | apollo/include/mempool/utilis.h:64-67 | memory determines the list that starts at an address |
| Blocks.Relink | apollo/include/mempool/utilis.h:225-234 | ending one chain at a block and splicing another behind it gives both chains as expected |
| Blocks.CarvedAt | apollo/mempool/centralcache.cc:99-118 | carving visits base + i * size for 0 <= i < ceil(bytes / size), each once |
| Blocks.LinkWordsFit | apollo/mempool/centralcache.cc:106-118 | every link word written while carving is inside the span |
| Blocks.BlocksAreSpaced | apollo/mempool/centralcache.cc:111-116 | blocks of a span are at least the block size apart |
| Blocks.BlocksFitIffDivides | apollo/mempool/centralcache.cc:101-118 | all blocks lie inside the span iff the size divides its length |
| FreeLists.Memory.Carve | apollo/mempool/centralcache.cc:99-118 | the loop threads one null-terminated list through exactly the block starts, in address order, writing nowhere else |
| FreeLists.Memory.FetchRange | apollo/mempool/centralcache.cc:17-29 | the loop detaches the first min(cnt, length) blocks as a chain of their own and leaves the rest a chain; cnt 0 wraps around and takes all |
| FreeLists.FreeList.Push | apollo/include/mempool/utilis.h:200-206 | push prepends to the list and leaves size_ alone |
| FreeLists.FreeList.Pop | apollo/include/mempool/utilis.h:209-216 | pop removes the head and leaves size_ alone |
| FreeLists.FreeList.PushRange | apollo/include/mempool/utilis.h:225-234 | a disjoint chain is spliced in front |
| FreeLists.FreeList.Clear | apollo/include/mempool/utilis.h:258-264 | the whole chain is handed over and the list is empty |
| CentralCaching.CanReleaseIff | apollo/mempool/centralcache.cc:35-70 | a chain can be released step by step iff no listed span gets back more blocks than it has outstanding |
| CentralCaching.ReleaseCounts | apollo/mempool/centralcache.cc:41-68 | a released chain takes its share off each span's use count; the span goes to PageCache iff that share is all that was outstanding |
| CentralCaching.CentralBucket.FindSpan | apollo/mempool/centralcache.cc:74-83 | the search stops at the first span with a free block, if there is one |
| CentralCaching.CentralBucket.AddSpan | apollo/mempool/centralcache.cc:99-125 | a granted span is cut, listed first, with all blocks free, and no other free list is disturbed |
| CentralCaching.CentralBucket.FetchRangeObj | apollo/mempool/centralcache.cc:5-33 | the blocks handed out become a chain outside every free list and are added to the use count |
| CentralCaching.CentralBucket.ReleaseList | apollo/mempool/centralcache.cc:35-70 | the loop, whose chain may mix spans, refines the block-by-block release and keeps all free lists threaded and disjoint |
| ThreadCaching.ThreadCache.Allocate | apollo/mempool/threadcache.cc:5-20 | the head of the bucket's list, or the first of the granted blocks with the rest cached; size_ stays 0 and maxSize_ 1 |
| ThreadCaching.ThreadCache.FetchFromCentralCache | apollo/mempool/threadcache.cc:37-62 | one granted block is returned, the others become the list |
| ThreadCaching.ThreadCache.Deallocate | apollo/mempool/threadcache.cc:22-35 | the block goes on the list of its class; with the fields as the code keeps them nothing is ever returned to CentralCache |
| ThreadSteps.CachedIsAllocate | apollo/mempool/threadcache.cc:5-15 | an allocation from the cache does to the lists of its thread in the pool what ThreadCache.Allocate does |
| ThreadSteps.ListedIsAllocate | apollo/mempool/threadcache.cc:16-62 | so does one from a listed span, with the blocks fetched from it granted |
| ThreadSteps.SpanIsAllocate | apollo/mempool/threadcache.cc:16-62 | so does one from a span that PageCache had to supply, whatever other threads do between its two sections |
| ThreadSteps.FreeIsDeallocate | apollo/mempool/threadcache.cc:22-28 | freeing a small block is Deallocate without a return |
| ThreadSteps.FreeAndReturnIsDeallocate | apollo/mempool/threadcache.cc:22-35 | freeing one and then returning its list is Deallocate with a return: the whole list goes, in order, the block freed first |
| ThreadSteps.OtherStepsKeepLists | apollo/mempool/centralcache.cc:35-127 | every other step of its thread, and every step of another one, leaves the lists of a thread alone |
| MemoryPool.LookupFindsSpan | apollo/mempool/pagecache.cc:79-87 | whenever the invariant holds the page map sends each block to the span it was cut from, which is in use |
| MemoryPool.PopCacheKeeps | apollo/mempool/threadcache.cc:12-15 | taking blocks off a cache list keeps the pool invariant |
| MemoryPool.PushCacheKeeps | apollo/mempool/threadcache.cc:27-28 | putting blocks of a class on its cache list keeps it |
| MemoryPool.TakeSpanKeeps | apollo/mempool/centralcache.cc:17-32 | moving blocks from a span's list to a thread, with the use count, keeps it |
| MemoryPool.DetachKeeps | apollo/mempool/threadcache.cc:64-71 | a whole cache list becoming a chain in transit keeps it |
| MemoryPool.GiveBackKeeps | apollo/mempool/centralcache.cc:43-49 | one block of a chain returning to its span keeps it |
| MemoryPool.RetireKeeps | apollo/mempool/centralcache.cc:51-59 | a span with no outstanding block leaving its bucket, with the bucket lock dropped, keeps it |
| MemoryPool.ObtainKeeps | apollo/mempool/centralcache.cc:85-95 | a span granted while no bucket lock is held is private to its thread |
| MemoryPool.EnlistKeeps | apollo/mempool/centralcache.cc:99-125 | carving and listing the private span keeps it |
| MemoryPool.ObtainBigKeeps | apollo/include/mempool/concurrentalloc.h:20-41 | an allocation over 256 KB that rounds to at least one page, as newSpan asserts, keeps it |
| MemoryPool.RevertSpanKeeps | apollo/mempool/centralcache.cc:60-64 | the page-lock section of a release keeps it |
| MemoryPool.FreeBigKeeps | apollo/include/mempool/concurrentalloc.h:65-72 | freeing a large block of at most 128 pages keeps it |
| MemoryPool.StepKeeps | apollo/mempool/centralcache.cc:5-127 | every critical section of every thread keeps the invariant that ties spans, buckets, page map, free lists, caches, chains, live blocks and use counts together |
| MemoryPool.EveryInterleaving | apollo/include/mempool/concurrentalloc.h:18-79 | it holds after every interleaving of any threads |
| PoolTheorems.BlocksArePartitioned | apollo/mempool/centralcache.cc:5-127 | every block of a carved span is in exactly one of: its span's list, one list of one thread, one chain in transit, a user's hands |
| PoolTheorems.UseCountIsOutstanding | apollo/mempool/centralcache.cc:30-49 | useCnt_ is the number of blocks not on the span's own list |
| PoolTheorems.SpanReturnsWithLastBlock | apollo/mempool/centralcache.cc:49-67 | a span starts its way to PageCache iff the block given back was its last outstanding one |
| PoolTheorems.AllocationHandsOutFreshBlock | apollo/include/mempool/concurrentalloc.h:18-56 | every allocation hands out a block nobody holds, of a span in use whose block size is the rounded request, and no other block changes hands |
| PoolTheorems.LargeSpanIsLeast | apollo/include/mempool/concurrentalloc.h:20-41 | a large allocation is given the first address of a span in use with the fewest pages that hold it |
| PoolTheorems.SpanServesRequest | apollo/mempool/centralcache.cc:72-127 | an allocation that needs a new span gets its block from one of its rounded size, whatever other threads do between its two sections |
| PoolTheorems.FreeTakesBack | apollo/include/mempool/concurrentalloc.h:58-79 | a free ends the life of exactly that block |
| PoolTheorems.OtherStepsKeepLive | apollo/mempool/centralcache.cc:35-127 | all other steps leave every user's block with its user |
| PoolOverlap.BlocksStayInsideIffTiles | apollo/mempool/centralcache.cc:101-118 | a listed span's blocks lie inside it iff its class size divides its length |
| PoolOverlap.OverrunIsShort | apollo/include/mempool/utilis.h:151-163 | for every class the last block reaches less than a page past its span |
| PoolOverlap.PairOverlapsIff | apollo/mempool/centralcache.cc:99-118 | a block and a later block of another span overlap iff its span does not tile, it is the last block, and the other starts before its end |
| PoolOverlap.SpanOverlapsIff | apollo/mempool/centralcache.cc:99-118 | blocks of a span overlap another span's iff its class does not tile and the very next page carries blocks |
| PoolOverlap.SomeClassOverruns | apollo/include/mempool/utilis.h:136-163 | 528 bytes is a class whose last block reaches exactly 144 bytes past the span |
| PoolOverlap.CoversLinksIff | apollo/include/mempool/utilis.h:64-67 | a block's bytes meet another block's link word iff that block starts behind the span and before the block's end |
| PoolOverlap.UserWritesKeepLists | apollo/include/mempool/utilis.h:64-67 | a write inside a live block breaks no list that has no block in its overrun |
| PoolOverlap.WritesAreHarmlessIff | apollo/include/mempool/utilis.h:64-67 | all writes inside a live block keep a list intact iff no block of the list starts in its overrun |
| OverlapWitness.OverlapIsReachable | apollo/mempool/centralcache.cc:99-118 | a run from the empty pool after which two live blocks of different spans overlap |
| CarveWitness.InsideWriteCanBreak | apollo/mempool/centralcache.cc:99-118 | a run of one thread after which a write inside a live block breaks the part of the next span that is carved |
| PoolTheorems.BlockCanBeFreedIff | apollo/include/mempool/concurrentalloc.h:58-79 | a thread can give back a small live block iff it has a cache and is not inside another call, and a large one iff its span has at most 128 pages |
| PoolSpans.KeptStays | apollo/mempool/centralcache.cc:58-120 | a large span keeps role and record until it is freed, a span being carved until its thread lists it, an emptied one until its thread releases it, whatever other threads do |
| PoolTheorems.EveryReachableState | apollo/include/mempool/concurrentalloc.h:18-79 | from the empty pool, in every interleaving: live blocks find their span, use counts count outstanding blocks |
| MapWrites.GrantIsWritten | apollo/mempool/pagecache.cc:5-76 | the listed single-page writes of newSpan, one after the other, make the page map of the whole section |
| MapWrites.RevertIsWritten | apollo/mempool/pagecache.cc:99-159 | the merge loops write nothing and the two end writes make the page map of the whole release |
| PageWrites.SectionIsWritten | apollo/mempool/centralcache.cc:60-95 | the same for every step of the pool |
| PageReading.SameRelease | apollo/mempool/pagecache.cc:99-159 | the merge loops and the writes of a release do not depend on use counts, which other threads change meanwhile |
| PageReading.SectionStays | apollo/mempool/centralcache.cc:58-95 | a step of another thread that takes no page lock leaves a page section possible, with the same writes in the same order |
| PageReading.LookupAtAnyMoment | apollo/mempool/pagecache.cc:79-87 | after any number of the writes of any page section, and any steps of other threads since it began, the map read without the lock sends each block, also one listed meanwhile, to its span; only the large block that the section frees is excepted |
| PoolLocks.DoKeeps | apollo/mempool/centralcache.cc:5-127 | every lock, unlock and section keeps: each mutex is owned by the thread inside its section, each thread's pool state fits its place in the code |
| PoolLocks.NobodyHoldsAndWaits | apollo/mempool/centralcache.cc:58-120 | in every run from the empty pool a thread waiting for a lock holds none, and the holder of a lock is not waiting |
| PoolLocks.SectionReady | apollo/mempool/centralcache.cc:8-127 | a thread that holds its lock can always do its section, though others ran between its sections |
| PoolLocks.NoDeadlock | apollo/mempool/centralcache.cc:8-127 | in every such run a thread inside the allocator can move, or waits for a lock whose holder can |
| PoolCalls.EveryRequestStarts | apollo/include/mempool/concurrentalloc.h:18-56 | a thread outside the allocator can ask for every size from 1 byte on: a small one is served from its list exactly if that has a block and goes to CentralCache otherwise, a large one is refused only in the last 4095 sizes |
| PoolCalls.EveryFreeStarts | apollo/include/mempool/concurrentalloc.h:58-79 | it can give back a small live block iff it has a cache, and a large one iff that has at most 128 pages and nobody else is giving it back |
| PoolCalls.StepDoesItsErrand | apollo/mempool/centralcache.cc:5-127 | what a thread does in a step of its call is exactly what is thereby no longer to be done for that call, and no step of another thread changes what is |
| PoolCalls.EveryCallIsCarriedOut | apollo/include/mempool/concurrentalloc.h:18-79 | in every interleaving, when a call is over, an allocation has handed out exactly one block, of its rounded size or, for a large one, of its size; a released list has given back each of its blocks once, in order; a large block has been released once |
| PoolCalls.CallsAreBounded | apollo/mempool/centralcache.cc:5-127 | a call takes at most 9 steps of its own thread for a fetch, 3 for a large block, 6 for each block of a list and 3 more, however often other threads come between |
| PoolCalls.PagesUnderLock | apollo/mempool/centralcache.cc:58-95 | spans, buckets and page map of PageCache change only under the page lock, apart from use counts |
| PoolCalls.BucketUnderLock | apollo/mempool/centralcache.cc:8-33 | the spans listed in a bucket, their free lists and their use counts change only under the lock of that bucket |
| PoolCalls.OthersLeaveAlone | apollo/mempool/threadcache.cc:5-71 | a step of one thread leaves every other thread where it is in the code, with its cache |
| PoolLinks.PrivateApart | apollo/mempool/centralcache.cc:85-118 | the blocks of a span being carved are apart from all blocks on record and from every other span being carved |
| PoolLinks.TakeChains | apollo/mempool/centralcache.cc:17-29 | ending the part that is taken leaves the rest a chain, the blocks behind the first one a chain, and the first one linked to them |
| PoolLinks.EnlistThreads | apollo/mempool/centralcache.cc:120-125 | a span listed after its last word is carved has all its blocks on one null-terminated list |
| PoolLinks.StepLists | apollo/mempool/centralcache.cc:17-67 | every step, with the link words it writes, leaves every span list, cache list and chain in transit a null-terminated chain in one memory, provided the list it fetches for is empty and the span it lists is carved |
| PoolMemory.StepThreads | apollo/mempool/centralcache.cc:17-127 | in the machine that provision always holds, and every carving and every fetched chain of another thread stays where it was |
| PoolMemory.CarveKeeps | apollo/mempool/centralcache.cc:106-118 | each word that a thread writes while carving, with no lock held, leaves all lists and all other carvings as they are and makes its own one block longer |
| PoolMemory.PushRangeKeeps | apollo/mempool/threadcache.cc:49-61 | splitting a fetched chain, with no lock held, finds in the first block's link word the head of the list that goes to the cache, and changes no list |
| PoolMemory.CoversCarvingIff | apollo/mempool/centralcache.cc:99-118 | a live block's bytes meet a link word of a span being carved iff that block starts in the live block's overrun |
| PoolMemory.WriteSparesLinks | apollo/include/mempool/utilis.h:64-67 | a write inside a block its user has, which spares the link words in its overrun, overlaps no link word in use anywhere |
| PoolMemory.ActionKeeps | apollo/include/mempool/utilis.h:64-67 | so every step, every carved word, every split and every such write keeps all lists, carvings and fetched chains |
| PoolMemory.EveryRunIsThreaded | apollo/include/mempool/concurrentalloc.h:18-79 | from the empty pool and any memory, through every interleaving of sections, carving, splitting and user writes, each list is intact in memory, each span being carved is linked as far as its thread has got, and each fetched chain leads to its list |
| PoolMemory.ListedIsHanded | apollo/mempool/threadcache.cc:46-61 | a fetch from a listed span leaves a chain to split iff it took more than one block, with the block for the caller in front |
| PoolMemory.CarvedIsHanded | apollo/mempool/threadcache.cc:46-61 | the same for a fetch from a span just carved |
| PoolMemory.CarvingGoesOn | apollo/mempool/centralcache.cc:106-125 | a thread that carves can always write its next link word, which brings it one block further, until it can list the span |
| PoolMemory.SplittingGoesOn | apollo/mempool/threadcache.cc:58-61 | a thread that has fetched a chain can always split it |
| PoolMemory.WholeBlockIsSafeIff | apollo/include/mempool/utilis.h:64-67 | whoever has a block may write all of it iff no link word in use, of a list, a carving or a fetched chain, is in the block's overrun |
| CentralSteps.ReturnBlockIsTakeBack | apollo/mempool/centralcache.cc:41-59 | one round of releaseList in the pool is that of the bucket |
| CentralSteps.ListedIsFetch | apollo/mempool/centralcache.cc:5-33 | fetching in the pool does to the bucket what FindSpan and FetchRangeObj do |
| CentralSteps.EnlistIsAddSpan | apollo/mempool/centralcache.cc:99-125 | listing a carved span in the pool does to the bucket what AddSpan does |
| TimerModel.InsertFacts | apollo/net/timerqueue.cc:213-228 | insertion keeps the order and adds exactly the entry |
| TimerModel.EraseFacts | apollo/net/timerqueue.cc:134-134 | erasing keeps the order and removes exactly the entry |
| TimerModel.ExpiredFacts | apollo/net/timerqueue.cc:162-173 | getExpired splits at now: exactly the timers due, in ascending order |
| TimerModel.NextKeeps | apollo/net/timerqueue.cc:112-228 | every step, also inside callbacks, keeps the two indexes over the same timers under their current expirations and every timer in exactly one place |
| TimerModel.EveryRun | apollo/net/timerqueue.cc:112-228 | the same after every run |
| TimerModel.CancelDoomsIff | apollo/net/timerqueue.cc:118-141 | cancelling takes effect iff the timer's insertion is not still queued |
| TimerModel.CancelledTimerRuns | apollo/net/timerqueue.cc:112-141 | a run in which a timer cancelled too early runs |
| TimerModel.CancelIndexedIsGone | apollo/net/timerqueue.cc:132-136 | a cancelled indexed timer is deleted at once |
| TimerModel.StaleIdIsHarmless | apollo/net/timerqueue.cc:129-141 | an id whose timer is gone affects no timer, even if the address was reused |
| TimerModel.GoneForGood | apollo/net/timerqueue.cc:112-228 | a timer once gone never runs and never returns in any run |
| TimerModel.DoomedForGood | apollo/net/timerqueue.cc:143-199 | a timer cancelled during callbacks, by itself or by a sibling, is in no index from then on and gone when the callbacks end |
| TimerModel.EndRestartsIff | apollo/net/timerqueue.cc:184-199 | after reset every timer of the batch that repeats and was not cancelled is in the heap and in both indexes, under its old number and for one interval after now; every other timer of the batch is gone; no other timer is touched |
| TimerModel.TimerFate | apollo/net/timerqueue.cc:112-228 | for every step and every timer: it goes iff it is cancelled while indexed or was due and does not restart, its expiration changes iff it restarts, and it enters and leaves the indexes as the step says |
| TimerModel.OnlyNewTimers | apollo/net/timerqueue.cc:112-120 | timers come only from addTimer, with the values given and the next number |
| TimerModel.RepeatingTimerStays | apollo/net/timerqueue.cc:143-211 | in every run a repeating timer lives on with its number and interval until somebody cancels it |
| TimerModel.EndIsTimely | apollo/net/timerqueue.cc:184-211 | reset arms the descriptor for the earliest timer left |
| TimerModel.FdFate | apollo/net/timerqueue.cc:39-76 | the descriptor is set for the earliest timer, at least 100 microseconds ahead, exactly when an addition becomes the earliest and whenever callbacks are over with timers left; otherwise only its firing and its reading change it |
| TimerModel.EveryRunIsTimely | apollo/net/timerqueue.cc:39-49 | from a new queue, between events, while timers exist, the descriptor has fired or is armed; it fires in time iff the earliest timer is due at least 100 microseconds after the arming, and otherwise 100 microseconds after it |
| TimerQueues.TimerQueue.Insert | apollo/net/timerqueue.cc:213-228 | both indexes get the timer; tells whether the earliest expiration changed |
| TimerQueues.TimerQueue.AddTimerInLoop | apollo/net/timerqueue.cc:122-127 | refines the model's step |
| TimerQueues.TimerQueue.CancelInLoop | apollo/net/timerqueue.cc:129-141 | refines the model's step |
| TimerQueues.TimerQueue.GetExpired | apollo/net/timerqueue.cc:162-182 | the prefix due is removed from both indexes |
| TimerQueues.TimerQueue.Reset | apollo/net/timerqueue.cc:184-211 | the loop refines the restart or deletion of the whole batch and the setting of the descriptor; which timers restart, and for when, is TimerModel.EndRestartsIff |
| TimerQueues.TimerQueue.HandleRead | apollo/net/timerqueue.cc:143-160 | for callbacks that add and cancel anything: the call is a run of the machine in which each timer due runs once, in order, and makes exactly its calls; afterwards those that repeat and that no call cancelled are indexed for one interval later, and the others that were due are gone |
| LoopModel.NextKeeps | apollo/net/eventloop.cc:58-191 | every section of the loop thread and of every other thread keeps the no-lost-wakeup and order invariant |
| LoopModel.MayStartIff | apollo/net/eventloop.cc:110-126 | after any stretch outside loop() it may be entered without a lost wakeup iff another thread made a call in it, a wakeup was there or owed, or nothing was queued and the loop's own thread queued nothing |
| LoopModel.StartIsAwakeIff | apollo/net/eventloop.cc:58-65 | the first loop() starts without a lost wakeup iff its own thread queued no task before or another thread made a call |
| LoopModel.InsidePushesStartWell | apollo/net/eventloop.cc:110-126 | every start of a run is without one if the loop's own thread queues only inside loop() |
| LoopModel.OwnTaskBeforeLoopIsLost | apollo/net/eventloop.cc:110-126 | a run in which it is not |
| LoopModel.QuitStays | apollo/net/eventloop.cc:58-98 | quit_ once set stays set, and poll is not entered again, in every run without a new loop() |
| LoopModel.QuitIsForgottenIff | apollo/net/eventloop.cc:58-98 | some run goes on to poll after a quit() iff it was made outside loop() |
| LoopModel.WakeupLeadsOut | apollo/net/eventloop.cc:65-88 | from a readable eventfd with quit_ set the loop thread alone runs all that is queued and leaves |
| LoopModel.EveryInterleaving | apollo/net/eventloop.cc:58-191 | in every interleaving, at poll with tasks queued or quit_ set the eventfd is readable or another thread owes its write; executed tasks are a prefix of the tasks that anybody queued, in that order, and outside the functors what is not executed is in the queue |
| LoopModel.EveryPushIsTakenOn | apollo/net/eventloop.cc:110-126 | every task queued by any thread is taken on, in order |
| LoopModel.CounterCountsWakes | apollo/net/eventloop.cc:146-152 | as long as nobody reads it the eventfd counts the writes, up to its limit |
| LoopModel.QueuedTasksRunByTheNextTurn | apollo/net/eventloop.cc:174-191 | whatever is queued has run by the end of the turn, or of the next if the swap was over |
| LoopModel.WakeupRunsEverything | apollo/net/eventloop.cc:65-84 | from a readable eventfd the loop thread alone gets to run all that is queued |
| EventLoops.EventLoop.QueueInLoop | apollo/net/eventloop.cc:110-126 | the task goes last; the eventfd is written iff the caller is another thread or functors are running |
| EventLoops.EventLoop.Quit | apollo/net/eventloop.cc:90-98 | quit_ is set; another thread also writes the eventfd |
| EventLoops.EventLoop.DoPendingFunctors | apollo/net/eventloop.cc:174-191 | exactly the tasks queued at the swap run, in order, each making exactly its calls before the next one runs; the queue afterwards is what was queued meanwhile, without other threads what the functors queue, in order, and the eventfd is written or a write owed |
| EventLoops.FunctorsDoTheirs | apollo/net/eventloop.cc:186-189 | whatever other threads do meanwhile, each functor is called and queues and quits as it asks, one functor after the other |
| EventLoops.FunctorsQueueTheirs | apollo/net/eventloop.cc:186-189 | without other threads the tasks queued during the functors are those of the functors, concatenated |
| EventLoops.EventLoop.HandleEvents | apollo/net/eventloop.cc:68-80 | after poll the wakeup is read if reported, and the channel callbacks make exactly their calls |
| EventLoops.EventLoop.Interfere | apollo/net/eventloop.cc:90-126 | a section of another thread's queueInLoop or quit, at any point of the loop, is a step of the machine |
| EventLoops.EventLoop.Run | apollo/net/eventloop.cc:58-88 | loop(), with functors and callbacks that queue and quit and other threads' sections between, is exactly the run of the machine that these calls ask for; each round is one turn, and it leaves iff quit_ is set |
| Buffers.Buffer.Retrieve | apollo/net/buffer.cc:6-16 | drops a prefix, or everything |
| Buffers.Buffer.RetrieveAsString | apollo/net/buffer.cc:22-26 | returns the prefix and keeps the rest |
| Buffers.Buffer.MakeSpace | apollo/net/buffer.cc:83-95 | contents stay; iff live and new bytes do not fit the array is replaced by one just large enough behind the writer, otherwise the bytes move strictly downwards to the front |
| Buffers.Buffer.Append | apollo/net/buffer.cc:28-38 | contents grow by the data; the array is replaced iff they do not fit, and then ends with them |
| Buffers.Buffer.ReadFd | apollo/net/buffer.cc:44-67 | the bytes taken from the descriptor, over two regions, are appended in order; short only when both regions are full |
| Buffers.Buffer.Swap | apollo/net/buffer.cc:77-81 | exchanges the contents |
| TcpModel.NextKeeps | apollo/net/tcpconnection.cc:57-235 | every step keeps conservation, write interest and half-close |
| TcpModel.EveryRun | apollo/net/tcpconnection.cc:57-235 | on a new connection, after every run: wire + output buffer is the concatenation of the messages sent, except those sent on a closed connection or whose direct write found the peer gone, and the wire has as many bytes as the kernel said it took; while open, write interest iff the buffer is not empty; shut down while open only with all of that written |
| TcpModel.StepAccepts | apollo/net/tcpconnection.cc:166-222 | a message sent is taken on iff the connection is not closed and not (idle and the write fails with EPIPE or ECONNRESET); the wire grows by what the kernel took |
| TcpModel.RunAccepts | apollo/net/tcpconnection.cc:166-222 | the same over runs |
| TcpModel.StateChangesIff | apollo/net/tcpconnection.cc:139-235 | exactly which step takes a connection from which state to which |
| TcpModel.SecondHalvesAreQueued | apollo/net/tcpconnection.cc:170-201 | shutdown() and forceClose() hand their second half to the loop exactly when the state lets them, once each |
| TcpModel.ShutdownDrainsIff | apollo/net/tcpconnection.cc:224-229 | a half-close leaves data unwritten iff handleClose came before it and found data |
| TcpModel.ShutsIff | apollo/net/tcpconnection.cc:105-229 | the write side is shut down exactly by a shutdownInLoop that finds no write interest and by the write that empties the buffer of a connection on its way down |
| TcpModel.ShutdownMayLoseData | apollo/net/tcpconnection.cc:139-142 | a run in which it does |
| TcpModel.ShutIsFinal | apollo/net/tcpconnection.cc:170-201 | after a drained half-close nothing more is accepted or written |
| TcpModel.FullWriteDelivers | apollo/net/tcpconnection.cc:105-126 | the write that takes all completes delivery, and the half-close if asked for |
| TcpModel.HighWaterIffCrosses | apollo/net/tcpconnection.cc:204-215 | the high-water callback is queued iff the send takes the buffer from below the mark to it or above |
| TcpModel.CompletesIffAllSent | apollo/net/tcpconnection.cc:112-122 | write completion is queued iff a send or write left everything accepted on the wire, having added to it |
| TcpModel.NoticesIff | apollo/net/tcpconnection.cc:105-222 | each step queues one user callback at most, and which one, with which size, exactly |
| TcpConnections.TcpConnection.SendInLoop | apollo/net/tcpconnection.cc:166-222 | over the real buffer, with errno handling, refines the model's step |
| TcpConnections.TcpConnection.HandleWrite | apollo/net/tcpconnection.cc:105-137 | refines the model's step |
| TcpConnections.TcpConnection.ForceCloseInLoop | apollo/net/tcpconnection.cc:231-235 | refines the model's step |
| PollerModel.PollUpdateKeeps | apollo/net/pollpoller.cc:32-57 | slots, channels_ and status_ stay a bijection with the registered masks, and array accesses are in range |
| PollerModel.PollRemoveKeeps | apollo/net/pollpoller.cc:59-76 | the same through swap-remove and the -fd-1 encoding |
| PollerModel.PollWatchesWanted | apollo/net/pollpoller.cc:46-56 | poll is asked exactly for the registered non-empty masks |
| PollerModel.PollUpdateSwitches | apollo/net/pollpoller.cc:37-57 | an update of a registered channel switches its slot off iff the mask is empty; a new channel's slot starts with its descriptor, whatever the mask; other slots stay |
| PollerModel.CallsAreLegal | apollo/net/epollpoller.cc:63-109 | every ADD, MOD and DEL is one the kernel accepts |
| PollerModel.EpollKeeps | apollo/net/epollpoller.cc:63-109 | registration states match the kernel's table and the registry |
| PollerModel.EpollWatchesWanted | apollo/net/epollpoller.cc:121-136 | the kernel watches exactly the registered non-empty masks |
| PollerModel.EpollUpdateSwitches | apollo/net/epollpoller.cc:63-93 | an update leaves the descriptor in the kernel with the new mask, even an empty one, unless it was there before and the mask is empty: then it goes; no other descriptor changes |
| PollerModel.EveryRunAgrees | apollo/net/epollpoller.cc:63-109 | after every run of updates and removals both pollers expose the same descriptors and masks |
| PollerModel.PollRegistersIff | apollo/net/pollpoller.cc:37-45 | registering works iff the channel's status_ is negative |
| PollerModel.RemovedChannelCannotReturn | apollo/net/pollpoller.cc:59-76 | a removed channel object cannot be registered again with poll, and can with epoll |
| Pollers.PollPoller.UpdateChannel | apollo/net/pollpoller.cc:32-57 | refines the model's step |
| Pollers.PollPoller.RemoveChannel | apollo/net/pollpoller.cc:59-76 | refines the model's step |
| Pollers.PollPoller.FillActiveChannels | apollo/net/pollpoller.cc:78-91 | the active channels are those whose slots have events, in slot order; stopping early misses none |
| Pollers.EPollPoller.UpdateChannel | apollo/net/epollpoller.cc:63-93 | refines the model's step; no epoll_ctl is refused |
| Pollers.EPollPoller.RemoveChannel | apollo/net/epollpoller.cc:95-109 | refines the model's step; no epoll_ctl is refused |
| RpcFrame.ParseMerges | apollo/rpc/rpcheader.pb.cc:146-196 | parsing a serialized header, whatever follows, merges it into the fields already read |
| RpcFrame.ParseUndoesSerialize | apollo/rpc/rpcheader.pb.cc:146-228 | parsing undoes serializing for all names and sizes within 32 bits |
| RpcFrame.ConcatenationMerges | apollo/rpc/rpcheader.pb.cc:283-299 | parsing any number of serialized headers put together equals merging them in order |
| RpcFrame.SizeIsSerializedLength | apollo/rpc/rpcheader.pb.cc:230-266 | ByteSizeLong is the serialized length |
| WireFormat.PutVarintIsGroups | apollo/rpc/rpcheader.pb.cc:215-219 | a varint written for n is the shortest sequence of 7-bit groups, lowest first, that sums up to n, with the continuation bit on all bytes but the last |
| WireFormat.VarintIsGroups | apollo/rpc/rpcheader.pb.cc:151-176 | reading a varint takes exactly its bytes and gives the sum of its groups |
| WireFormat.SerializedEntries | apollo/rpc/rpcheader.pb.cc:198-228 | for a decoder that knows no header: the serialized header is the list of fields (1, length-delimited, service), (2, length-delimited, method), (3, varint, args size), in order, without the default-valued ones |
| WireFormat.ParseAssigns | apollo/rpc/rpcheader.pb.cc:146-196 | parsing any bytes that such a decoder splits into fields assigns those fields by number and wire type, the last one of a number winning |
| WireFormat.LittleBytes | apollo/rpc/rpcchannelimpl.cc:54-59 | byte i of the size in front is n / 256^i modulo 256 |
| WireFormat.UnpackAssigns | apollo/rpc/rpcprovider.cc:94-122 | for a message whose header bytes decode into fields: a malformed or unknown field stops it, otherwise the call has the fields' values and the arguments where the 32-bit sum says, or substr throws |
| RpcFrame.PackableIff | apollo/rpc/rpcchannelimpl.cc:31-52 | a call is packed iff neither its arguments nor its serialized header exceed 2 GB |
| RpcFrame.UnpackUndoesPack | apollo/rpc/rpcprovider.cc:94-122 | unpacking a packed frame returns service, method and arguments |
| RpcFrame.FollowingBytesAreDropped | apollo/rpc/rpcprovider.cc:94-122 | bytes behind the frame change nothing and are lost |
| RpcFrame.PartialFrameIsCutShort | apollo/rpc/rpcprovider.cc:122-122 | with arguments missing the call is made with those that are there |
| RpcFrame.PrefixUnpacksIff | apollo/rpc/rpcprovider.cc:94-122 | a prefix of a frame unpacks to the call iff it is the whole frame |
| RpcFrame.IncompleteHeaderCallsIff | apollo/rpc/rpcprovider.cc:97-122 | a header cut short still leads to a call iff 4 + headerSize wraps around and what is there parses |
| RpcFrame.BogusCall | apollo/rpc/rpcprovider.cc:97-122 | four bytes that lead to one |
| RpcCodec.RpcHeader.InternalSerialize | apollo/rpc/rpcheader.pb.cc:198-228 | the moving target ends with the serialized header appended |
| RpcCodec.RpcHeader.ByteSizeLong | apollo/rpc/rpcheader.pb.cc:230-266 | the accumulated total is the serialized length |
| RpcCodec.RpcHeader.MergeFrom | apollo/rpc/rpcheader.pb.cc:283-299 | set fields replace, default ones do not |
| RpcCodec.RpcHeader.InternalParse | apollo/rpc/rpcheader.pb.cc:146-196 | the loop over tags assigns the fields the parse function gives, and fails when it does |
| RpcCodec.RpcChannelImpl.CallMethod | apollo/rpc/rpcchannelimpl.cc:31-59 | packs iff arguments and header are within 2 GB, and then the package is the frame |
| RpcCodec.OnMessage | apollo/rpc/rpcprovider.cc:91-122 | drains the buffer and unpacks all it held as one frame, with substr's exception and 32-bit wrap-around |

## Left out

- PageCaching.PageCache.Revert: requires a span of at most 128 pages, since the invariant holds after no release of a larger one (LargeRelease.EntryStays).
- PageModel.RevertKeeps: likewise.
- MemoryPool.FreeBigKeeps: likewise; in the pool spans of over 128 pages stay in use for good, with their first page mapped.
- sbrk, page alignment and the zeroing of fresh memory: the system's pages and the addresses that ObjectPool returns are inputs, assumed fresh; new radix nodes are all null, as fresh memory is.
- Requests for 0 bytes, which have no bucket, are no step of MemoryPool, nor are those just below 2^64, which round to no page and fail newSpan's assertion.
- Weak memory and torn reads: single reads and writes are atomic and seen at once. state_ is checked and set in one step.
- The mutex around a thread cache's creation and those inside ObjectPool's users are not among the locks of PoolLocks; a thread's first small allocation creates its cache in one step. A user gives a block back once.
- Memory is words at addresses: PoolMemory shows that no user's write overlaps a link word in use, and does not model bytes.
- Span and timer objects as heap objects: they are records in a store keyed by address. Channel objects likewise keep their status_ and revents_ in maps.
- CentralCaching.CentralBucket.ReleaseList: one caller at a time, with mapToSpan's answers as an input; the interleavings with the bucket lock dropped are steps of MemoryPool and PoolLocks.
- ThreadCaching.ThreadCache.FetchFromCentralCache: the blocks CentralCache grants are an input.
- ThreadCaching.ThreadCache.Allocate: lists are sequences and the blocks CentralCache grants are an input; the linked form is in FreeLists.
- FreeList::popRange: nothing calls it.
- EventLoops.EventLoop.Run: loop() for a finite number of rounds, since a loop that may run for ever has no termination proof; between which of its sections other threads may act is a choice of points here, and between any two in LoopModel.
- ReadEnds and ReadBegins of TimerModel may see any two clock values; handleRead uses one for both.
- Interval arithmetic of addTime: a repeating timer's period is given in microseconds as a non-negative integer, and time stamps do not overflow.
- TimerQueues.TimerQueue.New: operator new takes the lowest free address; TimerModel lets it be any free one.
- Callbacks are given by the calls they make to the queue or loop, and what they compute is not modelled; connection callbacks are not called.
- RpcCodec.RpcHeader.InternalParse: a header read stops at an unknown field with an outcome of its own; the library would keep the field. Its limits of 5 bytes per tag and 2 GB per length are not modelled: any varint of up to 10 bytes is read.
- Looking up the service and calling it, ZooKeeper, sockets, threads, JSON configuration, log appenders, reflection and generated accessors: I/O and wrappers.
- LogFormatter, Connector retry and round robin over loops: they would only add easy members.
