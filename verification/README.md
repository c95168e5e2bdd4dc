# A verified model of the OCF cache core

OCF (Open CAS Framework) is a block-storage caching engine. This project models its hardest parts in Dafny and proves what they promise, for all inputs, runs and interleavings:

- **Cache-line lock** (`line_lock_*.dfy`). The asynchronous reader/writer lock as a state machine over any number of threads: compare-and-swaps on access words, iterations of the waiter scan under a list lock, enqueues, sections of the outer semaphore. One invariant, kept by each action, gives for every reachable state mutual exclusion, exact access words, FIFO grants without barging, no lost wake-up despite a rollback that never looks at waiters, callbacks that fire exactly once, no waiter left on a line it could have, every grant true to its call, deadlock freedom by induction on the order of entry into the exclusive section, and an end to every run that makes no new calls. Premises: the lines of one request are distinct, and there are fewer requests than INT_MAX, so that a count of readers is never the writer mark. The outcome, the number of callbacks, the phase and the ticket of a request record its history and its thread's position; the lock itself does not store them.
- **Coherence of the I/O engines** (`cache_*.dfy`, `plain_disk.dfy`, `sector_math.dfy`). One class holds core volume, cache volume, valid and dirty bits and the mapping; its methods follow the branches of the read engines (generic, pass-through, write-only) and the write engines (through, back, around, invalidate) down to the addresses of single transfers. Any sequence of requests in any modes, with mapping failures, evictions and cleanings in between, answers like a plain disk, and each mode leaves the data on the volumes it promises, with no more fetches from the core volume than needed. The write-only read's coalescing loop is proved region by region.
- **Index and allocation lists** (`index_lists.dfy`, `collision_index.dfy`, `line_lists.dfy`, `line_allocation.dfy`, `freelist_populate.dfy`, `lru.dfy`, `acp_buckets.dfy`). Lists threaded through index tables refine maps and sequences: the hash index is a finite map, freelists and partitions share all lines between them, LRU lists are recency orders, chunks sit in the bucket of their dirty count.
- **Layout and metadata I/O** (`metadata_size.dfy`, `striping.dfy`, `hash_bucket.dfy`, `hash_order.dfy`, `page_runs.dfy`, `metadata_io.dfy`, `metadata_io_run.dfy`, `metadata_updater.dfy`). The metadata size iteration ends before its exception exit and its result fits the device; striping is a bijection; buckets are enumerated in ascending order, which rules out circular waits; chunked metadata I/O transfers every page once in every interleaving; the updater keeps ranges in flight apart.
- **Tuning** (`monitor.dfy`). The hill climbing on `load_admit` never turns round, climbs strictly, and ends on the best setting it measured, which is the best there is under diminishing returns.

`division.dfy`, `sums.dfy` and `set_facts.dfy` hold arithmetic and cardinality facts. Quotient, remainder and product are written as recursions there and proved equal to the built-in operators, which keeps symbolic division out of the other proofs.

Line numbers below are those of the OCF sources; a member stands for what its contract states, not for how it computes.

## Model

| member | source | states |
|---|---|---|
| LineLockPromises.LockWord | src/concurrency/ocf_cache_line_concurrency.c:243-363 | in every reachable state the access word of a line is the number of its readers, or ACCESS_WR with exactly one writer and no reader; a line with waiters is never idle |
| LineLockPromises.AssertionsHold | src/concurrency/ocf_cache_line_concurrency.c:283-363 | no step from a reachable state meets a violated assertion about access words, lock flags or countdowns |
| LineLockPromises.QueueOfParked | src/concurrency/ocf_cache_line_concurrency.c:454-521 | the queue of a line holds, once each and in the order of entry into the exclusive section, the requests whose submission has dealt with the line without getting it |
| LineLockPromises.SameOrder | src/concurrency/ocf_cache_line_concurrency.c:777-847 | two requests stand in the same order in all queues they share |
| LineLockPromises.Countdown | src/concurrency/ocf_cache_line_concurrency.c:785-816 | the countdown of a submitting request is its unlocked lines so far, plus all entries still to come, plus the guard; of a sleeper it is the number of lines missing, of an owner zero with every line locked |
| LineLockPromises.WaitingCount | src/concurrency/ocf_cache_line_concurrency.c:785-827 | the waiting counter is the number of requests that are submitting or asleep |
| LineLockPromises.OneCallback | src/concurrency/ocf_cache_line_concurrency.c:368-389 | acquired means that no callback comes; not acquired means asleep before the callback, and one callback in all, after which every line is locked |
| LineLockPromises.OldestWaitsForGranted | src/concurrency/ocf_cache_line_concurrency.c:777-974 | the oldest sleeper waits only for requests that own all they asked for or are releasing it |
| LineLockPromises.SomebodyMoves | src/concurrency/ocf_cache_line_concurrency.c:777-974 | in a reachable state with a request that is not idle, some step other than a new call is possible |
| LineLockPromises.InitReachable | src/concurrency/ocf_cache_line_concurrency.c:69-139 | a freshly set up lock is a reachable state |
| LineLockPromises.StepReachable | src/concurrency/ocf_cache_line_concurrency.c:243-1066 | reachability is closed under all steps of all threads |
| LineLockCalls.CallHonoured | src/concurrency/ocf_cache_line_concurrency.c:777-974 | in every run, from a call until the next call of the same request, the request is about the lines and the mode of that call; whenever it is granted it owns all these lines, a writer alone with ACCESS_WR, a reader among readers only |
| LineLockCalls.CallRecorded | src/concurrency/ocf_cache_line_concurrency.c:852-895 | a call is recorded with the lines and the mode it names |
| LineLockCalls.CallKept | src/concurrency/ocf_cache_line_concurrency.c:243-1066 | no step other than a new call of a request changes its lines or its mode |
| LineLockCalls.CallPossible | src/concurrency/ocf_cache_line_concurrency.c:830-974 | an idle request can call for any distinct lines in either mode unless the exclusive section is occupied; a single-line read always |
| LineLockCalls.FastAttempt | src/concurrency/ocf_cache_line_concurrency.c:394-408 | without the list lock a request gets a line if and only if nobody holds it, else it tries again with the lock |
| LineLockCalls.FastSubmission | src/concurrency/ocf_cache_line_concurrency.c:394-408 | the same for a request that submits itself in the exclusive section |
| LineLockCalls.SlowAttempt | src/concurrency/ocf_cache_line_concurrency.c:454-521 | under the list lock a writer gets a line if and only if nobody holds it, a reader if and only if no writer holds it and nobody waits; else the attempt is rolled back |
| LineLockCalls.SlowSubmission | src/concurrency/ocf_cache_line_concurrency.c:418-447 | the same in the exclusive section, where a request that may not have the line joins its queue |
| LineLockCalls.SingleAttempt | src/concurrency/ocf_cache_line_concurrency.c:1142-1149 | a single-line read is granted if and only if the line may be read, else it is refused with nothing locked |
| LineLockCalls.OnlyNoMemoryUndoes | src/concurrency/ocf_cache_line_concurrency.c:794-815 | a submission is undone only when no waiter could be allocated |
| LineLockCalls.AnsweredOnce | src/concurrency/ocf_cache_line_concurrency.c:830-847 | each call is answered once: acquired with all lines owned, not acquired while asleep, out of memory or refused with nothing locked |
| LineLockHeads.StepHeads | src/concurrency/ocf_cache_line_concurrency.c:523-668 | every step keeps the rule that the first waiter of a line that is not being scanned could not have the line |
| LineLockHeads.FirstWaiterMustWait | src/concurrency/ocf_cache_line_concurrency.c:523-668 | in every reachable state a line with waiters that no thread scans is held, by a writer if the first waiter is a reader: a scan lets in every reader it can before it ends |
| LineLockInvariant.InitOK | src/concurrency/ocf_cache_line_concurrency.c:69-139 | a freshly set up lock satisfies the invariant |
| LineLockSteps.StepOK | src/concurrency/ocf_cache_line_concurrency.c:243-1066 | every atomic step of every thread keeps the whole invariant: access words, queues, countdowns, sections, list locks, tickets, waiting counter |
| LineLockInvariant.TakeOK | src/concurrency/ocf_cache_line_concurrency.c:243-278 | taking a free or shared line keeps the access word exact and disturbs nothing a list-lock holder has found out |
| LineLockInvariant.GiveOK | src/concurrency/ocf_cache_line_concurrency.c:283-303 | giving a line back without waking anybody leaves no waiter on an idle line |
| LineLockInvariant.GrantOK | src/concurrency/ocf_cache_line_concurrency.c:523-668 | a hand-over to the first waiter, in all four combinations of modes, keeps the invariant |
| LineLockInvariant.HandedAccess | src/concurrency/ocf_cache_line_concurrency.c:308-363 | after wr2wr, wr2rd, rd2wr and rd2rd the access word is again the number of readers or the mark of the only writer |
| LineLockSteps.TryPlan | src/concurrency/ocf_cache_line_concurrency.c:723-771 | the attempt without the list lock takes an idle line that nobody queues for, moves on or changes nothing |
| LineLockSteps.TrySlowPlan | src/concurrency/ocf_cache_line_concurrency.c:454-521 | the attempt under the list lock takes a line only if nobody queues for it; otherwise the roll-back begins |
| LineLockPromises.RollbackLeavesNobody | src/concurrency/ocf_cache_line_concurrency.c:757-768 | in a reachable state none of the lines that a roll-back still has to give up has waiters, and giving one up leaves all queues alone |
| LineLockSteps.SubFlagged | src/concurrency/ocf_cache_line_concurrency.c:785-816 | the guard keeps the countdown above zero while a submission still runs, so it never fires its own callback |
| LineLockSteps.EndedOK | src/concurrency/ocf_cache_line_concurrency.c:816-827 | dropping the guard ends a submission either owning every line or asleep with as many queued lines as the countdown |
| LineLockSteps.ParkOK | src/concurrency/ocf_cache_line_concurrency.c:215-222 | an enqueue in the exclusive section keeps every queue in order of entry into that section |
| LineLockSteps.ForgetOK | src/concurrency/ocf_cache_line_concurrency.c:689-718 | withdrawing the waiters of a request shortens queues without reordering them and leaves one entry less to undo |
| LineLockProgress.RunKeepsInv | src/concurrency/ocf_cache_line_concurrency.c:243-1066 | the invariant holds after any number of steps from the initial state |
| LineLockProgress.NoLostWakeup | src/concurrency/ocf_cache_line_concurrency.c:523-668 | a line with waiters has a holder, and whoever drops it without a hand-over leaves another reader behind |
| LineLockProgress.OnlyScanReleases | src/concurrency/ocf_cache_line_concurrency.c:604-668 | a line with waiters is released only through the scan that looks at them |
| LineLockProgress.NoBarging | src/concurrency/ocf_cache_line_concurrency.c:454-521 | while a line has waiters only the first of them can get it, and it leaves the queue by that step |
| LineLockProgress.FiredOnce | src/concurrency/ocf_cache_line_concurrency.c:368-389 | the only step that fires a callback takes a sleeper that was told NOT_ACQUIRED, had none fired, and now owns all its lines |
| LineLockProgress.WaitsForOlder | src/concurrency/ocf_cache_line_concurrency.c:777-847 | a queued request waits only for sleepers that entered the exclusive section earlier |
| LineLockProgress.SleepersAreNotAlone | src/concurrency/ocf_cache_line_concurrency.c:904-974 | when a request sleeps, some other request is neither asleep nor idle nor locked out |
| LineLockProgress.BudgetDrops | src/concurrency/ocf_cache_line_concurrency.c:523-1066 | every step except a new call uses up budget |
| LineLockProgress.EveryDrainEnds | src/concurrency/ocf_cache_line_concurrency.c:523-1066 | once no new call is made, every schedule ends within the budget with all requests served and idle, all access words zero, all queues empty and nobody counted as waiting |
| CacheEngines.Cache.constructor | src/metadata/metadata_status.h:16-30 | an empty cache shows the content of the core volume whatever the cache volume holds |
| CacheEngines.Cache.SetValid | src/utils/utils_cache_line.h:283-310 | exactly the sectors of the request become valid in addition |
| CacheEngines.Cache.SetDirty | src/utils/utils_cache_line.h:312-338 | exactly the sectors of the request become dirty in addition |
| CacheEngines.Cache.SetClean | src/utils/utils_cache_line.h:340-366 | exactly the sectors of the request stop being dirty |
| SectorMath.Cover | src/utils/utils_cache_line.h:261-281 | start and end sector delimit, line by line, precisely the sectors of the request |
| CacheEngines.Cache.WriteCache | src/utils/utils_io.c:227-325 | one transfer or one per line, the cached copies of the request's sectors become the buffer and no other mapped sector changes |
| CacheEngines.Cache.ReadCache | src/utils/utils_io.c:227-325 | the buffer holds the cached copies of the request's sectors in order, by either way of transfer |
| CacheIo.RunWrite | src/utils/utils_io.c:244-276 | a single transfer over consecutive lines hits the request's sectors and nothing else that is mapped |
| CacheIo.ChunkNext | src/utils/utils_io.c:278-324 | the lengths computed from seek and skip are positive, match the covered part of each line and add up to the request |
| CacheRequest.CountedTally | src/engine/engine_common.c:94-152 | one more line keeps the meaning of all counters: hits, mapped, dirty, fully dirty and physically consecutive lines seen so far |
| CacheEngines.Cache.Traverse | src/engine/engine_common.c:154-195 | all lines counted as hits exactly when all are found with all requested sectors valid; likewise for mapped, dirty and fully dirty; sequential only if the lines are consecutive on the cache volume |
| CacheRequest.TraversedReady | src/engine/engine_common.h:36-100 | what each engine concludes from the counters holds sector by sector |
| CacheLines.MapLineOK | src/engine/engine_common.c:246-281 | mapping a free line for a new core line keeps the structure, adds no valid or dirty sector and loses none |
| CacheEngines.Cache.Map | src/engine/engine_common.c:320-383 | success maps every line of the request and spares what was mapped; with counters that are up to date it fails exactly when lines are missing beyond the free ones; on failure mapping and free list are what they were |
| CacheEngines.Cache.CancelMapping | src/engine/engine_common.c:283-318 | everything a failed mapping took is given back, nothing else is touched and no data is lost |
| CacheEngines.Cache.Evict | src/engine/engine_common.c:408-415 | exactly the clean lines among the victims, even the request's own, are unmapped; their number is returned and is the growth of the free list; no data is lost |
| CacheEngines.Cache.PrepareClines | src/engine/engine_common.c:432-496 | no eviction and no error when all lines are mapped, an error without promotion, success when free lines suffice, also with those evicted from elsewhere, an error when both do not suffice; victims aside, mapped lines keep all their valid sectors; an error leaves a requested sector that is not dirty |
| CacheRequest.CountersExact | src/engine/engine_common.c:154-195 | all lines are hits exactly when every requested sector is valid; all are fully dirty exactly when every requested sector is dirty |
| CacheLines.DropOK | src/utils/utils_cache_line.c:22-50 | exactly the given sectors stop being valid, all other valid and all dirty sectors keep their data, and a line emptied without waiters is unmapped |
| CacheEngines.Cache.Clean | src/engine/engine_common.c:498-543 | dirty sectors of all hit lines, also outside the request, reach the core volume and become clean |
| CacheStore.CleanedKeeps | src/engine/engine_common.c:498-543 | cleaning changes neither coherence nor the visible content |
| CacheEngines.Cache.Purge | src/utils/utils_cache_line.h:212-258 | exactly the request's sectors stop being valid and dirty; every other valid sector stays valid with its data |
| CacheEngines.Cache.ReadGenericDo | src/engine/engine_rd.c:138-204 | the latest content, by four paths: a hit changes neither volume and fetches nothing from the core; a miss fetches the request once, leaves nothing newer in the cache and, unless under a read lock, the whole request cached |
| CacheEngines.Cache.ReadMiss | src/engine/engine_rd.c:58-136 | one fetch from the core; valid bits before it and the backfill after it leave the whole request cached and coherent |
| CacheEngines.Cache.ReadGeneric | src/engine/engine_rd.c:225-270 | the latest content; a request that is valid throughout is served without a fetch, any other is fetched once and, if it can be mapped, cached; also when it falls back to pass-through |
| CacheEngines.Cache.ReadPtDo | src/engine/engine_pt.c:53-95 | pass-through cleans first, so that no requested sector is newer in the cache, and then fetches the latest content from the core volume |
| CacheEngines.Cache.ReadPt | src/engine/engine_pt.c:102-166 | one fetch, no mapping and no valid bit changed, nothing newer left in the cache; with sequential cut-off a request dirty throughout is served by the cache alone |
| CacheEngines.Cache.ReadWo | src/engine/engine_wo.c:145-248 | the latest content, fetched from the core volume exactly if some sector is not valid; nothing is modified |
| CacheEngines.Cache.WoTransfers | src/engine/engine_wo.c:54-138 | the transfers are ascending, disjoint, each one run on the cache volume that could not go on, and together exactly the valid sectors of the request |
| CacheOverlay.RegionOK | src/engine/engine_wo.c:101-131 | a region of equal validity closes, opens or extends the current run without breaking physical adjacency |
| CacheOverlay.EnterLine | src/engine/engine_wo.c:69-81 | at a line that does not follow on the cache volume, or is not mapped, the run is closed first |
| CacheEffects.OverlayShows | src/engine/engine_wo.c:145-165 | core data overlaid with the valid sectors is the latest content |
| CacheEngines.Cache.WriteWbDo | src/engine/engine_wb.c:27-164 | a write-back overwrites the visible disk; the core volume is untouched, the request is valid and dirty with the data in the cache, no other sector changes |
| CacheEngines.Cache.WriteWb | src/engine/engine_wb.c:177-215 | the cache alone takes the data whenever the request can be mapped, else the core volume alone; the visible disk is overwritten either way |
| CacheEngines.Cache.WriteWtDo | src/engine/engine_wt.c:71-154 | a write-through overwrites core volume and cache with the data and leaves the request valid and clean, also when it was dirty; no other sector changes |
| CacheEngines.Cache.WriteWt | src/engine/engine_wt.c:172-208 | the core volume takes the data in any case, the cache holds it clean whenever the request can be mapped and drops the sectors otherwise |
| CacheEngines.Cache.WriteWi | src/engine/engine_wi.c:46-181 | the core volume takes the data, even where newer data was cached; exactly the request's sectors leave the cache, neither valid nor dirty |
| CacheEngines.Cache.WriteWa | src/engine/engine_wa.c:39-87 | the core volume takes the data; the cache keeps it, clean, if and only if the request was valid throughout, else none of it |
| CacheEngines.Cache.Write | src/engine/cache_engine.c:62-152 | each mode puts the data where it should: through, back, around, invalidate, and write-back for the write-only mode |
| CacheEngines.Cache.Read | src/engine/cache_engine.c:62-152 | each mode reads as it should: pass-through, write-only, or by the cache |
| CacheEngines.Cache.Step | src/engine/cache_engine.c:62-152 | one operation in any mode, an eviction or a cleaning acts as on a plain disk, and does to the two volumes what its mode promises |
| CacheEngines.Cache.Serve | src/engine/cache_engine.c:62-152 | for every sequence of operations, modes and choices of the environment the replies and the final content are those of a plain disk |
| HashBucket.IsHash | src/metadata/metadata_misc.h:15-22 | the bucket is (line + core * (entries / 32)) modulo the table size |
| CollisionIndex.Index.Lookup | src/engine/engine_common.c:38-72 | the chain walk ends and returns the line exactly when the map has the core line |
| CollisionIndex.Index.Add | src/metadata/metadata_collision.c:13-45 | the map gains exactly the new core line and the chains stay well formed |
| CollisionIndex.Index.Remove | src/metadata/metadata_collision.c:50-88 | the map loses exactly the core line of the removed line, wherever the line was in its chain |
| CollisionIndex.AddedOK | src/metadata/metadata_collision.c:13-45 | all chains stay doubly linked, acyclic and in the bucket of their keys when a line is put in front of one |
| CollisionIndex.RemovedOK | src/metadata/metadata_collision.c:50-88 | all chains stay doubly linked, acyclic and in the bucket of their keys when a line leaves one |
| LineAllocation.Lines.constructor | src/ocf_freelist.c:369-400 | all lists start out empty and consistent |
| LineAllocation.EmptyFills | src/ocf_freelist.c:142-214 | on a volume without data the empty lists meet what populating them expects, with all lines to distribute |
| LineAllocation.Lines.FreelistAdd | src/ocf_freelist.c:216-248 | the freelist gains the line at its end and nothing else changes hands |
| LineAllocation.Lines.FreelistRemove | src/ocf_freelist.c:51-116 | the freelist loses the line, be it the only, first, last or a middle one |
| LineAllocation.Lines.GetCtx | src/ocf_freelist.c:255-279 | one freelist: empty, locked, or its first line is handed out |
| LineAllocation.Lines.NextVictim | src/ocf_freelist.c:281-292 | victims go round all freelists |
| LineAllocation.Lines.Sweep | src/ocf_freelist.c:294-330 | a round visits the freelists in order and takes from the first one with a line that needs no waiting, or with waiting from the first with a line; it fails only if there is none, and then victims are back where they were |
| LineAllocation.Lines.GetSlow | src/ocf_freelist.c:294-330 | the first freelist of the round that needs no waiting is used; only if all with lines are locked, the first of those; it fails only when every freelist is empty |
| LineAllocation.Lines.GetCacheLine | src/ocf_freelist.c:332-355 | a line is handed out if and only if some freelist is not empty; the caller's own freelist comes first |
| LineAllocation.Lines.AddToPartition | src/metadata/metadata_partition.c:20-62 | the partition gains the line in front |
| LineAllocation.Lines.RemoveFromPartition | src/metadata/metadata_partition.c:65-142 | the partition loses the line, in each of the four cases |
| LineAllocation.Lines.MapToPartition | src/engine/engine_common.c:246-281 | mapping moves one line from a freelist to the front of a partition and every line stays on exactly one list |
| LineAllocation.Lines.Sparse | src/metadata/metadata_misc.c:94-105 | invalidation moves one line from its partition to a freelist and every line stays on exactly one list |
| LineAllocation.NoneFree | src/ocf_freelist.c:345-355 | the count of free lines is zero exactly when all freelists are empty |
| LineAllocation.LinesAreConserved | src/ocf_freelist.c:423-426 | the count of free lines is the number of lines on freelists, and together with the partition sizes it is the number of all lines |
| LineAllocation.Lines.NextPhysInvalid | src/ocf_freelist.c:118-139 | the scan stops at the next unused position and skips nothing unused |
| LineAllocation.Lines.FillList | src/ocf_freelist.c:176-207 | the next unused lines, in physical order, become one well-formed list |
| LineAllocation.Lines.Populate | src/ocf_freelist.c:142-214 | each freelist gets its share of the unused lines as one run in physical order, no unused line is missed or listed twice, and no assertion fails |
| FreelistPopulate.SharesEven | src/ocf_freelist.c:159-164 | shares differ by at most one, larger ones first |
| FreelistPopulate.UnusedInOrder | src/ocf_freelist.c:118-139 | the unused lines come in the order of their positions on the cache volume and none is left out |
| FreelistPopulate.OffsetEnd | src/ocf_freelist.c:159-164 | the shares add up to the number of unused lines |
| Lru.LruLists.AddHead | src/eviction/lru.c:69-121 | the line becomes the most recent of the list of its state |
| Lru.LruLists.RemoveLru | src/eviction/lru.c:124-249 | the line leaves its list, the others keep their order and its own links are cleared |
| Lru.LruLists.Hot | src/eviction/lru.c:460-489 | a used line becomes the most recent of its list whether it was listed or not |
| Lru.OnListTest | src/eviction/lru.c:473-485 | the test of links and list ends tells exactly whether a line is listed |
| Lru.LruLists.DirtyCline | src/eviction/lru.c:514-521 | a line that turned dirty is the most recent dirty one and no longer a clean one |
| Lru.LruLists.CleanCline | src/eviction/lru.c:505-512 | a line that turned clean is the most recent clean one and no longer a dirty one |
| Lru.LruLists.ReqClines | src/eviction/lru.c:393-457 | evicted are unlocked clean lines in the order from the end of the list forwards, skipping none, up to the number asked for or the whole list; dirty and locked lines stay |
| AcpBuckets.ThresholdStep | src/cleaning/acp.c:315-320 | thresholds increase strictly from 0 to the lines of a chunk and fit 16 bits for every line size |
| AcpBuckets.IsChunk | src/cleaning/acp.c:180-191 | the chunk number computed from core lines is the one computed from byte addresses |
| AcpBuckets.ChunkInVolume | src/cleaning/acp.c:696-738 | every line of a core volume has its chunk |
| AcpBuckets.Acp.constructor | src/cleaning/acp.c:724-733 | at the start all chunks are in the first bucket, once each, with no dirty line counted |
| AcpBuckets.Acp.Rebuild | src/cleaning/acp.c:247-272 | after a restart all counts and buckets match the dirty lines found |
| AcpBuckets.BucketUnique | src/cleaning/acp.c:64-65 | a dirty count belongs to one bucket only |
| AcpBuckets.ChunkBound | src/cleaning/acp.c:287-294 | with an injective mapping no chunk counts more dirty lines than it has core lines, which fits 16 bits |
| AcpBuckets.OneMove | src/cleaning/acp.c:587-610 | after a change by one, one move at most finds the right bucket, and it never leads past the last one |
| AcpBuckets.Acp.UpdateBucket | src/cleaning/acp.c:587-610 | the chunk ends in the bucket for its count, once and on that bucket's list only: behind the others when it filled up, in front when it emptied; all other chunks keep their order |
| AcpBuckets.Acp.SetHot | src/cleaning/acp.c:612-634 | every chunk's count stays the number of its flagged lines, and every chunk stays in its bucket |
| AcpBuckets.Acp.Remap | src/cleaning/acp.c:225-229 | a clean line may be mapped for another core line without any count or bucket changing |
| AcpBuckets.Acp.PurgeBlock | src/cleaning/acp.c:636-658 | the same when a line is cleaned |
| MetadataSize.Antitone | src/metadata/metadata_hash.c:237-306 | more lines leave room for fewer, by a bounded amount; the count stays positive and the page count small |
| MetadataSize.RoomGrowth | src/metadata/metadata_raw.c:132-137 | a segment's space grows with the lines, at most by the rounding of entries, pages and alignment |
| MetadataSize.IsDivRoundUp | src/ocf_def_priv.h:18-23 | the rounding quotient of the model is the macro's |
| MetadataSize.LayOut | src/metadata/metadata_hash.c:251-268 | entries for all lines, one each or one for four in the hash table, and exactly the pages that hold them; segments follow one another from behind the fixed pages, on the device in steps of 128 KiB |
| MetadataSize.Disjoint | src/metadata/metadata_hash.c:251-268 | segments that live on the device never overlap and start behind the fixed pages |
| MetadataSize.Round | src/metadata/metadata_hash.c:296-325 | iterates enclose each other, so positive differences fall from one to the next |
| MetadataSize.Stop | src/metadata/metadata_hash.c:309-325 | on both exits lines and metadata fit the device, and the number is a fixed point or the lower end of a two-cycle |
| MetadataSize.Calculate | src/metadata/metadata_hash.c:237-337 | the iteration ends without reaching its cap of 1000 rounds; lines and metadata, laid out accordingly, fit the device |
| MetadataSize.NothingLargerFits | src/metadata/metadata_hash.c:296-325 | the number found leaves room for exactly itself, or for a partner that leaves room for exactly it; no larger number of lines from the partner on fits the device with its metadata |
| Striping.ThereAndBack | src/metadata/metadata_hash.c:2452-2478 | positions are in range and lead back to the entry, for every table including a partial last page and a single page |
| Striping.BackAndThere | src/metadata/metadata_hash.c:2480-2509 | entries are in range and lead back to the position |
| Striping.IsSource | src/metadata/metadata_hash.c:2452-2502 | the model's formulas are the source's, first range of positions |
| Striping.IsSourceShort | src/metadata/metadata_hash.c:2503-2507 | the model's formulas are the source's, positions in rows that the last page lacks |
| HashOrder.HashNext | src/metadata/metadata_misc.h:9-14 | consecutive core lines have consecutive buckets, wrapping round at the end |
| HashOrder.CoversIff | src/concurrency/ocf_metadata_concurrency.c:258-306 | which buckets a request touches: one range, two ranges, or all |
| HashOrder.Enumerate | src/concurrency/ocf_metadata_concurrency.c:258-306 | the iteration visits exactly the request's buckets, each once, ascending |
| HashOrder.MoveKeepsOrder | src/concurrency/ocf_metadata_concurrency.c:308-364 | locking, unlocking and upgrading only ever acquire the next bucket in ascending order |
| HashOrder.MoveHolds | src/concurrency/ocf_metadata_concurrency.c:308-364 | locking adds exactly the wanted bucket, unlocking gives back exactly the next one, every other move leaves what is held; an upgrade holds nothing in between |
| HashOrder.NoCircularWait | src/concurrency/ocf_metadata_concurrency.c:308-364 | for any set of requests, someone waits for nothing or some wanted bucket is free, whatever the locks' fairness |
| PageRuns.SortPages | src/metadata/metadata_raw.c:506-507 | the table prefix becomes its sorted self |
| PageRuns.SortOK | src/metadata/metadata_raw.c:426-438 | sorting keeps pages and duplicates |
| PageRuns.NextRun | src/metadata/metadata_raw.c:512-528 | a run is maximal and covers exactly the table entries it consumed |
| PageRuns.Runs | src/metadata/metadata_raw.c:509-546 | runs are ascending, disjoint, not adjacent, and cover exactly the pages of the table |
| PageRuns.Flush | src/metadata/metadata_raw.c:440-554 | the pages written are exactly those that hold flagged lines |
| MetadataIo.InitOK | src/metadata/metadata_io.c:363-412 | the context as set up satisfies the invariant |
| MetadataIo.StepOK | src/metadata/metadata_io.c:255-435 | every atomic step of issuer and sub-requests keeps both counters exact, every chunk in one pair of hands, and one caller of the completion |
| MetadataIo.StepChunk | src/metadata/metadata_io.c:308-329 | a chunk is untouched, in one request's hands, or transferred once |
| MetadataIoRun.PageInOneChunk | src/metadata/metadata_io.c:308-329 | chunks partition the page range |
| MetadataIoRun.FitsBuffer | src/metadata/metadata_io.c:402-412 | every chunk handed to a sub-request fits the buffer allocated for it, also the shorter last buffer |
| MetadataIoRun.CompletesOnceAfterAll | src/metadata/metadata_io.c:284-293 | the completion is called once, when every chunk has been transferred and nothing is in flight |
| MetadataIoRun.FreedOnceUnused | src/metadata/metadata_io.c:295-301 | the context is released once, after the completion, and no thread takes a step on it afterwards |
| MetadataIoRun.NeverStuck | src/metadata/metadata_io.c:331-358 | until the release some thread can take a step |
| MetadataIoRun.EveryRunCompletes | src/metadata/metadata_io.c:363-435 | every interleaving ends within a budget, with all chunks transferred once, one completion and one release |
| MetadataIoRun.EveryPageOnce | src/metadata/metadata_io.c:363-435 | at the end of every run each page of the range belongs to one chunk, and that chunk was transferred exactly once |
| MetadataUpdater.OverlapsIffShared | src/utils/utils_io.h:19-44 | the overlap test finds exactly the pairs of ranges that share a page |
| MetadataUpdater.Updater.IterateInProgress | src/metadata/metadata_updater.c:56-78 | overlap is reported exactly when an unfinished listed request overlaps; the finished requests before the first such one, or all, are collected; kept and collected requests together are those that were listed |
| MetadataUpdater.Updater.Submit | src/metadata/metadata_updater.c:90-118 | a request starts if and only if nothing unfinished overlaps it, else it is the last pending one; no listed request is lost, those collected were finished; ranges in flight stay apart |
| MetadataUpdater.Updater.Retry | src/metadata/metadata_updater.c:140-158 | a pending request starts under the same condition, with the same account of listed and collected requests |
| MetadataUpdater.Updater.Collect | src/metadata/metadata_updater.c:120-145 | with nothing pending all finished requests are collected and none is lost |
| MetadataUpdater.Updater.IoDone | src/metadata/metadata_io.c:203-207 | when the device is done the range is free again while the request is still listed with its old range |
| MetadataUpdater.Updater.Flag | src/metadata/metadata_io.c:274 | marking a request finished after its range has changed keeps all ranges in flight apart |
| MetadataUpdater.Updater.Advance | src/metadata/metadata_io.c:272 | changing the range of a request that is done but not yet marked disturbs nobody |
| MetadataUpdater.FlightsShareNoPage | src/metadata/metadata_updater.c:56-163 | at any moment no page is part of two transfers |
| Monitor.Tuner.SetLoadAdmit | src/engine/mf_monitor.c:51-56 | only settings in [0, 1] ever take effect, in the order of the calls |
| Monitor.Tuner.OpenWindow | src/engine/mf_monitor.c:181-200 | settings a step apart around the current one, with the measurements just made for those in range and a mark for the others |
| Monitor.Tuner.FollowSlope | src/engine/mf_monitor.c:203-255 | for arbitrary measurements: the settings visited form a path in one direction with strictly rising measurements and at most 100 steps, the settings taken are the ones next to it in order; the miss ratio is checked for each setting on the path but an end of the range; the search gives up if and only if a check shows a changed workload, else it ends on the last of the path, the best of all settings measured this round, whose neighbours in range were measured |
| Monitor.ClimbLength | src/engine/mf_monitor.c:203-255 | a path through [0, 1] in steps of 0.01 has at most 101 settings |
| Monitor.PeakIsBest | src/engine/mf_monitor.c:203-255 | if throughput is repeatable with diminishing returns, the local peak that the search ends on is at least as good as every setting a multiple of the step away |
| Monitor.Tuner.TuneOnce | src/engine/mf_monitor.c:179-273 | one round settles on the best of its own measurements unless its last check, and no earlier one, shows a changed workload; it falls back at 100 percent without a second chance |
| Monitor.Tuner.Tune | src/engine/mf_monitor.c:172-275 | over any number of rounds: each settled on the best of its own measurements; tuning stops for a workload change if and only if the last check shows one, and otherwise exactly at the second round that ends at 100 percent |

## Left out

- Fall-back engines for discard, zeroing, flush, direct-to-core and fast path, and the two multi-factor read engines of this fork.
- Requests that overlap in time: the engines are modelled one request at a time; concurrency is the subject of the lock model.
- Several cores at once in the engine model, which has one core volume; the hash index and the bucket order have core ids.
- The limit on pending evictions of atomic volumes, and lines evicted by zeroing.
- I/O errors, the fallback to pass-through they trigger, allocation failures other than that of a lock waiter, and crash recovery.
- Partitions in the engine model: moving lines to another partition does not touch data or status bits.
- The flag that blocks read misses: with sequential cut-off and a request that is dirty throughout, pass-through read and generic read dispatch to each other for as long as the flag is found set (src/engine/engine_pt.c:123-148, src/engine/engine_rd.c:232-236); the model bounds how often that happens by a number of the environment's choice.
- The hashed waiter lists of the lock appear as one queue per cache line plus the list spinlocks; the order between waiters of different lines in one list has no effect.
- Running out of memory for a waiter is possible in the lock model before the attempt under the list lock, also for a reader, whose waiter the source allocates after it (src/concurrency/ocf_cache_line_concurrency.c:470-495).
- The lock flag, the countdown and the resume call of one granted line form one step in the lock model, as do the retries of an atomic add; the body of the resume callback is not part of it.
- Concurrent use of one freelist: locks of other threads appear as a set of busy freelists that does not change during a call.
- Pages beyond 32 bits: the metadata of a full device is assumed to fit 4 GiB, the limit of the source's own multiplication; wrap-around of the product in the striping functions cancels out and is not modelled.
- The exception exit of the size iteration (src/metadata/metadata_hash.c:272-292), shown unreachable for at most five segments with at least 64 entries in a page.
- The error path of chunked metadata I/O (src/metadata/metadata_io.c:313-316, 352-355).
- Waiting for cache stability and the rounding of doubles in the monitor; its endless tuning loop is observed for any finite number of rounds.
- Choosing the chunk to clean, back-off times and the flush of a chunk in the cleaning policy.
- Statistics, logging, tracing, management, queues, reference counts and memory management.
