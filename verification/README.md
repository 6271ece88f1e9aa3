# pg_stat_ch event pipeline: a verified model

This project models the core of pg_stat_ch, a PostgreSQL extension that captures
telemetry events in every backend and exports them from one background worker,
and proves what its design relies on. `dafny verify dfyconfig.toml` checks all of it.

## What is modelled

**The shared-memory queue.** Backends publish compact slots in a ring of a power
of two many entries; the background worker consumes them without a lock. A slot
points at an error string of its own and at a shared, reference-counted,
hash-interned query body, all in one DSA area. When the queue lock is contended a
backend keeps the event in a local batch of eight and flushes it later.

This part is concurrent, so it is a transition system rather than a set of
classes: a class method would run to its end and hide every interleaving. A state
holds the shared memory and, for each process, its program point and locals. A
step is one atomic read or write, one lock operation, one access to the table or
to an object, one allocation or one free. The next state is a function of the
current one, or a relation where the allocator, the debug setting or the peer
decides. Memory is sequentially consistent; the barriers of the source are the
order of the steps.

- `TextStore` is the DSA area with the interner for any number of concurrent
  clients: every program point of an acquire and a release, the partition locks,
  an arbitrary text hash (so any two texts may collide on the whole key), and an
  allocator that may fail and may hand out freed addresses again.
- `Ring` adds head, tail and slots, with one writer (whoever holds the queue lock)
  and one reader. Positions are unsigned 64-bit numbers that wrap.
- `Pipeline` adds any number of producers with their local batches, the queue
  lock, the lock-free overflow check, the overflow warning and the lazy
  initialisation of the local batch, which may throw, the counters and their
  reset, and the exporter's accounting.

Safety says what no step may do; these modules say what the steps must do.
`TextStoreReasons` and `PipelineFates` give the exact reason for every text that is
missing. `DequeueProgress` shows when a dequeue reports an empty queue, and that the
consumer alone can always deliver what is queued. `ProducerCalls` says how each step
moves events between the histories, `CallOutcomes` what a whole call of a producer
does to its event and its batch, and `CallsEnd` that every such call ends.
`CounterResets` is about what a reset of the statistics means. `PipelineLosses` and
`LossExamples` treat events that an error loses.

Each level has its invariant (`TextStoreInvariant`, `RingInvariant`,
`PipelineInvariant`) and proofs that every step keeps it. Invariants are written
as a predicate over named parts, so that each proof opens only the parts it needs.
Auxiliary fields (histories, owners of references) are marked as such: no other
field is computed from them, and `WriterNotStuck`, `ReaderNotStuck` and
`NoDeadlock` show that the conditions that mention them never hold a step back.
`QueueOwnership` states ownership and counts without them.

**The re-entrancy guard.** `CaptureGuard` is the call-stack machine of one backend:
a warning raised while an event is enqueued calls the log hook, which would enqueue
again. Errors may be thrown wherever the source can raise one. `CaptureCalls`
follows one call of `PschEnqueueEvent` from its entry to the error that ends it.

**The cache of normalised texts.** `NormalizedCache` is the hash table with its
intrusive, circular list, as a class whose links are updated in place; `Recency`
says what a least-recently-used cache is without mentioning one.

**The query normaliser.** `Normalizer` is the lexer pass that measures constants,
`QueryNormalizer` the splice loop, and `ConstantSwap` shows that the normal form
does not depend on the constants. The lexer's tokens are given as spans.

**The exporters.** `OtelExporter`, `ArrowExporter` and `ClickHouseColumns` are the
batch builders, over `Chunking`, which defines how rows are cut into chunks.
Each keeps a log of all it ever sent, which no batch clears. `ExportWorker` is
`PschExportBatch` over all three, with the bump of the shared counter; `Transcripts`
says what one call does: what it sends, reports and counts. `ExportSteps` shows that
each call is a sequence of the exporter's steps in `Pipeline`, whatever the other
processes do in between, and `ExportOnce` that in every run the logs hold the dequeued
events at the positions handed over, each at most once. `DrainLoop` is the background
worker's loop. Connections, sends, appends and allocations have arbitrary results,
given to each call as a `Luck`.

## What turned out otherwise

- Both enqueue functions are meant to restore the guard on every exit
  (`src/queue/shmem.c:341-343`, `src/queue/shmem.c:382-384`). They do not when an
  error escapes the warning of the lock-free `HandleOverflow`, which no `PG_TRY`
  encloses. For a whole call of `PschEnqueueEvent` that an error ends,
  `CaptureCalls.EventLeaksExactly` gives the exact condition: the guard was clear at
  entry, and either the call's own check found the queue full with the overflow not
  logged, or the lock was refused with the local batch full, the flush's check found
  the queue full, and one of its drops was the first to be logged.
  `CaptureGuard.LeakExample` and `CaptureCalls.FlushLeakExample` are such runs,
  `BatchLeaksExactly` treats `PschEnqueueBatch` alone, and `LeakForever` shows that
  capture then stays off.
- Every event captured is meant to be enqueued, counted as dropped, or discarded
  while capture is off. If the overflow warning throws out of a flushed batch, the
  rest of the batch and a pending event are in none of these
  (`src/queue/local_batch.c:42-44`, `src/queue/shmem.c:370-378`); nor is a contended
  event if `PschLocalBatchInit` throws (`src/queue/local_batch.c:31-35`). They have a
  place of their own in `Conservation` and `Accounting`. `PipelineLosses.NothingLost`
  gives the exact condition, `FlushLoses` says what a whole flush loses, and
  `LossExamples.FlushExample` and `InitExample` are runs that lose an event.
- `src/export/stats_exporter.h:14` says that `PschExportBatch` returns 0 on error. It
  does not on any backend: OTLP and Arrow report the chunks taken before the failure
  (`src/export/stats_exporter.cc:470-477`, `src/export/stats_exporter.cc:203-210`), and
  ClickHouse reports all rows after a failed insert. `ExportWorker.FailureReports` gives
  the exact condition for each, and `ExportReports` one failing call for each.

## Model

| member | source | states |
|---|---|---|
| RingArithmetic.CheckedCapacity | src/config/guc.c:63-80 | a queue capacity is accepted if and only if it is a power of two |
| RingArithmetic.MaskIsMod | src/queue/shmem.c:109-111 | for an accepted capacity, masking a position is taking it modulo the capacity |
| RingArithmetic.MaskInjective | src/queue/shmem.c:109-111 | masking is injective on any window of capacity consecutive positions |
| RingArithmetic.MaskWraps | src/queue/shmem.c:437-442 | the wrap of a 64-bit position does not change the slot it selects |
| RingArithmetic.WrappedDistance | src/queue/shmem.c:101-104 | the unsigned difference of wrapped positions is their true distance |
| RingArithmetic.WrappedBehind | src/queue/shmem.c:328-332 | the unsigned difference when the tail has passed the head that was read, exactly |
| TextStoreProofs.ApplyInv | src/queue/query_intern.c:133-300 | every step of every client, and every hand-over of a reference or a string, keeps the store's invariant |
| TextStoreProofs.ResolveWhole | src/queue/query_intern.c:309-335 | resolving a held reference copies the whole stored text |
| TextStoreTheorems.RunInv | src/queue/query_intern.c:170-352 | the invariant holds in every state of every run of any number of clients |
| TextStoreTheorems.OneOwner | src/queue/query_intern.c:212-249 | a block is live if and only if it has an owner, and it has only one: nothing leaks, dangles or is owned twice |
| TextStoreTheorems.NeverFaults | src/queue/query_intern.c:170-300 | no step touches a freed block or a missing entry, including the read of the entry after its lock is dropped; counts are positive when decremented |
| TextStoreTheorems.CountsExact | src/queue/query_intern.c:196-199 | an entry's count is the number of references held and at least one; its body is live and carries the entry's key |
| TextStoreTheorems.AcquireExact | src/queue/query_intern.c:158-207 | an acquire returns the requested text under the requested key, or nothing and why, even if the whole key collides |
| TextStoreReasons.CompareExact | src/queue/query_intern.c:158-168 | the comparison with a tabled body fails if and only if another text is tabled under the key |
| TextStoreReasons.RefusedForCause | src/queue/query_intern.c:170-249 | in every run a client is being refused for a reason if and only if it met that reason in the acquire it is in: its allocation was answered with nothing, another text was tabled when it compared, the table was full when it entered its key |
| TextStoreReasons.AcquireAnswered | src/queue/query_intern.c:170-249 | a finished acquire has a body with the requested text and key, unless it met a reason not to: it returns nothing if and only if it did |
| TextStoreReasons.RunEnds | src/queue/query_intern.c:170-300 | every step of a client brings its acquire or release nearer to its end: at most ten steps, or seven |
| TextStoreTheorems.IdleIsEmpty | src/queue/query_intern.c:286-299 | with nothing handed out and every client idle, table, DSA area and locks are empty |
| TextStoreTheorems.StepFrame | src/queue/query_intern.c:170-300 | a step of one client leaves every other client's reference, body and string as it was |
| RingProofs.SlotWrite | src/queue/shmem.c:111-115 | writing the slot of the head leaves the slots from tail to head alone while the queue is not full |
| RingProofs.OnTail | src/queue/shmem.c:101-107 | the locked fullness check keeps the invariant, and without the debug setting it reports overflow only when the queue is full |
| RingProofs.TableHasRoom | src/queue/query_intern.c:65-71 | when the writer enters a new key the interner's table, sized like the queue, is not full |
| RingProofs.WriterStepInv | src/queue/shmem.c:100-151 | every step of TryEnqueueLocked keeps the ring's invariant |
| RingReaderProofs.ReaderSlot | src/queue/shmem.c:437-446 | the slot the consumer reads is the oldest published one, as it was published |
| RingReaderProofs.OnErrCopy | src/queue/psch_dsa.c:106-120 | the error string the consumer copies is the event's own, clamped |
| RingReaderProofs.FreeFrame | src/queue/psch_dsa.c:120-120 | freeing the error string leaves every other string and every query body alone |
| RingReaderProofs.ReaderStepInv | src/queue/shmem.c:422-459 | every step of PschDequeueEvent keeps the ring's invariant |
| RingTheorems.RefsBounded | src/queue/query_intern.c:65-71 | there are never more references than slots |
| RingTheorems.RefcountFits | src/queue/query_intern.c:42-46 | a reference count fits its 32-bit field |
| RingTheorems.WriterNotStuck | src/queue/shmem.c:100-151 | whatever free address the allocator returns, the producer in TryEnqueueLocked can go on unless it waits for a partition lock |
| RingTheorems.ReaderNotStuck | src/queue/shmem.c:422-459 | the consumer can go on unless it waits for a partition lock |
| RingTheorems.OneEndMoves | src/queue/query_intern.c:193-249 | producer and consumer never wait for each other's partition locks |
| PipelineProofs.NextInv | src/queue/shmem.c:312-459 | every step of any process keeps the pipeline's invariant |
| PipelineProofs.NextBalance | src/queue/shmem.c:312-400 | every step, every error that ends a call included, moves events between places without losing track of any |
| PipelineTheorems.RunInv | src/queue/shmem.c:312-459 | the pipeline's invariant holds in every state of every run |
| PipelineTheorems.Conservation | src/queue/shmem.c:312-400 | of every kind of event, as many were offered as are published, dropped, discarded, lost to an error, batched or in a producer's hands |
| PipelineTheorems.Accounting | src/queue/local_batch.c:37-59 | events offered are enqueued + dropped + discarded + lost + in local batches + in progress |
| ProducerCalls.StepMarks | src/queue/shmem.c:312-400 | each step adds to the published, dropped and discarded events exactly the ones it decides on, and no step of another kind adds any |
| ProducerCalls.DiscardExact | src/queue/shmem.c:363-365 | events are discarded if and only if a producer flushes while capture is disabled, and then its whole batch; an enabled flush discards nothing, and no producer begins to enqueue while capture is disabled |
| CallOutcomes.EventCall | src/queue/shmem.c:312-357 | a whole call of PschEnqueueEvent, however others interleave, drops its event if and only if it finds the queue full, without the lock or under it; publishes it otherwise if it gets the lock; else adds it to the local batch, after a flush if and only if that held eight |
| CallOutcomes.FlushCall | src/queue/local_batch.c:37-45 | the flush at the end of a transaction empties the local batch, and its events in order are all discarded if capture is disabled, all dropped if the queue looks full, else published or dropped one by one as the check under the lock finds |
| CallsEnd.CallEnds | src/queue/shmem.c:312-400 | no call of a producer goes on for ever: it takes a bounded number of steps of its own, in every run and however other processes interleave |
| PipelineLosses.NothingLost | src/queue/local_batch.c:47-59 | nothing is lost if and only if no error takes a producer out of a call with events left: out of the first overflow warning, or out of the first initialisation of its local batch |
| PipelineLosses.FlushLoses | src/queue/shmem.c:363-397 | a flush that its overflow warning ends loses a proper tail of its batch and the pending event, and the overflow was not logged before |
| LossExamples.BatchLoses | src/queue/shmem.c:370-378 | from every reachable state with a full queue, a clear overflow flag and a local batch to flush, all of that batch but its first event may be lost |
| LossExamples.InitLoses | src/queue/local_batch.c:31-50 | from every reachable state in which the lock is refused to a producer without an initialised local batch, its event may be lost |
| LossExamples.FlushExample | src/queue/local_batch.c:37-45 | a run that loses the second of two flushed events |
| LossExamples.InitExample | src/queue/local_batch.c:31-50 | a run that loses a contended event |
| PipelineTheorems.CountersTell | src/queue/shmem.c:146-148 | the 64-bit counters are the true totals since the last reset, and head is enqueued except between a publish and its counter |
| PipelineTheorems.ResetFreeBase | src/queue/shmem.c:521-537 | in a run without reset the counters count from zero |
| PipelineTheorems.ResetFreeAccounting | src/queue/shmem.c:146-148 | in a run without reset the shared counters themselves account for every event offered modulo 2^64, and head is the enqueued counter except between a publish and its bump |
| CounterResets.SinceReset | src/queue/shmem.c:521-537 | after a reset and until the next, each counter shows exactly what has been counted since, modulo 2^64 |
| CounterResets.OneWarning | src/queue/shmem.c:76-86 | once an overflow has been handled no overflow warning throws until the statistics are reset |
| PipelineTheorems.BatchFits | src/queue/local_batch.c:47-59 | a local batch holds at most eight events and has room for the one being stored |
| PipelineTheorems.MutualExclusion | src/queue/shmem.c:338-353 | at most one producer is inside the queue lock |
| PipelineTheorems.QueueBounded | src/queue/shmem.c:101-107 | head minus tail is within 0 and capacity, and is what unsigned subtraction yields |
| PipelineTheorems.SlotsApart | src/queue/shmem.c:101-147 | from its fullness check to its publish a producer writes a slot that is neither published nor being read |
| PipelineTheorems.ReaderSlotPublished | src/queue/shmem.c:428-446 | the slot being read is published and not yet given back |
| PipelineTheorems.RunFates | src/queue/shmem.c:117-141 | a text of a published event is missing only if empty, out of memory or, for queries, on a collision; never because the table is full |
| PipelineFates.QueryFateExact | src/queue/query_intern.c:170-249 | the j-th published event lacks its query for a reason if and only if the interner met that reason while it had this very event in hand |
| PipelineFates.ErrFateExact | src/queue/shmem.c:117-124 | the j-th published event lacks its error string for want of memory if and only if the allocator answered with nothing when asked for this very event |
| PipelineFates.DeliveredExact | src/queue/shmem.c:422-459 | every dequeued event has its fixed fields and its own clamped texts; a text is empty instead if and only if the allocator gave no memory for it or, for a query, another text was tabled under its key when the interner compared |
| PipelineTheorems.Delivery | src/queue/shmem.c:422-459 | dequeued events are a prefix of the published ones, fixed fields intact, each text its own clamped text or empty for a stated reason |
| DequeueProgress.EmptyExact | src/queue/shmem.c:428-435 | a dequeue reports an empty queue if and only if every event published when it read the head had been delivered |
| DequeueProgress.NextDelivered | src/queue/shmem.c:422-459 | from every reachable state with an event queued and no partition lock held elsewhere, steps of the consumer alone deliver exactly one more event, the oldest, with its outcome |
| DequeueProgress.QueueDrains | src/queue/shmem.c:422-459 | from every such state steps of the consumer alone deliver every published event, in order |
| PipelineTheorems.LockedDrop | src/queue/shmem.c:101-107 | a drop under the lock happens if and only if the queue is full at the tail read, or the debug setting forces it |
| PipelineTheorems.LockFreeDrop | src/queue/shmem.c:326-336 | a lock-free drop happens if and only if the queue was full throughout both reads, or the tail has passed the stale head within the exact wrapped range |
| PipelineTheorems.InternerNeverLoses | src/queue/query_intern.c:219-244 | under the queue lock the second lookup never finds the key and the table is never full at the insert |
| PipelineTheorems.NoFaults | src/queue/query_intern.c:170-300 | no process in the pipeline touches freed memory or a missing entry |
| PipelineTheorems.SlotKeepsQuery | src/queue/shmem.c:125-139 | until its release a slot's query pointer is live, tabled under its own key and holds the event's own text |
| PipelineTheorems.ExportedOnce | src/export/stats_exporter.cc:433-477 | in the pipeline's account, positions handed over are different and rows counted <= rows taken <= rows handed over <= tail <= head; without reset the shared exported counter is at most the rows taken |
| PipelineTheorems.QuiescentIsEmpty | src/queue/query_intern.c:286-299 | a drained queue with all processes at rest leaves table, DSA area and locks empty |
| PipelineTheorems.RefcountsFit | src/queue/query_intern.c:42-46 | in every run a reference count is between one and the capacity |
| PipelineTheorems.NoDeadlock | src/queue/shmem.c:340-397 | while a producer is under way some producer can move, a foreign hold on the queue lock can end, or the lock holder waits for a partition lock and the consumer, which holds it, can move |
| QueueOwnership.RefcountIsHolders | src/queue/query_intern.c:170-300 | a reference count is the number of unreleased slots between tail and head plus the number of processes that hold the body |
| QueueOwnership.OneOwner | src/queue/psch_dsa.c:86-125 | every live block has exactly one owner: a table entry, a slot's error pointer, or one process |
| QueueOwnership.SharedExactly | src/queue/query_intern.c:133-207 | two queued events share one copy of their query text if and only if they agree in database, query id and stored text, although the key has only a hash of the text |
| CaptureGuard.RunInv | src/hooks/hooks.c:852-896 | the nesting, the guard, the lock and the local batch agree in every state of every run |
| CaptureGuard.OneCapture | src/hooks/hooks.c:852-885 | hook capture nests at most one level and the guard is up while it is in progress |
| CaptureGuard.NoSelfDeadlock | src/queue/shmem.c:317-351 | a backend never asks for the queue lock while it holds it |
| CaptureGuard.CaptureOnce | src/hooks/hooks.c:790-885 | no run nests hook capture in itself |
| CaptureGuard.ReportCaptured | src/hooks/hooks.c:790-896 | a message is captured if and only if no capture and no enqueue is in progress and no earlier error has left the guard up; otherwise it changes nothing |
| CaptureGuard.FlushedWhenFull | src/queue/local_batch.c:47-59 | adding to the local batch flushes it if and only if it holds eight events |
| CaptureGuard.BatchUndisturbed | src/queue/local_batch.c:37-59 | while a flush copies the local batch no re-entrant event is added to it |
| CaptureGuard.BatchFits | src/queue/local_batch.c:52-58 | the local batch never overflows under any nesting |
| CaptureGuard.GuardTracks | src/hooks/hooks.c:892-896 | the guard is up exactly as the calls in progress require |
| CaptureGuard.ThrowRestores | src/queue/shmem.c:332-351 | an error restores the guard if and only if it does not come from the lock-free overflow warning with a clear guard outside |
| CaptureCalls.EventLeaksExactly | src/queue/shmem.c:312-357 | an error that ends a call of PschEnqueueEvent leaves the guard up if and only if the guard was clear at entry and the call's own check or the check of the flush inside it found the queue full and won the overflow flag |
| CaptureGuard.BatchLeaksExactly | src/queue/shmem.c:370-378 | the same for each overflow PschEnqueueBatch counts |
| CaptureGuard.LeakForever | src/queue/shmem.c:341-343 | after such an error the guard is up and nothing is captured in the whole rest of the run |
| CaptureGuard.LeakExample | src/queue/shmem.c:332-336 | a run that leaves the guard up |
| CaptureCalls.FlushLeakExample | src/queue/local_batch.c:47-59 | a run in which the flush inside a call leaves the guard up although the call's own check found room |
| Recency.RecentIffFew | src/hooks/query_normalize_state.c:188-211 | an id is among the n most recent if and only if it was used and fewer than n others were used since |
| Recency.PromoteTake | src/hooks/query_normalize_state.c:74-79 | using a listed id moves it to the front of the bounded recency list |
| Recency.EnterTake | src/hooks/query_normalize_state.c:170-175 | using a new id puts it in front and pushes the oldest out of a full list |
| Recency.UsedIffRemembered | src/hooks/query_normalize_state.c:147-211 | an id has a use if and only if it was remembered |
| Recency.FoundAgain | src/hooks/query_normalize_state.c:147-211 | an id just remembered or found is found again as long as fewer than n other ids have been named since |
| Recency.PushedOut | src/hooks/query_normalize_state.c:128-186 | an id not named while n others were remembered is not found |
| Recency.TextKept | src/hooks/query_normalize_state.c:177-186 | the text of an id is the one last remembered for it, clamped |
| NormalizedCache.PushLinks | src/hooks/query_normalize_state.c:68-72 | pushing at the head keeps the circular links in step with the recency order |
| NormalizedCache.DeleteLinks | src/hooks/query_normalize_state.c:74-79 | unlinking an entry keeps the circular links in step with the recency order |
| NormalizedCache.Cache.EnsureInitialised | src/hooks/query_normalize_state.c:46-57 | lazy initialisation picks the cache's own size or the configured one |
| NormalizedCache.Cache.PushHead | src/hooks/query_normalize_state.c:68-72 | the entry becomes the most recent one |
| NormalizedCache.Cache.Delete | src/hooks/query_normalize_state.c:74-79 | the entry leaves the list and no other moves |
| NormalizedCache.Cache.Promote | src/hooks/query_normalize_state.c:74-79 | the entry becomes the most recent one and no entry is lost |
| NormalizedCache.Cache.EvictLru | src/hooks/query_normalize_state.c:128-145 | the least recent entry leaves the list and the table |
| NormalizedCache.Cache.Enter | src/hooks/query_normalize_state.c:160-175 | room is made for the entry, which is never itself evicted |
| NormalizedCache.Cache.Remember | src/hooks/query_normalize_state.c:147-186 | the cache is the maxEntries most recently used ids with their last texts, clamped to 2047 bytes; null text and id 0 change nothing |
| NormalizedCache.Cache.Lookup | src/hooks/query_normalize_state.c:188-211 | a lookup hits if and only if the id was remembered and fewer than maxEntries others were used since, and yields the last text clamped to the buffer |
| Normalizer.Sort | src/hooks/query_normalize.c:60-62 | sorting by location yields a sorted permutation, which is all its callers know |
| Normalizer.SortingUnique | src/hooks/query_normalize.c:60-62 | if entries at one location are alike there is but one sorting, whatever the sort does with them |
| Normalizer.ConstantSpan | src/hooks/query_normalize.c:85-101 | there is a constant at a place if and only if a token starts there, with another after it if the byte there is a minus; its length is what that token, or the two, span |
| Normalizer.LexConstant | src/hooks/query_normalize.c:85-101 | lexing on from any token finds the end of the first token at or after the place, or of the one after it if the byte at the place is a minus; nothing if and only if the tokens run out |
| Normalizer.PassedNext | src/hooks/query_normalize.c:68-106 | later constants start beyond the tokens already consumed |
| Normalizer.MeasureAll | src/hooks/query_normalize.c:68-106 | the single forward pass keeps every measured length equal to the looked-up one |
| Normalizer.FillInConstantLengths | src/hooks/query_normalize.c:53-109 | for any sorted permutation, after one pass every location has the length an independent lookup gives, duplicates are marked, squashed ones untouched |
| QueryNormalizer.CopyGap | src/hooks/query_normalize.c:159-162 | bytes before the next constant are copied unchanged |
| QueryNormalizer.SameGapsSameResult | src/hooks/query_normalize.c:141-178 | the substitution depends only on the bytes kept and the placeholders |
| QueryNormalizer.PuttingBack | src/hooks/query_normalize.c:141-178 | substituting the replaced bytes back gives the original text: nothing else is lost, moved or repeated |
| QueryNormalizer.NumberedInOrder | src/hooks/query_normalize.c:164-168 | the k-th replaced constant gets the k-th number, with the list comment if squashed |
| QueryNormalizer.DecimalIsNumeral | src/hooks/query_normalize.c:164-168 | a placeholder's number is written as the decimal numeral of that number, without leading zero |
| QueryNormalizer.KeptExactly | src/hooks/query_normalize.c:141-157 | a location is left alone if and only if it is a duplicate or an external parameter of a statement without squashed lists; every other one is replaced once |
| QueryNormalizer.NormalFormExact | src/hooks/query_normalize.c:141-178 | the normal form replaces the k-th location kept by $ and the number highest_extern_param_id + k, counting from one, with the list comment if squashed, and nothing else |
| QueryNormalizer.EditsInOrder | src/hooks/query_normalize.c:155-161 | well-placed locations give ordered, disjoint replacements |
| QueryNormalizer.FilledSpaced | src/hooks/query_normalize.c:155-161 | measured constants lie inside the statement and do not overlap |
| QueryNormalizer.Splice | src/hooks/query_normalize.c:141-178 | the splice loop computes the byte-wise substitution |
| QueryNormalizer.SpliceIsNormal | src/hooks/query_normalize.c:111-182 | with measured lengths that substitution is the statement's normal form |
| QueryNormalizer.NormalizeQuery | src/hooks/query_normalize.c:111-182 | nothing without constants, otherwise the normal form of the locations in whatever sorted order, with placeholders from highest_extern_param_id + 1 and preserved parameters verbatim |
| QueryNormalizer.SameUpToConstants | src/hooks/query_normalize.c:111-182 | statements that differ only inside replaced constants, whatever their lengths, have the same normal form |
| ConstantSwap.SwapKeepsNormalForm | src/hooks/query_normalize.c:53-182 | replacing the bytes and tokens of one constant by those of any other, of any length, with or without a minus, and moving what follows, leaves the normal form as it is |
| Chunking.CutFlat | src/export/otel_exporter.cc:136-150 | the chunks are the rows in order, each once |
| Chunking.CutFits | src/export/otel_exporter.cc:319-321 | every chunk is non-empty, within the record limit, over the byte limit by less than its last row, and unless it is the last it has as many records as allowed or has reached the byte limit |
| Chunking.DeliveredChunks | src/export/otel_exporter.cc:342-367 | chunks delivered fit the limits and partition a prefix of the batch, whose length is the count, and the whole of it exactly if the batch is complete |
| Chunking.CountTells | src/export/otel_exporter.cc:432-454 | the count is the whole batch if and only if the batch is complete |
| OtelExporter.Exporter.Configure | src/export/otel_exporter.cc:381-391 | a chunk may have max(1, min(batch size, bytes / 1200)) records, and at least 1200 bytes |
| OtelExporter.Exporter.BeginBatch | src/export/otel_exporter.cc:130-134 | a batch starts from nothing, whatever the last one left |
| OtelExporter.Exporter.FlushChunk | src/export/otel_exporter.cc:342-367 | the records of the request go out as one parcel, delivered and counted, refused, or lost in an exception; without connection or records nothing goes out |
| OtelExporter.Exporter.ReplaceChunk | src/export/otel_exporter.cc:140-146 | a full chunk is sent and a new one begun, or the batch has failed with a chunk missing |
| OtelExporter.Exporter.BeginRow | src/export/otel_exporter.cc:136-150 | the row goes into the last chunk of the batch cut up, or the batch has failed |
| OtelExporter.Recorded | src/export/otel_exporter.cc:205-290 | the record of a row is a subsequence of it in which every attribute occurs as often as in the row, except an integer that is zero, which does not occur |
| OtelExporter.LeftOutWeighsNothing | src/export/otel_exporter.cc:205-220 | an attribute that is left out is not counted in the size estimate |
| OtelExporter.EstimateCovers | src/export/otel_exporter.cc:117-123 | the size estimate is at least the overheads and all keys and texts of the record |
| OtelExporter.Exporter.Append | src/export/otel_exporter.cc:205-290 | the open record goes from the record of the attributes so far to that of one more, and the running byte count gains its estimate |
| OtelExporter.Exporter.AddRow | src/export/stats_exporter.cc:288-352 | one more row keeps the account of chunks and bytes |
| OtelExporter.Exporter.CommitBatch | src/export/otel_exporter.cc:432-454 | the commit succeeds if and only if no send failed before and there is no connection, no row, or the last send succeeds; connected, exactly if every chunk was delivered |
| OtelExporter.AddRows | src/export/stats_exporter.cc:288-352 | all rows are accounted for, or an exception in a send, a chunk reset or a column append leaves a chunk missing |
| OtelExporter.ExportBatch | src/export/stats_exporter.cc:433-477 | for every batch and every pattern of sends, the log of all sends grows by the first chunks of the batch cut up and by nothing else, by all of them if and only if it commits |
| OtelExporter.ConnectedBatch | src/export/otel_exporter.cc:432-454 | connected, a batch commits if and only if the reported count is the whole batch, and what is delivered is in order and within the limits |
| ArrowExporter.Builder.Append | src/export/arrow_batch.cc:275-448 | the builder gains the row and its size estimate, or nothing |
| ArrowExporter.TextBytesIsLength | src/export/arrow_batch.cc:439-446 | the size estimate counts every byte of every text field once |
| ArrowExporter.Builder.Reset | src/export/arrow_batch.cc:583-642 | the builder is empty but for the envelope |
| ArrowExporter.FlushBuilder | src/export/stats_exporter.cc:157-172 | a finished block goes out once with the builder's rows and is counted if taken; an unfinished one does not go out |
| ArrowExporter.ExportRow | src/export/stats_exporter.cc:173-185 | a row is appended and a full block sent, or a block is missing |
| ArrowExporter.ExportAsArrow | src/export/stats_exporter.cc:144-211 | for every batch and every outcome the log of all sends grows by the first blocks of the batch cut up and by nothing else, by all of them if and only if nothing failed |
| ArrowExporter.ArrowBatch | src/export/stats_exporter.cc:203-210 | blocks fit, partition a prefix of the batch, and the count is the whole batch exactly on success |
| ClickHouseColumns.AppendDecodes | src/export/clickhouse_exporter.cc:219-254 | decoding a column by its cumulative offsets yields the values appended, in order |
| ClickHouseColumns.CutMends | src/export/clickhouse_exporter.cc:237-240 | an exception between a string's bytes and its offset breaks the column, and clearing mends it |
| ClickHouseColumns.Exporter.BeginBatch | src/export/clickhouse_exporter.cc:203-207 | every column is emptied and well formed, however unevenly or brokenly an abandoned batch left them |
| ClickHouseColumns.Exporter.MakeCol | src/export/clickhouse_exporter.cc:258-284 | a known name yields its column or a type error, a new name a new empty column |
| ClickHouseColumns.Exporter.MakeColumns | src/export/stats_exporter.cc:236-286 | the columns are those of the schema in order, or an exception leaves a prefix of them |
| ClickHouseColumns.Exporter.AppendRow | src/export/stats_exporter.cc:288-352 | a row adds one value to every column, or an exception, possibly inside a string's append, leaves columns of the right names and types |
| ClickHouseColumns.Exporter.CommitBatch | src/export/clickhouse_exporter.cc:539-546 | a block holds every column with its raw bytes and offsets; there is none if building it fails |
| ClickHouseColumns.FillBatch | src/export/stats_exporter.cc:231-372 | a batch that runs to its end fills every column with its values of every row, whatever earlier batches left |
| ClickHouseColumns.ExportBatch | src/export/clickhouse_exporter.cc:510-562 | the log of all inserts grows by at most one block, which is rectangular, has the declared names and types and the batch's row count in each column, and decodes to the rows; an abandoned batch sends none |
| Transcripts.ChunksTranscript | src/export/otel_exporter.cc:342-367 | a batch cut into chunks puts its rows on the wire in order from the first, nothing after a failure, and the rows taken are the count |
| Transcripts.OksCarried | src/export/otel_exporter.cc:342-367 | chunks that make up a prefix of the rows are that prefix, cut where the transcript says |
| ExportWorker.Worker.DequeueEvents | src/export/stats_exporter.cc:98-107 | the oldest events up to the limit, fewer only if the queue runs empty |
| ExportWorker.Worker.EnsureConnected | src/export/stats_exporter.cc:436-444 | a call goes on if and only if the backend is connected or a connection can be made |
| ExportWorker.SendLogs | src/export/stats_exporter.cc:459-477 | the wire gains the records of a prefix of the batch, in order, cut as the transcript says, and nothing else; the batch is counted if and only if all of it was taken; an exception reports none of the rows taken before it |
| ExportWorker.SendBlocks | src/export/stats_exporter.cc:144-211 | the same for the rows of Arrow blocks, for every pattern of appends and sends |
| ExportWorker.Worker.ExportInserts | src/export/stats_exporter.cc:459-477 | the server gets at most one block, which decodes to the rows of the events; it is counted if and only if the insert succeeds, and reported even if it fails |
| ExportWorker.Worker.ExportBatch | src/export/stats_exporter.cc:433-489 | for every backend and every outcome the batch leaves the queue once and in order, the wires gain exactly the rendering of a prefix of it, cut as the transcript says, and the shared counter grows by the whole batch if and only if all of it was taken |
| ExportWorker.FailureReports | src/export/stats_exporter.cc:470-477 | a call that fails reports rows if and only if: OTLP and Arrow, no exception and the first send was taken; ClickHouse, the batch was filled and not empty and its insert failed |
| ExportReports.LogsExample | src/export/stats_exporter.cc:470-477 | an OTLP call that fails and reports 1 |
| ExportReports.BlocksExample | src/export/stats_exporter.cc:187-210 | an Arrow call that fails and reports 1 |
| ExportReports.InsertsExample | src/export/clickhouse_exporter.cc:547-551 | a ClickHouse call that fails and reports 2 |
| ExportSteps.CallPlays | src/export/stats_exporter.cc:433-489 | every call with the events dequeued since the last is a sequence of the exporter's steps in the pipeline, each enabled in turn, and the shared counter ends as the call leaves it |
| ExportSteps.CallAmongOthers | src/export/stats_exporter.cc:433-489 | however other processes interleave, the call hands over the positions of its events in order from the first, once, and counts all of them or none |
| ExportOnce.ExtendsCarries | src/export/stats_exporter.cc:433-489 | what a call adds to a wire is the rendering of the first events of its batch, for all three backends |
| ExportOnce.WireOnce | src/export/stats_exporter.cc:433-489 | in every run of the pipeline with the worker, between calls, the wire holds exactly the rendering of the dequeued events at the positions handed over, which ascend: no event goes out twice or out of turn |
| ExportOnce.WireRecords | src/export/otel_exporter.cc:205-290 | in every run the k-th log record that went out holds all attributes of the k-th event handed over, in order and as often, but no integer that is zero |
| DrainLoop.DrainedMore | src/worker/bgworker.c:117-141 | a turn takes its batch from the front of the queue and moves the counter by it if it was taken whole |
| DrainLoop.Drain | src/worker/bgworker.c:114-144 | the loop ends whatever goes wrong; events leave the queue in order and once; it ends with an empty queue unless the last turn fell short or capture was disabled; if all went well every event is counted |

## Left out

- Weak memory: barriers are ordering points of a sequentially consistent model.
- DSA attach and detach, dynahash, LWLock and memory-context internals: an attached area, a bounded map and correct locks are taken for granted.
- Errors thrown inside the interner or the allocator (an overflow warning or a batch initialisation that throws is modelled), and an allocation failure in PschRememberNormalizedQuery after HASH_ENTER: the properties are for runs without them.
- The local batch as a class: it is a field of each producer in the pipeline's transition system, because its contents matter only together with the interleaving.
- LexConstant: the lexer's tokens are given as ordered, disjoint spans; the scanner itself is not modelled.
- NormalizeQuery: locations that overlap or lie outside the statement violate the source's assertions and are excluded by its precondition.
- Append: texts are counted by length only; the wire formats of OTLP, Arrow and ClickHouse are foreign code.
- FillBatch: that the fixed list of column names has no duplicates is a precondition; the list itself is not spelled out.
- ExportBatch: how an event is rendered as a row is a function given to the worker.
- Capture nested in a producer of the pipeline: a capture on top of the lazy initialisation of the local batch is part of the re-entrancy guard only; in the pipeline a producer has one event in hand at a time.
- Drain: producers are idle; with producers running the loop may go on as long as full batches keep coming.
- dsa_oom_count, send_failures and the exporter's timestamps: counters nothing else depends on.
- Per-backend order of events: not promised, since a contended event waits while later ones go in.
- queue_size as PschGetStats reports it: head and tail are read without the lock, so the difference may wrap; the bound is proved of the true state.
- Retry delays and sleep times, ParseExtraAttributes, event building in the hooks, GUC registration, SQL functions, signals, sockets and TLS: plumbing or easy members.
