# PEAK: verified models of its concurrent protocols

PEAK patches and unpatches live code in a running multithreaded process and times CUDA work without
stopping it. This project models the hand-built protocols that keep this safe and proves what they
guarantee in every run. Concurrent protocols are transition systems under sequentially consistent
interleaving, with one atomic access, one critical section or one system call per step and any number of
threads; lock-protected and sequential code is written as classes and loops, proved against
specification functions. Tags, tickets, epochs and generations are unbounded.

| files | what they model |
|---|---|
| `DlopenQueue`, `DlopenOwnership`, `DlopenGate`, `DlopenInvariants`, `DlopenTheorems` | the dlopen/dlclose ownership handoff: request ring, broker thread, absorbed closes, draining controller, shutdown |
| `SignalSlots`, `SignalSlotsProof` | tagged signal slots with reader pins |
| `SignalLedger`, `SignalLedgerProof` | the ticketed ledger of stop signals |
| `DetachProtocol`, `DetachClassify`, `DetachRoundTrip`, `DetachBatch`, `DetachController`, `DetachHelper`, `HeldThreads`, `PtraceWords` | classification of stopped threads, the bytes a detach and its reattach leave, batch merging, patch records and their roll-back, the helper's phases and its word-wise memory access |
| `DarwinDetach` | the Darwin controller |
| `SlotAllocator`, `SlotAllocatorProof`, `SlotAllocatorTheorems` | the lock-free CUDA event-slot allocator and its context table |
| `PendingQueue`, `PendingQueueProof`, `PendingQueueTheorems` | the sharded hand-off queue |
| `ReaderShards`, `LifecycleGate`, `CaptureRegistry`, `CaptureGate` | the two CUDA reader gates |
| `IdentityCache` | the bounded kernel-identity cache |
| `MapsScan`, `MapsLines` | the memory-map coverage scan and the text it reads |
| `Common` | runs, counting, searching |

Fields that a step never reads record history and are named as such where they are declared. Threads that
differ only in what they hold are kept as multisets of positions, or with the slot they hold.

What the models take as given: an application closes only references it holds, and a close in progress
owns one; closes issued inside PEAK's own close pass straight through; each slot lease is released at
most once and pushed only while it is not queued; the names passed to the identity cache are a function
of the key; Gum's metadata is an input, and its diagnostics, patch query and the record agree on the
prologue length; a cookie match is equality of epoch and thread; a fatal exit ends the run and a timeout
is a free choice.

Two properties hold only under a condition, and the exact condition is proved. On Linux a safe
classification guards the written bytes unless the bytes it looks at reach the end of the address space:
`WrappingEntryIsNotGuarded` shows one such request, and `GuardsExactly` proves the condition necessary and
sufficient over all requests, metadata, thread lists and record tables. On Darwin a detach attempt between
a detach and its reattach replaces the record before it looks at the bytes: `FailedDetachSpoilsReattach`
is a run in which this spoils the reattach, and `DarwinDetach.MemoryRestoredExactly` and
`DarwinDetach.EntryRestoredExactly` prove that over any list of attempts in between the round trip holds
exactly when the last report for the hook, taken for the same entry and length, gave the same active bytes
as the first. The Linux controller rolls refused records back, so there only another safe detach of the
hook matters: `DetachRoundTrip.EntryRestoredExactly`.

## Model

| member | source | states |
|---|---|---|
| DlopenQueue.PendingCountZero | src/dlopen_interceptor.c:733-750 | the pending count is zero exactly when no request is BORROWED or PINNING |
| DlopenQueue.AttachRing.Find | src/dlopen_interceptor.c:645-731 | a walk from the head across the end of the storage finds the oldest matching request, or none |
| DlopenQueue.AttachRing.Update | src/dlopen_interceptor.c:893-906 | rewriting a slot in place replaces that one queue entry |
| DlopenQueue.AttachRing.Push | src/dlopen_interceptor.c:1819-1848 | appends at the tail exactly when fewer than 256 requests are queued |
| DlopenQueue.AttachRing.Pop | src/dlopen_interceptor.c:1701-1722 | takes the oldest request exactly when it is READY or PIN_FAILED, and only then changes the queue |
| DlopenGate.AttachGate.constructor | src/dlopen_interceptor.c:131-159 | an empty closed gate with the first ticket unused |
| DlopenGate.AttachGate.Publish | src/dlopen_interceptor.c:1773-1859 | publishes a borrowed request under a fresh ticket exactly when the gate is open, the broker runs, there is room and no live request covers the handle |
| DlopenGate.AttachGate.AbsorbClose | src/dlopen_interceptor.c:883-910 | the oldest request that borrows the handle takes the reference over; without one nothing changes |
| DlopenGate.AttachGate.TakeBorrowed | src/dlopen_interceptor.c:1389-1447 | the broker claims the oldest borrowed request and gets its ticket and handle |
| DlopenGate.AttachGate.CommitPin | src/dlopen_interceptor.c:1475-1525 | the request with the ticket is settled exactly when it is still PINNING and the pin is not redundant, and leaves the pending count |
| DlopenGate.AttachGate.Requeue | src/dlopen_interceptor.c:1725-1760 | a retry is appended exactly when it owns a ready handle, the gate is open and there is room |
| DlopenGate.AttachGate.BeginDrain | src/dlopen_interceptor.c:1658-1680 | a drain begins exactly when the gate is open, nothing overlaps it and the oldest request is settled |
| DlopenInvariants.NextKeeps | src/dlopen_interceptor.c:764-3287 | every step of callbacks, closes, broker, drain, installation and shutdown keeps the whole invariant |
| DlopenTheorems.ReferencesConserved | src/dlopen_interceptor.c:764-925 | in every run, each handle's loader references are the application's plus PEAK's owned requests, pending closes, retained handles and temporary pin |
| DlopenTheorems.ModuleReferencesConserved | src/dlopen_interceptor.c:764-925 | the same conservation summed over any list of handle values, such as all of one module's |
| DlopenTheorems.AbsorbedCloseMovesOneReference | src/dlopen_interceptor.c:883-925 | an absorbed close moves one reference from the application to PEAK and changes no total; any other close goes to the loader |
| DlopenTheorems.CloseTakesFastPathExactly | src/dlopen_interceptor.c:764-882 | a close takes the lock exactly while closes are routed, the process owns the guard and some request is BORROWED or PINNING; otherwise it goes straight to the loader |
| DlopenTheorems.PendingRequestsAreLoaded | src/dlopen_interceptor.c:713-731 | a borrowing request has a live application reference, and every pending or ready request keeps its module loaded |
| DlopenTheorems.HandlesInUseAreLoaded | src/dlopen_interceptor.c:1442-1525 | while the broker or the controller uses a handle the loader holds a reference to it |
| DlopenTheorems.BrokerNeverLosesItsRequest | src/dlopen_interceptor.c:1472-1538 | the request being pinned stays queued and PINNING, so no pin is ever left over |
| DlopenTheorems.BrokerTakesOldest | src/dlopen_interceptor.c:1389-1447 | an idle broker can take the oldest borrowed request, which becomes PINNING under its own ticket and handle |
| DlopenTheorems.PinKeptExactly | src/dlopen_interceptor.c:1265-1335 | a reference that RTLD_NOLOAD gave is kept as the pin exactly when it names the module of the application's handle, and is closed otherwise |
| DlopenTheorems.HandlesNameTheirModule | src/dlopen_interceptor.c:1265-1335 | in every run a queued request's handle names the module that was opened |
| DlopenTheorems.BrokerCanStep | src/dlopen_interceptor.c:1389-1538 | a broker that has taken a request always has an enabled step |
| DlopenTheorems.PendingCounterIsExact | src/dlopen_interceptor.c:733-750 | the counter equals the number of BORROWED plus PINNING requests |
| DlopenTheorems.AbsorbsAtMostOnce | src/dlopen_interceptor.c:883-910 | after a request absorbed a close, no later close of the run is handed to it |
| DlopenTheorems.DrainExcludesCallbacks | src/dlopen_interceptor.c:947-999 | no callback is admitted while a drain runs |
| DlopenTheorems.OpenGateAdmits | src/dlopen_interceptor.c:947-999 | with the gate open, interception on and no drain under way, a callback is admitted |
| DlopenTheorems.CallbackPublishesExactly | src/dlopen_interceptor.c:1773-1859 | a callback with something unresolved publishes its handle as borrowed under a fresh ticket, except when the gate is closed, 256 requests are queued or a live request covers the handle |
| DlopenTheorems.RetryDroppedOnlyByShutdown | src/dlopen_interceptor.c:1725-1760 | when a drain lets go of a request, the request is back in the queue, whole and last, exactly when a retry was asked for, it has a handle and the gate is open; otherwise its reference is among those to be closed |
| DlopenTheorems.AttachAnswerDecides | src/dlopen_interceptor.c:3149-3168 | over the whole stay of a request in the drain's hand, the answer of the attach pass decides whether it goes back or is released |
| DlopenTheorems.PassIsBounded | src/dlopen_interceptor.c:3114-3171 | a pass takes at most min(64, initial length) requests, all of them ones it began with |
| DlopenTheorems.PassTakesNoneTwice | src/dlopen_interceptor.c:3114-3171 | two requests taken in one pass are different |
| DlopenTheorems.PassEndsExactly | src/dlopen_interceptor.c:3114-3171 | a pass ends only after min(64, initial length) requests, or at an empty queue, or at a request that is not settled |
| DlopenTheorems.DrainCanStep | src/dlopen_interceptor.c:3114-3171 | a drain under way always has an enabled step |
| DlopenTheorems.CountersBalance | src/dlopen_interceptor.c:3114-3184 | between drains, enqueued + requeued = drained + discarded + queue length |
| DlopenTheorems.ShutdownWaitsEnd | src/dlopen_interceptor.c:3231-3253 | each wait of a shutdown is over once no drain, no callback or no unsettled request is left |
| DlopenTheorems.ShutdownLeavesNothingQueued | src/dlopen_interceptor.c:3231-3265 | a completed shutdown leaves an empty queue, a stopped broker, and only retained handles and closes under way to PEAK |
| SignalSlotsProof.NextKeeps | src/detach_controller.c:1954-2134 | every step of allocation, closing, clearing, pinning and unpinning keeps the invariant |
| SignalSlotsProof.PinnedIdentityIsStable | src/detach_controller.c:2019-2057 | a pinned slot keeps the thread, epoch and allocation tag it was pinned for |
| SignalSlotsProof.PinFindsItsSlot | src/detach_controller.c:2019-2046 | a pin that succeeds is on the open slot of exactly the asked thread and current epoch |
| SignalSlotsProof.NoEntryIsSkipped | src/detach_controller.c:2019-2057 | a handler walks the map entry by entry and passes over an entry only when its slot is closed or is another thread's or epoch's |
| SignalSlotsProof.FailedSeekIsAtTheEnd | src/detach_controller.c:2019-2057 | a handler gives up only on an empty map or past the last entry it counted |
| SignalSlotsProof.MapIsInjective | src/detach_controller.c:2061-2134 | the current slot map is injective and no thread has two open slots |
| SignalSlotsProof.AllocationBeginsExactly | src/detach_controller.c:2061-2134 | an allocation begins exactly when its thread has no open slot and the map has a free or reclaimable place |
| SignalSlotsProof.AllocationSkipsOnlyBusySlots | src/detach_controller.c:2061-2134 | it takes the first slot that is neither open nor pinned, and gives up only past the last |
| SignalSlotsProof.AllocatedSlotIsOnTheMap | src/detach_controller.c:2061-2134 | a finished allocation leaves an open slot of its thread and epoch on the map |
| SignalSlotsProof.ReadersAreCounted | src/detach_controller.c:1969-1974 | the reader count is the number of pins held and never reaches the tag bits |
| SignalSlotsProof.ClearClosesEverything | src/detach_controller.c:2934-2944 | after the clearing loop no slot is open |
| SignalSlotsProof.ControllerCanStep | src/detach_controller.c:2061-2134 | a controller in the middle of an allocation or of clearing always has an enabled step |
| SignalSlotsProof.SeekerCanStep | src/detach_controller.c:2019-2057 | a handler looking for its slot can always go on or pin the slot it found |
| SignalSlotsProof.PackIsInjective | src/detach_controller.c:134-136 | comparing packed lifetime words compares tag, readers and open bit together |
| SignalSlotsProof.PackedUpdates | src/detach_controller.c:1962-1974 | adding or subtracting 2 and clearing bit 0 are a pin, an unpin and a close of the unpacked word |
| SignalLedgerProof.NextKeeps | src/detach_controller.c:2294-2686 | every step of reserving, sending, retiring, reaping and handling keeps the invariant |
| SignalLedgerProof.SentSignalKeepsItsRecord | src/detach_controller.c:2553-2593 | a sent signal keeps its own unmarked record until its handler marks it or its thread exits, and the record is retired once the epoch is released |
| SignalLedgerProof.IdentitiesAreUnique | src/detach_controller.c:2439-2467 | no two unconsumed records share epoch, thread and signal number |
| SignalLedgerProof.HandlerMarksItsOwnSignal | src/detach_controller.c:2596-2641 | a handler marks the record reserved for its own signal and never a later allocation |
| SignalLedgerProof.OwnedSignalsAreNeverUnexpected | src/detach_controller.c:2644-2660 | every delivered stop signal is accounted for, before or after its epoch is released, and none is counted as unexpected |
| SignalLedgerProof.RetiredEverything | src/detach_controller.c:2573-2593 | after the retire loop no reservation is left and every signal of the epoch still under way has a retired record |
| SignalLedgerProof.ReservationCanBegin | src/detach_controller.c:2439-2551 | while an epoch is held, a vacant or consumed record can be reserved for any thread without an unconsumed record |
| SignalLedgerProof.ReservedCanBeSent | src/detach_controller.c:2553-2571 | a reserved signal can be sent to a thread that exists, and is then under way with the identity of its record |
| SignalLedgerProof.DeadRecordCanBeReaped | src/detach_controller.c:2362-2424 | the retired record of a signal whose thread is gone can be reaped, which frees it |
| SignalLedgerProof.HandlerLooksExactly | src/detach_controller.c:2596-2641 | a handler that finds its own epoch held may mark any record of its signal, any other handler only a retired one |
| SignalLedgerProof.ControllerCanStep | src/detach_controller.c:2294-2593 | a controller in the middle of reserving, sending, retiring or reaping always has an enabled step |
| SignalLedgerProof.HandlerCanStep | src/detach_controller.c:2596-2686 | the handler of a signal under way can always go on to its next look or to its mark |
| SlotAllocator.ProbeAt | src/cuda_profiler_state.cpp:334-340 | the probed position is the start plus the offset modulo the table size |
| SlotAllocatorProof.NextKeeps | src/cuda_profiler_state.cpp:166-474 | every atomic step of acquire, release and counting keeps the invariant |
| SlotAllocatorProof.LookupGoesOn | src/cuda_profiler_state.cpp:360-379 | a lookup of a claimed context meets neither a free entry nor the end of the table before it |
| SlotAllocatorProof.ClaimKeepsTable | src/cuda_profiler_state.cpp:334-357 | a claim puts a context where its lookups will end and nowhere else |
| SlotAllocatorTheorems.PackedHeadRoundTrip | src/cuda_profiler_state.cpp:18-34 | comparing packed heads compares index and tag, and both can be read back |
| SlotAllocatorTheorems.LeasesAreExclusive | src/cuda_profiler_state.cpp:382-460 | no slot is leased twice at the same time |
| SlotAllocatorTheorems.ListedSlotsAreHome | src/cuda_profiler_state.cpp:420-433 | a slot on a free list is free, on that list alone, once, and the list is the one of its context and shard |
| SlotAllocatorTheorems.EverySlotHasAPlace | src/cuda_profiler_state.cpp:166-262 | every slot is unassigned, worked on by one thread, leased out, or on a list |
| SlotAllocatorTheorems.PopInstallsSuccessor | src/cuda_profiler_state.cpp:382-417 | a pop whose swap succeeds takes the first slot, installs its true successor and serves the asked context |
| SlotAllocatorTheorems.NothingIsLost | src/cuda_profiler_state.cpp:228-262 | the state swaps, the lease check and the context lookup after a won slot never fail |
| SlotAllocatorTheorems.ContextsAreUnique | src/cuda_profiler_state.cpp:334-357 | a context is claimed at most once |
| SlotAllocatorTheorems.ReleasedLeaseNeverReturns | src/cuda_profiler_state.cpp:228-262 | once a lease's release has begun, every later lease of the slot has a newer generation |
| SlotAllocatorTheorems.FailedAcquireTriedEverything | src/cuda_profiler_state.cpp:166-187 | in every run, an acquire that returns without a slot either found every entry of the context table taken by another context, or has seen the list of every shard of its context empty with no slot left unassigned |
| SlotAllocatorTheorems.NotedListsAreEmpty | src/cuda_profiler_state.cpp:382-394 | a list counts as seen empty only from a step at which it is empty |
| SlotAllocatorTheorems.FailedProbeSawFullTable | src/cuda_profiler_state.cpp:334-357 | an acquire that fails over its context finds every table entry taken by another context |
| SlotAllocatorTheorems.RoomForContextSuffices | src/cuda_profiler_state.cpp:334-357 | while the table has a free entry, or the context's own, an acquire does not fail over its context |
| SlotAllocatorTheorems.AcquireReturnsWhatWasAsked | src/cuda_profiler_state.cpp:166-187 | from winning a slot to handing it out, whatever runs in between, the lease is for that slot, the asked context and the slot's shard |
| SlotAllocatorTheorems.AcquireTriesInTurn | src/cuda_profiler_state.cpp:166-187 | an empty list sends an acquire from its own shard to the unassigned slots and from there to each other shard in turn |
| SlotAllocatorTheorems.ContextTableSize | src/cuda_profiler_state.cpp:113-136 | the context table has one entry per slot, up to 256, and one list per entry and shard |
| SlotAllocatorTheorems.ZeroScanMeansAllFree | src/cuda_profiler_state.cpp:265-275 | with no acquire about, an active count of zero means every assigned slot is on a free list, despite concurrent releases |
| SlotAllocatorTheorems.CountReadsBothCounters | src/cuda_profiler_state.cpp:265-275 | two steps of a count add the active and the handed-over slots of one shard |
| SlotAllocatorTheorems.QuietExactly | src/cuda_profiler_state.cpp:265-275 | a count is a quiet one exactly when it begins after the close with no acquire under way |
| SlotAllocatorTheorems.HighWaterIsBetween | src/cuda_profiler_state.cpp:313-331 | at rest the summed high-water mark is at least every active total so far and at most the assigned slots |
| SlotAllocatorTheorems.SeekersCanStep | src/cuda_profiler_state.cpp:334-417 | an acquiring thread always has an enabled step: its indices are in range and its guards cover every case |
| SlotAllocatorTheorems.AcquireGoesOn | src/cuda_profiler_state.cpp:334-417 | an acquire that goes on changes nothing but its own place |
| SlotAllocatorTheorems.ClaimGoesOn | src/cuda_profiler_state.cpp:334-357 | a claim of a free entry puts the context there and goes on with that entry |
| SlotAllocatorTheorems.HoldersCanStep | src/cuda_profiler_state.cpp:228-474 | a thread that has a slot always has an enabled step: its indices are in range and its guards cover every case |
| PendingQueueProof.NextKeeps | src/cuda_profiler_state.cpp:508-594 | every step of producers and consumer keeps the invariant |
| PendingQueueProof.ShardIsOneQueue | src/cuda_profiler_state.cpp:508-579 | each shard is one queue: local list, the consumer's hands, then the producers' stack bottom up, listing exactly the entries queued in it, each once |
| PendingQueueTheorems.StepHasOp | src/cuda_profiler_state.cpp:508-594 | every step is a won push, a take, a put-back or silent |
| PendingQueueTheorems.EveryStepIsADequeStep | src/cuda_profiler_state.cpp:508-594 | in every run, a won push adds its lease at the back of its shard, a take removes the front and returns it, a put-back adds at the front, and nothing else changes any shard |
| PendingQueueTheorems.HeldLeaseWasStored | src/cuda_profiler_state.cpp:508-532 | what an entry in flight or queued holds is the whole lease of the step that stored it, untouched since |
| PendingQueueTheorems.PopReturnsWhatWasPushed | src/cuda_profiler_state.cpp:536-579 | a pop takes the front of its shard and returns, in every field, the lease that a push or put-back stored for it |
| PendingQueueTheorems.EveryShardIsServed | src/cuda_profiler_state.cpp:536-579 | among any 256 pops of a run, successful or not, during which a shard is never empty, one takes from that shard |
| PendingQueueTheorems.NotedShardsAreEmpty | src/cuda_profiler_state.cpp:536-579 | a shard counts as passed over only from a step at which it is empty |
| PendingQueueTheorems.FailedPopSawEveryShard | src/cuda_profiler_state.cpp:536-579 | a pop that returns nothing has passed over every shard |
| PendingQueueTheorems.PopOfNonEmptyQueueSucceeds | src/cuda_profiler_state.cpp:536-579 | a pop that begins while any shard holds something returns a lease, whatever producers do meanwhile |
| PendingQueueTheorems.ConsumerCanStep | src/cuda_profiler_state.cpp:536-579 | a pop under way always has an enabled step, and detaches a stack that has not changed since it looked |
| PendingQueueTheorems.ProducerCanStep | src/cuda_profiler_state.cpp:508-532 | a push under way always has an enabled step, and wins when the head is the one it loaded |
| PendingQueueTheorems.LeaseCanBeQueued | src/cuda_profiler_state.cpp:508-594 | a lease of a slot that is not queued can be pushed at any time, and put back while no pop is under way |
| ReaderShards.HomesAreSpread | src/cuda_interceptor.cpp:623-636 | the first 192 reader threads own a shard each, the others share the remaining 64, two of them exactly when their tickets are a multiple of 64 apart |
| ReaderShards.PublishKeepsCounts | src/cuda_interceptor.cpp:623-642 | plain stores on owned shards and read-modify-writes on shared ones both keep each shard equal to its number of published readers |
| ReaderShards.WithdrawKeepsCounts | src/cuda_interceptor.cpp:668-681 | the same when a reader withdraws |
| LifecycleGate.Close | src/cuda_interceptor.cpp:698-706 | the epoch is odd afterwards and changed only if the gate was open |
| LifecycleGate.Open | src/cuda_interceptor.cpp:709-717 | the epoch is even afterwards and changed only if the gate was closed |
| LifecycleGate.NextKeeps | src/cuda_interceptor.cpp:593-717 | every step of entering, leaving, closing, opening and scanning keeps the invariant |
| LifecycleGate.ZeroScanMeansEmpty | src/cuda_interceptor.cpp:684-695 | a shard scan within one closed epoch that sums to zero proves that no wrapper is admitted |
| LifecycleGate.QuietScanIsZero | src/cuda_interceptor.cpp:684-695 | while nobody is published every scan sums to zero |
| LifecycleGate.EmptyUntilReopened | src/cuda_interceptor.cpp:593-665 | once empty the gate stays empty until it is reopened |
| LifecycleGate.SpanningReaderIsRejected | src/cuda_interceptor.cpp:643-650 | a reader whose first epoch load precedes a close is rejected by its recheck, even after a reopen |
| LifecycleGate.AdmittedExactly | src/cuda_interceptor.cpp:643-650 | a published reader is admitted exactly when the epoch is still the open one it loaded |
| LifecycleGate.ReaderCanStep | src/cuda_interceptor.cpp:593-681 | a reader entering or inside always has an enabled step |
| CaptureRegistry.AddedCounts | src/cuda_interceptor.cpp:861-886 | registering counts one capture more, fails only when full without it, and touches no other |
| CaptureRegistry.RemovedCounts | src/cuda_interceptor.cpp:889-902 | removing counts one capture less, fails only when it is not registered, and touches no other |
| CaptureRegistry.ActiveIffCounted | src/cuda_interceptor.cpp:905-913 | something is active exactly when some capture is counted |
| CaptureRegistry.Registry.Register | src/cuda_interceptor.cpp:861-886 | the array loop registers in the capture's entry or else the first unused one |
| CaptureRegistry.Registry.Remove | src/cuda_interceptor.cpp:889-902 | the array loop uncounts the capture and clears an entry that reaches zero |
| CaptureRegistry.Registry.AnyCapture | src/cuda_interceptor.cpp:905-913 | the loop finds an active capture exactly when there is one |
| CaptureGate.NextKeeps | src/cuda_interceptor.cpp:734-940 | every step of readers and capture calls keeps the invariant |
| CaptureGate.TransitionExcludesReaders | src/cuda_interceptor.cpp:915-925 | from a begin-transition's return to its end no reader is inside an admitted timing section and the gate is blocked |
| CaptureGate.AdmittedExactly | src/cuda_interceptor.cpp:738-776 | a published reader enters exactly when it then finds the gate unblocked |
| CaptureGate.BlockedWhileCapturing | src/cuda_interceptor.cpp:928-940 | the gate is blocked while any transition is under way or any capture is registered, and the count is exact |
| CaptureGate.NoWakeupIsMissed | src/cuda_interceptor.cpp:806-827 | behind every sleeping transition stands a reader that is still counted or on its way to broadcast |
| CaptureGate.LeaverLooksForWaiters | src/cuda_interceptor.cpp:806-827 | a leaving reader looks for waiters exactly when it owns its shard or was the last one there, and goes on to wake them exactly under a blocked gate |
| CaptureGate.ReaderCanStep | src/cuda_interceptor.cpp:738-827 | a reader entering or leaving always has an enabled step, at most waiting for the mutex |
| CaptureGate.CallCanStep | src/cuda_interceptor.cpp:915-940 | a capture call always has an enabled step, at most waiting for the mutex |
| CaptureGate.KeepsBroadcast | src/cuda_interceptor.cpp:821-826 | a broadcast leaves no transition asleep and keeps the invariant |
| CaptureGate.EndOpensExactly | src/cuda_interceptor.cpp:928-940 | an ending transition opens the gate exactly when no transition, capture or lost tracking is left |
| CaptureGate.TrackedCountsTheEdge | src/cuda_interceptor.cpp:1066-1098 | a tracked call changes its capture's count by exactly the edge it observed |
| CaptureGate.EndCountsTheEdge | src/cuda_interceptor.cpp:1066-1098 | in every run a call's end counts exactly the edge it observed, for its own capture only, and changes nothing when the edge cannot be counted |
| CaptureGate.TrackingLostExactly | src/cuda_interceptor.cpp:1066-1098 | tracking is lost exactly at the end of an observed call whose status, edge or registry update cannot be trusted |
| CaptureGate.TerminalStaysBlocked | src/cuda_interceptor.cpp:928-940 | once tracking is lost under a blocked gate it never opens again |
| DetachClassify.ExaminedIsOutside | src/detach_controller.c:4611-4763 | a thread past the first entry byte is accepted only by a reattach, and only to be stepped out |
| DetachClassify.PlanIsAboutThreads | src/detach_controller.c:4617-4630 | every planned instruction is about a reported thread, and a plan exists only if the threads are all different |
| DetachClassify.SafePlanGuardsTheWrite | src/detach_controller.c:4593-4781 | a safe plan ends with one write at the canonical entry, of the function's own bytes or, for a reattach, of the recorded ones, and every thread strictly inside the entry bytes has a step-out instruction |
| DetachClassify.WrappingEntryIsNotGuarded | src/detach_controller.c:4204-4218 | entry bytes that wrap around the address space are not recognised |
| DetachClassify.GuardsExactly | src/detach_controller.c:4204-4218 | for an entry Gum reports, every safe classification guards its write if and only if the bytes it looks at end before the end of the address space (or there is no second byte, or no length that can be written) |
| DetachClassify.NoThreadLeftInGum | src/detach_controller.c:4726-4754 | when more than entry bytes change, every thread in Gum's code is sent back to the function from the start of the enter trampoline |
| DetachClassify.PlacedExactly | src/detach_controller.c:4318-4405 | which part of the hook's code a program counter is in, by the reported addresses alone and in plain arithmetic |
| DetachClassify.ExaminedExactly | src/detach_controller.c:4611-4763 | exactly when a thread is left alone, stepped out of the entry, sent back to the function, or refused and how |
| DetachClassify.CanonicalExactly | src/detach_controller.c:4421-4439 | the function's address is the one Gum reports, else the start of the blocked range, else the requested one |
| DetachClassify.IdleProcessIsSafe | src/detach_controller.c:4593-4781 | with every thread out of the way a request is refused exactly when it has nothing to write: no reported patch of 1 to 32 bytes, no room for a record, or no record for the reattach |
| DetachClassify.FirstByteIsSafe | src/detach_controller.c:4611-4763 | a thread at the first entry byte is left alone by the operations that only swap entry bytes |
| DetachClassify.InteriorThreadIsSteppedOut | src/detach_controller.c:4611-4763 | a reattach takes a thread inside the entry bytes along and steps it out of exactly those bytes |
| DetachClassify.TrampolineThreadIsSentBack | src/detach_controller.c:4726-4754 | a thread at the start of the enter trampoline is sent back to the function when the trampoline goes |
| DetachClassify.ReattachUsesDetachRecord | src/detach_controller.c:4441-4545 | a reattach at the same address writes back the active bytes that the detach recorded |
| DetachRoundTrip.DetachPutsOriginal | src/detach_controller.c:4491-4530 | a safe detach, shutdown or revert puts the function's own bytes at its entry and touches no other byte |
| DetachRoundTrip.ReattachPutsRecord | src/detach_controller.c:4456-4485 | a safe reattach puts the recorded bytes at the recorded entry and touches no other byte |
| DetachRoundTrip.OthersPutNothing | src/detach_controller.c:4441-4455 | attaching and replacing write nothing and keep the records |
| DetachRoundTrip.EntryRestoredExactly | src/detach_controller.c:4441-4545 | a safe detach, any attempts for any hooks and a safe reattach: the active bytes are back if and only if the last safe detach of the hook was told the same bytes as the first, and no other byte is touched |
| DetachRoundTrip.DetachReattachRestoresMemory | src/detach_controller.c:4441-4545 | without another detach of the hook in between, every byte of memory is restored |
| DetachBatch.FindConflict | src/detach_controller.c:4784-4819 | without conflict the candidate is in the list or meets nothing in it; a conflict has a differing instruction |
| DetachBatch.WritesMeetExactly | src/detach_controller.c:4784-4819 | writes below the end of the address space conflict exactly when they have a byte in common |
| DetachBatch.MovesMeetExactly | src/detach_controller.c:4784-4819 | other instructions conflict exactly when they move the same thread in the same way |
| DetachBatch.AppendPlan | src/detach_controller.c:4856-4899 | a merged list starts with the batch, contains exactly the instructions of the batch and the plan and stays consistent; a refusal has a conflict or exceeds the limit |
| DetachBatch.RefusedPlansDoNotFit | src/detach_controller.c:4856-4899 | a refused plan shows that the plans cannot be carried out together |
| DetachBatch.CoveredByteIsWritten | src/detach_controller.c:357-371 | with consistent writes a covered byte is the one its write puts there, wherever the write stands |
| DetachBatch.WriteOrderIsIrrelevant | src/detach_controller.c:4856-4899 | consistent lists with the same instructions write the same bytes in any order |
| DetachController.ConsistentMeans | src/detach_controller.c:4784-4899 | a merged list has at most one program-counter change and one step-out per thread |
| DetachController.NoByteTwice | src/detach_controller.c:4784-4899 | a merged list writes no byte twice |
| DetachController.Controller.FindRecord | src/detach_controller.c:4007-4030 | finds the hook's record, or takes the first unused one, or reports none |
| DetachController.Controller.AppendPatch | src/detach_controller.c:4441-4545 | appends one write at the canonical entry, of the function's own bytes or, for a reattach, of the recorded ones, and updates the record as specified; a refusal leaves exactly the record change of the branch that refused |
| DetachController.Controller.Classify | src/detach_controller.c:4593-4781 | the loop over threads computes the specified plan |
| DetachController.Controller.Prepare | src/detach_controller.c:5119-5196 | succeeds exactly when the request classifies as safe, no foreign signal arrived and the backend applied the plan (or there was none); any refusal leaves the record table exactly as it was |
| DetachController.Controller.PrepareNext | src/detach_controller.c:5507-5692 | one request of a batch: prepared exactly when valid and safe in its turn, and refused only if the plans do not fit together |
| DetachController.Controller.ClassifyAll | src/detach_controller.c:5507-5692 | the loop over requests merges exactly the plans of those that are safe in turn |
| DetachController.Controller.PrepareBatch | src/detach_controller.c:5507-5692 | on success the prepared requests are exactly the valid ones that classify as safe in turn, the batch holds exactly their plans with one step-out and one program-counter change per thread, and the records are those of the classifications in turn; it succeeds whenever the plans fit together, one is safe and the backend went along; a refusal leaves the record table as it was |
| DetachController.DropPairs | src/detach_controller.c:5391-5407 | the requests that stay differ in hook and in function, and each dropped one shares its hook or its function with another |
| DetachController.DropMarked | src/detach_controller.c:5439-5483 | exactly the requests that share hook or canonical function with another valid one are dropped |
| DetachController.NoThreadInsideTheWrite | src/detach_helper.c:1164-1221 | when the helper writes, no thread of the snapshot has its program counter strictly inside the written bytes |
| DetachController.SafePlanIsAccepted | src/detach_helper.c:996-1050 | with the reported threads held, the helper's checks accept every instruction of a safe plan |
| DetachController.MutateEntry | src/detach_controller.c:4593-4781 | the same from classification to the last write, for every answer of the kernel to steps, writes and register accesses |
| DetachHelper.StepThreadOut | src/detach_helper.c:1052-1108 | stepping succeeds exactly when at most 8, or at most the range's size plus 4, steps leave the range, and then the program counter is out of it |
| DetachHelper.ValidExactly | src/detach_helper.c:996-1050 | the helper accepts exactly moves of threads it holds, step-outs of 1 to 32 bytes that neither start at zero nor wrap, and writes of 1 to 32 bytes not at zero |
| DetachHelper.Helper.StepOutOne | src/detach_helper.c:1052-1108 | one step-out moves only its own thread and succeeds exactly when the thread can leave |
| DetachHelper.Helper.ValidatePhase | src/detach_helper.c:1175-1183 | the checks before anything is done pass exactly when every instruction is valid and the registers of every thread to be moved can be read |
| DetachHelper.Helper.StepOutPhase | src/detach_helper.c:1191-1202 | afterwards every stepped thread is out of its range and no other thread has moved; it succeeds exactly when every thread can leave |
| DetachHelper.Helper.WritePhase | src/detach_helper.c:1209-1221 | the writes happen in list order, all at the same program counters; it succeeds exactly when every write does |
| DetachHelper.Helper.SetPcPhase | src/detach_helper.c:1223-1235 | program counters end as the list sets them, a failure leaves those of a prefix, and it succeeds exactly when every set is confirmed |
| DetachHelper.SetPcsHold | src/detach_helper.c:1223-1235 | with at most one set per thread, every thread ends where its instruction puts it |
| DetachHelper.Helper.Apply | src/detach_helper.c:1164-1238 | nothing is written before every step-out is done; it succeeds exactly when the list is valid, the registers can be read, no stray thread shows up and every step-out, write and set goes through, and then everything is written in order and every thread is at its set program counter |
| HeldThreads.RetainedExactly | src/detach_helper.c:135-181 | a thread stays in the table exactly when it is attached and its detach was refused while it exists |
| HeldThreads.AllReleased | src/detach_helper.c:135-181 | the table empties exactly when no detach was refused |
| HeldThreads.Table.Add | src/detach_helper.c:609-613 | a seized thread is appended while there is room |
| HeldThreads.Table.Find | src/detach_helper.c:452-460 | the first entry of the thread, or none |
| HeldThreads.Table.Release | src/detach_helper.c:135-181 | compaction in place keeps exactly the refused threads, in order |
| PtraceWords.Tracee.Write | src/detach_helper.c:774-816 | the word loop equals a plain byte-range update; a refused access leaves a prefix of it |
| PtraceWords.Tracee.WriteNext | src/detach_helper.c:783-812 | one word extends the written prefix of the range and changes nothing else |
| PtraceWords.Tracee.Read | src/detach_helper.c:868-902 | the word loop returns exactly the bytes of the range |
| PtraceWords.Tracee.WriteVerified | src/detach_helper.c:1111-1128 | success means that the range holds exactly the bytes |
| PtraceWords.SpliceIsPatch | src/detach_helper.c:802-810 | writing back a spliced word changes only the spliced bytes |
| DarwinDetach.EntryRestoredExactly | src/detach_controller_darwin.c:538-627 | after a successful detach, attempts of any hooks that fail or succeed at other entries, and a successful reattach, the entry bytes are restored if and only if the last report in between gave the first active bytes, and the reattach touches no other byte |
| DarwinDetach.MemoryRestoredExactly | src/detach_controller_darwin.c:538-627 | with any list of failed attempts in between, detach or reattach, of any hooks, all of memory is restored if and only if the last report gave the first active bytes |
| DarwinDetach.RoundTripHappens | src/detach_controller_darwin.c:538-627 | a concrete run that meets every premise of the round trip, and it holds |
| DarwinDetach.FailedDetachSpoilsReattach | src/detach_controller_darwin.c:542-577 | a concrete run in which a failed second detach makes the reattach write other bytes |
| DarwinDetach.DetachReattachRestoresMemory | src/detach_controller_darwin.c:538-627 | a successful detach, failed attempts other than detaches and a successful reattach restore every byte |
| DarwinDetach.FailureChangesNoByte | src/detach_controller_darwin.c:630-749 | a failed prepare changes no byte, and a failed reattach no record |
| DarwinDetach.DetachExactly | src/detach_controller_darwin.c:538-749 | exactly when a detach succeeds, and that it then leaves the original bytes at the entry and every other byte alone |
| DarwinDetach.ReattachExactly | src/detach_controller_darwin.c:538-749 | exactly when a reattach succeeds, and that it then leaves the recorded active bytes at the entry and every other byte alone |
| DarwinDetach.Controller.FindRecord | src/detach_controller_darwin.c:133-156 | finds the hook's record or takes the first unused one |
| DarwinDetach.Controller.BuildPlan | src/detach_controller_darwin.c:538-627 | builds the specified plan and records |
| DarwinDetach.Controller.SuspendOne | src/detach_controller_darwin.c:294-360 | the controller's own thread, a held one and a vanished one are passed over; a refusal has a full table or a failed suspension |
| DarwinDetach.Controller.SuspendSnapshot | src/detach_controller_darwin.c:294-360 | suspends each thread at most once, never the controller's own and only ones that are listed and answered; success leaves every listed thread that exists held; it succeeds when there is room and none refuses |
| DarwinDetach.Controller.AvoidInterior | src/detach_controller_darwin.c:363-411 | succeeds exactly when the range does not wrap and every held thread's program counter is readable and not strictly inside it |
| DarwinDetach.Controller.ResumeThreads | src/detach_controller_darwin.c:414-440 | every held thread is resumed exactly once, and the answer says whether the kernel went along every time |
| DarwinDetach.Controller.BytesEqual | src/detach_controller_darwin.c:510-520 | compares exactly the byte range |
| DarwinDetach.Controller.WritePatch | src/detach_controller_darwin.c:523-535 | writes the byte range and nothing else |
| DarwinDetach.Controller.Cancel | src/detach_controller_darwin.c:455-469 | a cancelled window leaves nothing suspended, mapped or gated |
| DarwinDetach.Controller.OpenWindow | src/detach_controller_darwin.c:630-749 | stops the threads and compares the bytes; unless both go well nothing stays suspended, mapped or gated |
| DarwinDetach.Controller.PreparePlan | src/detach_controller_darwin.c:630-749 | the rest of a prepare that has a plan does as specified, and fails with stoppable threads only if the specification does |
| DarwinDetach.Controller.Prepare | src/detach_controller_darwin.c:630-749 | success swaps the bytes with every listed thread but the controller's held and none inside them; failure changes no byte, leaves no thread suspended and, with threads that can be stopped, is one the specification demands |
| DarwinDetach.Controller.PrepareGuarded | src/detach_controller_darwin.c:643-649 | a prepare during a mutation is refused and changes nothing |
| DarwinDetach.Controller.Finish | src/detach_controller_darwin.c:917-966 | every held thread is resumed exactly once, even for a mismatched request; it succeeds exactly for a matching request whose threads could all be resumed |
| IdentityCache.Cache.constructor | src/cuda_profiler_state.cpp:633-647 | both tables start empty with the configured capacity |
| IdentityCache.DisplayNameMeans | src/cuda_profiler_state.cpp:36-49 | the display name is the given one cut to 255 characters, or a label when there is none |
| IdentityCache.Cache.Identify | src/cuda_profiler_state.cpp:682-748 | the answer is the uncached one except for the monitor-all overflow label; a kernel matches exactly when everything is monitored or its name is a target; with room the key is cached, a cached key changes nothing, a matching key displaces a negative one, and no matching entry is evicted |
| IdentityCache.Cache.Evict | src/cuda_profiler_state.cpp:708-726 | one entry makes room for another and both tables stay within capacity with disjoint keys |
| IdentityCache.Cache.CountFull | src/cuda_profiler_state.cpp:707-743 | each time the table is full exactly one outcome is counted |
| IdentityCache.Cache.Cached | src/cuda_profiler_state.cpp:752-779 | finds exactly the cached keys and answers as Identify would |
| MapsScan.OverflowTest | src/exec_memory.c:61-63 | the test before a digit is added is exactly that the sum would not fit |
| MapsScan.ParseHex | src/exec_memory.c:48-73 | the number is refused exactly when it has no digits or does not fit |
| MapsScan.ParseLine | src/exec_memory.c:76-104 | the loop computes the specified parse of a line; RenderedIsParsed and ParsedIsRendered say what that parse is |
| MapsLines.SpelledIsParsed | src/exec_memory.c:48-73 | a spelled hexadecimal number is read as its value, or refused exactly when it does not fit |
| MapsLines.ParsedIsSpelled | src/exec_memory.c:48-73 | what is read as a number is spelled there |
| MapsLines.RenderedIsParsed | src/exec_memory.c:76-104 | a rendered line parses to its start, end and readability, or to nothing when the range is empty or does not fit |
| MapsLines.ParsedIsRendered | src/exec_memory.c:76-104 | every line that parses is the rendering of the mapping it parses to |
| MapsScan.FinishLine | src/exec_memory.c:182-213 | a finished line moves the coverage on, or decides |
| MapsScan.Feed | src/exec_memory.c:162-181 | one character through the line buffer, with lines of 1024 characters and more skipped |
| MapsScan.RangeReadable | src/exec_memory.c:107-225 | the answer depends only on the text the reads deliver together, not on how it is cut |
| MapsScan.ValidIsListed | src/exec_memory.c:107-225 | a range called valid lies byte for byte in mappings listed as readable |
| MapsScan.ListedIsValid | src/exec_memory.c:107-225 | for an ordered, well-formed map, full readable coverage is called valid |
| MapsLines.ValidIsShown | src/exec_memory.c:107-225 | each byte of a range called valid stands in a line of the text, at most 1023 characters long, that spells a range with the byte and permissions that begin with r |
| MapsLines.ValidExactlyWhenShown | src/exec_memory.c:107-225 | for a map of ordered lines a range is called valid exactly when every byte of it is shown readable |
| MapsLines.UnknownExactly | src/exec_memory.c:107-225 | the answer is unknown exactly when the map cannot be opened for a range that is neither empty, null nor wrapping |

## Left out

- Update in place of the lock-free structures (slots, free lists, signal slots, ledger, gates, pending queue): they are modelled as values that steps replace, one atomic access at a time.
- Weak memory orderings: steps interleave sequentially consistently.
- Wrap-around of tickets, tags, epochs and generations, and the exhaustion checks that refuse at their end.
- File names, binding flags, scopes and drop counters of dlopen requests; merging into a queued request changes only those.
- A second try_enter on a timing guard that is already entered, which changes nothing.
- The slot allocator's acquire-if-accepting wrapper, which is an acquire followed by a release, and its lease snapshot.
- Resetting the allocator, the gates and the capture registry between sessions.
- Signal-slot payload fields (arrival, rewrite, evacuation) and the wait for release acknowledgements.
- The signal backend's breakpoint evacuation and what stepped application code does next.
- Trampoline quiescence, hook installation and revert in the dlopen interceptor.
- Ptrace attachment, helper launch, the wire protocol, backend selection and process memory through /proc.
- Validity checks of a batch before its threads are stopped, other than the two passes over duplicate targets.
- CUDA launch wrappers, harvesting, event pools, report rendering, MPI and other listeners.
- Fork children, errno, clocks, logging and test hooks.
