# Emby auth gateway: verified models

This project models the parts of the gateway where correctness spans several functions or goroutines, and
proves what they promise.

**Adaptive media buffering** (`MediaBuffer*.dfy`, `MediaCopy.dfy`, `BufferedCopy*.dfy`, `MediaCopyQueue.dfy`).
The allocator hands 32 KiB chunks to media requests within a hard byte budget: equal-share targets,
per-request debt when targets shrink, FIFO waiters, one pending grant per request, leases stamped with a
generation. `MediaBufferModel.dfy` gives each critical section as a function on a `Pool`;
`MediaBufferInvariant.dfy`, `MediaBufferSchedule.dfy`, `MediaBufferOperations.dfy` and
`MediaBufferClose.dfy` prove what each keeps; `MediaBufferRuns.dfy` what holds over whole runs, and
`MediaBufferPromises.dfy` what the requests get: their shares, the reasons for waiting, the order of service.
`MediaBuffer.dfy` is the allocator as it is written, with objects updated in place and the waiter list
filtered inside its own array, proved to run those functions; every place where the program would panic is
an assertion there. `MediaCopy.dfy` is the sequential copy loop and its split into a producer and a consumer
of events, and `MediaCopyReference.dfy` says what a copy must deliver and report in terms of its reads and writes
alone. `BufferedCopyModel.dfy` is the concurrent copy as a state machine: each mutex section, channel
operation, read and write is a step, both contexts and the environment are explicit, readers and writers are
arbitrary scripts (and unconstrained once a cancellation may disturb them), and memory that the request does
not own may be overwritten at any moment. `BufferedCopyInvariant.dfy` and `BufferedCopyStory.dfy` prove its
invariant; `BufferedCopyResults.dfy` and `BufferedCopyTermination.dfy` the promises: agreement with the
sequential copy, a single holder for every buffer, no deadlock, bounded length, everything given back.
`BufferedCopyAllocator.dfy` shows that the allocator, with any other requests on it, serves every move of
the copy as the state machine assumes, and `BufferedCopyJoint.dfy` carries the promises to whole runs of copy,
pool and other requests together. `BufferedCopySharing.dfy` closes the system: any number of copies start, run
and are closed on one allocator and write into the same chunks, and what each assumes of the others is proved of
them. `MediaCopyQueue.dfy` is the compacting queue as an object, and
`MediaBufferLive.dfy` the packed word that observers read.

**Credential rotation** (`UpstreamAuth.dfy`, `UpstreamAnswers.dfy`, `UpstreamStore.dfy`). Any number of leaders load, log in,
compare-and-swap, reload, clean up and retire, next to other writers of the same tuple. Every login is taken
to yield a token, and every writer a generation, never issued before. A store error is ambiguous: the swap
may or may not have been applied by then, but is not applied later. The store itself, as an object with its
sources and endpoints, is in `UpstreamStore.dfy`.

**Refinements.** `ImageValidator.dfy` (streaming against whole-body image check), `NegativeScan.dfy` (paged
negative filter against filter-then-page), `EndpointTopology.dfy` (endpoint transactions on a table with
unique indexes), `AuthHeader.dfy` and `AuthHeaderForms.dfy` (the Emby authorization header,
printed and as clients write it), `PlaybackGuard.dfy` (denials and audit
cooldowns).

Four statements that the code suggests turned out not to hold everywhere; the model follows the code and gives
the exact condition and a concrete case for each. The negative scan can return one item from beyond the
2000 that it means to scan (`NegativeScan.ScanIsFilterThenPage`, `NegativeScan.ItemBeyondTheLimit`), because
its limit is looked at only after an item was appended. And the comment at
`internal/controlplane/upstream_endpoint.go:135-139` promises that disabling an endpoint never strands an
enabled route rule, but the guard looks up the rules of the new key, so an update that renames the endpoint
does (`EndpointTopology.RuleIsStrandedByRename`, `EndpointTopology.RenameStrandsARule`). A caller whose refresh
names a token that was never issued, on a store that never had a session, can be left unserved by its own
leader's login, and only such a caller can (`UpstreamAuth.OwnLoginServesExactly`, `UpstreamAuth.NamedInAdvance`).
And a header that spells a named field only in another letter case gains a field when it is parsed and printed
again (`AuthHeader.PrintingAgainExactly`, `AuthHeader.LoneLowerCaseToken`).

## Model

| member | source | states |
|---|---|---|
| MediaBufferRuns.ApplyKeepsSteady | internal/gateway/media_buffer.go:125-293 | any operation on any steady pool keeps the whole invariant (byte balance, chunk placement, counters equal to a recount, waiter list, equal-share targets) and leaves no listed waiter grantable; total debt can only grow when a request registers; other requests see nothing but a possible grant |
| MediaBufferRuns.After | internal/gateway/media_buffer.go:125-293 | the pool after any legal run from an empty one is steady: its result carries the invariant |
| MediaBufferRuns.PrefixLegal | internal/gateway/media_buffer.go:125-293 | a run is legal step by step, each state being the last one with one operation applied |
| MediaBufferInvariant.InitialPoolInv | internal/gateway/media_buffer.go:94-99 | a new allocator with an aligned budget of at least one chunk satisfies the invariant |
| MediaBufferSchedule.ScheduleIsFairAndWorkConserving | internal/gateway/media_buffer.go:341-376 | a scheduling pass keeps the ungranted waiters in their order, grants nobody else anything, leaves nobody grantable, and never serves a later waiter while an earlier one is skipped only for lack of pool space |
| MediaBufferSchedule.ScheduleKeeps | internal/gateway/media_buffer.go:341-376 | a pass keeps accounting, placement and the waiter list, and moves no debt |
| MediaBufferInvariant.GrantKeepsCore | internal/gateway/media_buffer.go:346-370 | handing the next chunk to a grantable waiter keeps bytes, counters, chunk placement and generations |
| MediaBufferInvariant.ReturnKeepsCore | internal/gateway/media_buffer.go:427-436 | taking a chunk back keeps bytes, counters, chunk placement and generations, and adds no debt |
| MediaBufferInvariant.ReaccountCounters | internal/gateway/media_buffer.go:438-456 | removing a request's counters, changing it and adding them again keeps the three counters equal to a recount |
| MediaBufferOperations.RequestSettles | internal/gateway/media_buffer.go:175-191 | asking: a closed request is answered with the closed error and a pending or awaited grant with success, both changing nothing; otherwise the request waits or is granted at once |
| MediaBufferOperations.ReceiveSettles | internal/gateway/media_buffer.go:505-510 | taking the notification changes nothing but the slot |
| MediaBufferOperations.AcceptSettles | internal/gateway/media_buffer.go:193-210 | accepting moves the pending lease, which names this request and a chunk it did not hold, into its chunk set; without one or when closed nothing changes |
| MediaBufferOperations.CancelSettles | internal/gateway/media_buffer.go:212-230 | giving up clears waiting, pending and the notification, returning a granted chunk to the pool |
| MediaBufferOperations.ReleaseSettles | internal/gateway/media_buffer.go:232-247 | a release succeeds exactly for a lease that the request holds under its generation; any other is refused with the pool unchanged |
| MediaBufferOperations.RegisterSettles | internal/gateway/media_buffer.go:125-142 | registering appends one empty request and rebalances the others |
| MediaBufferOperations.RebalanceSettles | internal/gateway/media_buffer.go:317-332 | after targets are recomputed and a pass is run the pool is steady, so that every target is the same share (`MediaBufferPromises.ShareIsLargest` says which) and no waiter is grantable |
| MediaBufferOperations.RaisedTargetsShrinkDebt | internal/gateway/media_buffer.go:317-339 | raising every target never increases total debt |
| MediaBufferClose.CloseSettles | internal/gateway/media_buffer.go:254-293 | closing leaves the request closed and empty, adds no debt, and serves the others; closing a closed request changes nothing |
| MediaBufferClose.VacateKeeps | internal/gateway/media_buffer.go:262-273 | before it leaves the registry a closing request has given back its wait, its pending grant and every accepted chunk, in whatever order the map yields them |
| MediaBufferClose.ShareGrows | internal/gateway/media_buffer.go:317-325 | with one request fewer the equal share does not shrink |
| MediaBufferRuns.SharesFitBudget | internal/gateway/media_buffer.go:317-325 | n equal shares together never exceed the hard budget |
| MediaBufferRuns.PoolExhaustionNeedsDebt | internal/gateway/media_buffer.go:466-480 | a waiter is blocked by an exhausted pool only while some other registered request is in debt |
| MediaBufferRuns.DebtFreeWaitersAreAtTarget | internal/gateway/media_buffer.go:378-386 | in a debt-free pool every remaining waiter owns exactly its target |
| MediaBufferRuns.IndebtedIsSomeDebt | internal/gateway/media_buffer.go:438-456 | the indebted counter and the debt bytes are positive together, exactly when some request is in debt |
| MediaBufferRuns.CountersFitInt64 | internal/gateway/media_buffer.go:346-402 | every byte count the allocator keeps or compares, a request's or the pool's with one more chunk included, stays in 64 bits for any budget below 2^63 minus one chunk |
| MediaBufferRuns.LeasesOnlyAdvance | internal/gateway/media_buffer.go:193-293 | no operation takes a lease back to an earlier stage of its life: not granted, pending, accepted, gone |
| MediaBufferRuns.LeasesAdvanceOverRuns | internal/gateway/media_buffer.go:193-293 | the same over any stretch of any run |
| MediaBufferRuns.ReleaseAnswers | internal/gateway/media_buffer.go:232-247 | a release is answered with success exactly when the lease is accepted, by its own open request, and otherwise leaves the pool as it was |
| MediaBufferRuns.LeaseReleasedAtMostOnce | internal/gateway/media_buffer.go:232-247 | over any run, a lease once released is refused ever after, even when its chunk was granted again, and the refusal changes nothing |
| MediaBufferRuns.ClosedForever | internal/gateway/media_buffer.go:254-293 | once closed a request owns nothing, is in no list and stays so whatever is tried |
| MediaBufferPromises.ShareIsLargest | internal/gateway/media_buffer.go:317-332 | in a steady pool every registered request's target is the largest whole number of chunks, up to 512 MiB, that the budget has for each of them |
| MediaBufferPromises.BlockerExactly | internal/gateway/media_buffer.go:466-480 | in a steady pool a request is told no blocker exactly if it does not wait; else debt if it owns more than its target, the target if it owns just that, and an exhausted pool, whose whole budget is then lent, if it owns less |
| MediaBufferPromises.ApplyKeepsArrivalOrder | internal/gateway/media_buffer.go:175-191 | whatever is done, requests wait in the order in which they asked: those that still wait keep their order, and a new one stands behind them |
| MediaBufferPromises.ApplyIsThrifty | internal/gateway/media_buffer.go:388-402 | a chunk is made only when none is free: after an operation that allocates more, none is; and allocated bytes never shrink |
| MediaBufferHeap.NewMediaBuffer | internal/gateway/media_buffer.go:94-99 | gives an allocator object that stands for the empty pool exactly for an aligned budget of at least one chunk, and an error for any other |
| MediaBufferHeap.MediaBuffer.Register | internal/gateway/media_buffer.go:125-142 | the object's registration runs the pool's and returns a fresh request |
| MediaBufferHeap.MediaBuffer.RequestOptional | internal/gateway/media_buffer.go:175-191 | the object's request runs the pool's, with the same answer |
| MediaBufferHeap.MediaBuffer.ReceiveNotification | internal/gateway/media_buffer.go:505-510 | a receive empties the slot and says whether it was full |
| MediaBufferHeap.MediaBuffer.AcceptOptional | internal/gateway/media_buffer.go:193-210 | the object's accept runs the pool's and returns the very lease that was pending |
| MediaBufferHeap.MediaBuffer.CancelOptional | internal/gateway/media_buffer.go:212-230 | the object's cancel runs the pool's |
| MediaBufferHeap.MediaBuffer.ReleaseOptional | internal/gateway/media_buffer.go:232-247 | the object's release runs the pool's for whatever lease it is given, nil chunks and foreign ones included |
| MediaBufferHeap.MediaBuffer.Close | internal/gateway/media_buffer.go:254-293 | the object's close runs the pool's, releasing the accepted chunks in some order |
| MediaBufferHeap.MediaBuffer.Schedule | internal/gateway/media_buffer.go:341-376 | the pass, filtering the waiter array over its own backing store, runs the pool's pass |
| MediaBufferHeap.MediaBuffer.RecomputeTargets | internal/gateway/media_buffer.go:317-332 | the loop over requests runs the pool's retargeting, which gives the share that `MediaBufferPromises.ShareIsLargest` describes |
| MediaBufferHeap.MediaBuffer.RemoveWaiter | internal/gateway/media_buffer.go:482-494 | the waiter is found, so its panic cannot happen, and the gap is closed in order |
| MediaBufferHeap.MediaBuffer.DeleteWaiter | internal/gateway/media_buffer.go:482-494 | shifting the array down removes exactly the first occurrence |
| MediaBufferHeap.MediaBuffer.CanGrant | internal/gateway/media_buffer.go:378-386 | the object's test for a grant is the pool's |
| MediaBufferHeap.MediaBuffer.TakeChunk | internal/gateway/media_buffer.go:388-402 | the last free chunk, or a new one within the budget, or none |
| MediaBufferHeap.MediaBuffer.GrantChunk | internal/gateway/media_buffer.go:353-369 | a grant runs the pool's, and its notification slot is empty, so its panic cannot happen |
| MediaBufferHeap.MediaBuffer.ReclaimPending | internal/gateway/media_buffer.go:412-420 | a pending lease is always this request's own and current, so its panic cannot happen |
| MediaBufferHeap.MediaBuffer.PendingLeaseIsGood | internal/gateway/media_buffer.go:412-416 | why: a pending lease names its request, and its chunk carries its owner and generation |
| MediaBufferHeap.MediaBuffer.ValidAcceptedLease | internal/gateway/media_buffer.go:404-410 | the test on objects is the test on the pool |
| MediaBufferHeap.MediaBuffer.ReleaseOwnedChunk | internal/gateway/media_buffer.go:427-436 | the chunk goes to the end of the free list and the counters follow |
| MediaBufferHeap.MediaBuffer.AddCounters | internal/gateway/media_buffer.go:438-446 | the three counters gain the request's share |
| MediaBufferHeap.MediaBuffer.RemoveCounters | internal/gateway/media_buffer.go:448-456 | the three counters lose the request's share |
| MediaBufferHeap.MediaBuffer.Depart | internal/gateway/media_buffer.go:282-287 | the closing request is found in the registry, so its panic cannot happen, and is dropped from it |
| MediaBufferHeap.MediaBuffer.AccountingHolds | internal/gateway/media_buffer.go:512-523 | every condition of the accounting assertion holds between operations |
| MediaCopy.CopyMediaBody | internal/gateway/media_copy.go:49-111 | the loop over arbitrary read and write scripts gives the result and the delivered bytes of the sequential copy, at the first read that ends it |
| MediaCopyReference.SequentialRunsExactly | internal/gateway/media_copy.go:49-111 | the copy goes on exactly as long as each read has a possible count, no error, does not run past the expected length and is not the hundredth empty one in a row, and each write takes everything |
| MediaCopyReference.SequentialStops | internal/gateway/media_copy.go:49-111 | the first read that does not pass ends the copy with counts, direction, error and bytes given by the reads and writes alone: a failed write comes before the source's own ending |
| MediaCopyReference.DeliversTheSource | internal/gateway/media_copy.go:49-111 | what is delivered is a prefix of the concatenated reads, never longer than expected; without a failed write it is all that was read, cut off at the expected length when the source ran past it |
| MediaCopyReference.ProducesTheSource | internal/gateway/media_buffer_copy.go:219-297 | the producer's events carry just these bytes too, and it ends exactly at the first read that ends the source |
| MediaCopyReference.EachEndingHasItsOutcome | internal/gateway/media_copy.go:113-145 | which outcome each way to end is given, with errors of the reader and the writer wrapped any number of times |
| MediaCopyReference.IsWrapped | internal/gateway/media_copy.go:113-145 | of a wrapped error only what is wrapped counts |
| MediaCopyReference.InvariantIsReported | internal/gateway/media_copy.go:113-145 | a result without an error is a success unless an invariant was seen broken |
| MediaCopy.SequentialStaysStopped | internal/gateway/media_copy.go:49-111 | once the copy has stopped its result does not depend on further reads |
| MediaCopy.SequentialIsComposition | internal/gateway/media_copy.go:49-111 | the sequential copy is a producer of payload and ending events followed by a consumer of them, with equal counts, bytes and ending; only a failed write may leave the producer ahead |
| MediaCopy.ProducedTallies | internal/gateway/media_copy.go:63-88 | a producer's events end at most once and last, carry exactly the bytes read until the expected length is passed, and a plain end means exactly the expected length |
| MediaCopy.ConsumedDelivers | internal/gateway/media_copy.go:76-88 | a consumer delivers a prefix of what the events carry, all of it unless a write failed |
| MediaCopy.SuccessMeansComplete | internal/gateway/media_copy.go:113-145 | a copy is classified a success exactly when it has no error, and then the whole source was delivered, as many bytes as were expected |
| BufferedCopyResults.UncancelledCopyIsSequential | internal/gateway/media_buffer_copy.go:63-202 | on every interleaving without a cancellation the buffered copy returns the direction, error, primary error, outcome, byte count and bytes of the sequential loop on the same scripts; bytes read are equal too, and may only be larger after a failed write |
| BufferedCopyResults.ReturnsSequential | internal/gateway/media_buffer_copy.go:63-202 | the same whenever the outcome was selected before a cancellation |
| BufferedCopyResults.DeliversPrefixOfSource | internal/gateway/media_buffer_copy.go:90-142 | cancelled or not, and whatever the writer does then, the bytes delivered are a prefix of what the source gave and each is counted once |
| BufferedCopyResults.CancelIsReported | internal/gateway/media_buffer_copy.go:90-142 | a copy that returns without the sequential outcome was cancelled first; it is reported as canceled with the context's error or, when a write failed after the cancellation, as that failure |
| BufferedCopyResults.ReturnedCounts | internal/gateway/media_buffer_copy.go:90-201 | any returned copy, cancelled or not, reports as read what its reads gave and as written what was delivered, a prefix of the source no longer than expected and than what was read |
| BufferedCopyResults.ReturnsEverything | internal/gateway/media_buffer_copy.go:151-193 | every run that returns leaves its request with no chunk, no pending grant and not waiting, with InvariantObserved false |
| BufferedCopyResults.BuffersHaveOneHolder | internal/gateway/media_buffer_copy.go:401-411 | in every reachable state a chunk is in exactly one of producer's hand, queue and consumer's hand while the request owns it, and the base buffer is in exactly one of these or ready, until the producer stops with it |
| BufferedCopyResults.WriterSeesPublishedBytes | internal/gateway/media_buffer_copy.go:108-113 | the writer is given, byte for byte and at full length, what was in the buffer when it was published |
| BufferedCopyResults.ProducerEndsOnce | internal/gateway/media_buffer_copy.go:204-299 | a producer publishes at most one ending and nothing after it |
| BufferedCopyResults.NoDeadlock | internal/gateway/media_buffer_copy.go:321-378 | in every reachable state before the return one of the two goroutines can move, and a consumer parked on a non-empty queue has a notification waiting |
| BufferedCopyResults.NeverStuck | internal/gateway/media_buffer_copy.go:454-504 | the same from the invariant alone, by the place of each goroutine |
| BufferedCopyResults.SleepersFindTheBase | internal/gateway/media_buffer_copy.go:346-377 | a producer waiting for a buffer while the consumer sleeps on an empty queue finds the base buffer ready |
| BufferedCopyResults.QueuedBytesFit | internal/gateway/media_buffer_copy.go:49-57 | queued bytes never exceed one buffer per owned chunk and the base buffer, so within the request cap the int32 counter does not overflow |
| BufferedCopyResults.QueueStaysShort | internal/gateway/media_buffer_copy.go:49-57 | an open queue is never longer than the owned chunks, the base buffer and one ending |
| BufferedCopyStory.RunKeepsInv | internal/gateway/media_buffer_copy.go:63-411 | the protocol invariant holds in every state of every run |
| BufferedCopyStory.StepKeepsInv | internal/gateway/media_buffer_copy.go:63-411 | every step of either goroutine and of the environment keeps it |
| BufferedCopyInvariant.ReadAbsorbs | internal/gateway/media_buffer_copy.go:219-297 | one read by the producer decides to publish exactly the events of the sequential producer and ends exactly when that one does |
| BufferedCopyInvariant.ReaderKeepsStory | internal/gateway/media_buffer_copy.go:219-297 | published and still unpublished events together stay those of the sequential producer while nothing is cancelled |
| BufferedCopyInvariant.AcquireKeepsPlaced | internal/gateway/media_buffer_copy.go:321-392 | acquiring the base buffer or a granted chunk takes it from one place to one other, and meets no invariant error |
| BufferedCopyInvariant.ServeKeepsPlaced | internal/gateway/media_buffer_copy.go:90-142 | taking, writing and returning a buffer does too |
| BufferedCopyInvariant.DrainKeepsPlaced | internal/gateway/media_buffer_copy.go:169-176 | so does draining what was queued at the close |
| BufferedCopyInvariant.AcquireKeepsPolite | internal/gateway/media_buffer_copy.go:321-392 | a request waits or has a pending grant only while its producer is acquiring, and a grant that was announced is there to accept unless the producer was cancelled |
| BufferedCopyStory.WriteKeepsHears | internal/gateway/media_buffer_copy.go:108-124 | a write is judged as the sequential consumer judges it |
| BufferedCopyTermination.UncancelledCopyEnds | internal/gateway/media_buffer_copy.go:63-299 | an uncancelled copy of a script that ends by read n takes at most 100 n + 3102 steps of its goroutines, whatever the environment does between |
| BufferedCopyTermination.StepSpends | internal/gateway/media_buffer_copy.go:63-299 | each step of a goroutine spends some of that budget, also after the queue is closed and the producer cancelled, when its reads may give anything |
| BufferedCopyTermination.CancelledConsumerHurries | internal/gateway/media_buffer_copy.go:454-504 | after a cancellation every consumer step brings it nearer to waiting for the producer, nobody moves it back, and when it waits the producer is bounded |
| BufferedCopyTermination.CancelledConsumerCanMove | internal/gateway/media_buffer_copy.go:454-504 | and until then the consumer can always take its next step |
| BufferedCopyTermination.UncancelledCopyReturns | internal/gateway/media_buffer_copy.go:63-202 | total correctness: without a cancellation, and with a script that ends by read n, a run is of bounded length, and one that no goroutine can extend has returned the result of the sequential copy |
| BufferedCopyTermination.CancelledCopyReturns | internal/gateway/media_buffer_copy.go:90-202 | from a cancellation on the goroutines take at most 3406 steps, 5 for each queued event and 8 for each producer step before the cancellation reaches the producer; a run that no goroutine can extend has returned |
| BufferedCopyJoint.JointRunKeepsRelation | internal/gateway/media_buffer_copy.go:63-427 | the copy runs on the real allocator among other requests: in every state of a joint run the pool is steady, the request is seen by the copy as the pool holds it, and the copy's invariant holds |
| BufferedCopyJoint.ProjectionIsRun | internal/gateway/media_buffer_copy.go:63-427 | what a joint run does to the copy is a run of the copy alone, with the same work of its goroutines and no cancellation of its own |
| BufferedCopyJoint.JointCopyIsSequential | internal/gateway/media_buffer_copy.go:63-202 | whatever other requests do, a joint copy that returns uncancelled gives the sequential result |
| BufferedCopyJoint.JointCopyReturns | internal/gateway/media_buffer_copy.go:63-202 | and without a cancellation it returns within 100 n + 3102 turns of its goroutines: when none of them can move with the pool, it has returned that result |
| BufferedCopyJoint.JointRunBegins | internal/gateway/media_buffer_copy.go:63-83 | a joint run can begin with any steady pool, its request being the next one registered |
| BufferedCopyJoint.JointRunCanReturn | internal/gateway/media_buffer_copy.go:63-202 | and from every state of an uncancelled joint run whose script ends, whatever other requests hold or wait for, the goroutines alone can bring the copy to its sequential result |
| BufferedCopyJoint.JointCancelledCopyReturns | internal/gateway/media_buffer_copy.go:90-202 | after a cancellation too, whatever other requests do: from then on the goroutines take at most 3406 turns, 5 for each queued event and 8 for each producer turn before the cancellation reaches the producer; when none of them can move with the pool, the copy has returned |
| BufferedCopyJoint.JointCopyOwnsNothing | internal/gateway/media_buffer_copy.go:151-193 | cancelled or not, a joint copy that has returned owns no byte of the pool, is not waiting, and saw no broken invariant |
| BufferedCopySharing.PlantRunKeepsInv | internal/gateway/media_buffer_copy.go:63-427 | any number of copies on one allocator and in one memory, from an empty allocator on: in every state each of them has come there by a joint run of its own, so that nothing it relies on is left to assume of the others, and requests without a copy hold and want nothing |
| BufferedCopySharing.PlantStepKeepsInv | internal/gateway/media_buffer_copy.go:63-427 | every start, turn and close of any of the copies keeps that |
| BufferedCopySharing.OthersLeaveMineAlone | internal/gateway/media_buffer_copy.go:219-235 | no turn of one copy changes another's base buffer, or a chunk that the other has accepted and is not just reading into |
| BufferedCopySharing.SharedCopyIsSequential | internal/gateway/media_buffer_copy.go:63-202 | each of the copies that returns uncancelled gives its own sequential result |
| BufferedCopySharing.SharedCopyReturns | internal/gateway/media_buffer_copy.go:63-202 | each uncancelled one whose script ends by read n does so within 100 n + 3102 turns of its own: when it cannot take another, it has returned that result |
| BufferedCopySharing.EveryCopyGoesOn | internal/gateway/media_buffer_copy.go:321-378 | in every state, each copy that has not returned can take a turn at once, cancelled or not, and each that has can be closed: the copies cannot deadlock over chunks |
| BufferedCopySharing.PlantAtRest | internal/gateway/media_buffer_copy.go:151-193 | when all copies under way have returned, the allocator owns no byte, has no debt and no waiter, and every chunk it made is free |
| BufferedCopySharing.SharedQueueFits | internal/gateway/media_buffer_copy.go:49-57 | the queue counters of every copy fit 32 bits |
| BufferedCopyJoint.JointQueueFits | internal/gateway/media_buffer_copy.go:49-57 | in every state of every joint run the queued bytes fit the int32 counter and an open queue holds at most 16386 items |
| BufferedCopyJoint.JointQueueObjectFits | internal/gateway/media_buffer_copy.go:522-537 | so do the byte counter and both indices of any queue object that stands for that queue |
| BufferedCopyAllocator.CopyStartsFresh | internal/gateway/media_buffer_copy.go:63-82 | a request registered with any steady pool is seen by its copy as a fresh one, where the copy's runs begin |
| BufferedCopyAllocator.PoolServesCopy | internal/gateway/media_buffer_copy.go:413-427 | whenever a goroutine can move, it can move together with the real allocator's operation on a steady pool with any other requests on it |
| BufferedCopyAllocator.OthersAreGrants | internal/gateway/media_buffer.go:341-376 | operations on other requests are, for this copy, nothing or a grant |
| BufferedCopyAllocator.AskIsServed | internal/gateway/media_buffer.go:175-191 | the allocator's answer to asking is the one that the copy's steps assume |
| BufferedCopyAllocator.AcceptIsServed | internal/gateway/media_buffer.go:193-210 | likewise for accepting |
| BufferedCopyAllocator.CancelIsServed | internal/gateway/media_buffer.go:212-230 | likewise for giving up |
| BufferedCopyAllocator.ReleaseIsServed | internal/gateway/media_buffer.go:232-247 | likewise for releasing, good leases and bad ones |
| BufferedCopyAllocator.ChunksAreApart | internal/gateway/media_buffer.go:404-436 | no two requests hold one chunk, and no held chunk is free, so others cannot write into it |
| BufferedCopyAllocator.ReturnedOwnsNothing | internal/gateway/media_buffer_copy.go:151-193 | a copy on a pool that has returned owns no byte of it |
| BufferedCopyAllocator.OwnedThroughView | internal/gateway/media_buffer.go:317-332 | a request's chunks stay within the 512 MiB cap |
| MediaCopyQueue.MediaBufferCopyQueue.constructor | internal/gateway/media_buffer_copy.go:83-83 | an empty queue |
| MediaCopyQueue.MediaBufferCopyQueue.Publish | internal/gateway/media_buffer_copy.go:436-452 | appends and notifies unless closing; the byte counter follows when the queue is observed |
| MediaCopyQueue.MediaBufferCopyQueue.TryNext | internal/gateway/media_buffer_copy.go:454-504 | one turn of the consumer takes the first event, or is refused by the context or the close, or must wait, as the abstract queue says |
| MediaCopyQueue.MediaBufferCopyQueue.CompactLocked | internal/gateway/media_buffer_copy.go:522-537 | compaction keeps the live events in order and the slice short |
| MediaCopyQueue.MediaBufferCopyQueue.Close | internal/gateway/media_buffer_copy.go:506-520 | hands over exactly what is still queued and closes |
| MediaCopyQueue.MediaBufferCopyQueue.TakeAllLocked | internal/gateway/media_buffer_copy.go:539-552 | takes the live part of the slice |
| MediaCopyQueue.BackingIsLinear | internal/gateway/media_buffer_copy.go:522-537 | the backing slice stays within twice the live events and 63 more, and its indices in 32 bits |
| MediaBufferLive.UnpackPack | internal/gateway/media_buffer_live.go:162-183 | unpacking a packed word gives the three chunk counts back, each cut off at 20 bits, bit by bit |
| MediaBufferLive.WordLayout | internal/gateway/media_buffer_live.go:162-174 | for every request of a steady pool the target's chunks are in bits 0 to 19 of the word, those owned in bits 20 to 39, those in debt in bits 40 to 59 |
| MediaBufferLive.ChunksExactly | internal/gateway/media_buffer_live.go:162-174 | what is packed for any 64-bit byte count, negative ones included |
| MediaBufferLive.PackedWordIsExact | internal/gateway/media_buffer_live.go:299-307 | for every request of every reachable pool the word decodes to its exact target, owned and debt |
| MediaBufferLive.ChunksExact | internal/gateway/media_buffer_live.go:162-174 | a byte count survives packing exactly when it is a whole number of chunks within 20 bits |
| UpstreamAuth.LiveTokenIsNeverLoggedOut | internal/gateway/upstream_auth.go:309-374 | for any interleaving of leaders and other writers, and whatever tokens callers name, a leader never logs out a token that the store holds then or at any later moment |
| UpstreamAuth.StepKeepsInv | internal/gateway/upstream_auth.go:120-178 | every step of a leader, failed logins and ambiguous store errors included, keeps the invariant behind it |
| UpstreamAuth.CommitsFormAChain | internal/gateway/upstream_auth.go:146-147 | the stored tuple always comes whole from one login, commits by leaders are linked by their expected generation, and no token or generation is stored twice |
| UpstreamAuth.SwapIsExact | internal/gateway/upstream_auth.go:146-147 | a swap that is applied replaces exactly the tuple its leader had loaded by exactly what it logged in |
| UpstreamAuth.SwapReplacesLoaded | internal/gateway/memory_store.go:122-124 | equal generations mean that the stored tuple is the loaded one |
| UpstreamAuth.AnswersWereStored | internal/gateway/upstream_auth.go:120-178 | whatever a leader answers was the stored tuple at some moment |
| UpstreamAnswers.LoadAnswers | internal/gateway/upstream_auth.go:110-127 | a leader answers what it loads exactly if that has a session and, for a refresh, another token than the one that failed |
| UpstreamAnswers.AppliedSwapIsAnswered | internal/gateway/upstream_auth.go:163-172 | after an applied swap a reload that succeeds is answered with the stored tuple; if that is the leader's own, field by field, the loaded session is looked at for retirement |
| UpstreamAnswers.AppliedSwapSucceeds | internal/gateway/upstream_auth.go:163-178 | over any run, a leader whose swap was applied and whose reload did not fail comes to no other answer than what the store held at that reload |
| UpstreamAnswers.NoErrorOfItsOwn | internal/gateway/upstream_auth.go:118-178 | in no run does a leader answer a persistence mismatch or a token collision |
| UpstreamAnswers.FailedSwapIsAnswered | internal/gateway/upstream_auth.go:147-162 | after a failed or ambiguous swap a reload that shows the leader's own tuple is answered with it; another tuple is answered after a conflict only, and the left-over login is logged out |
| UpstreamAnswers.FailedLoginIsCleanedUp | internal/gateway/upstream_auth.go:132-145 | after a failed or cancelled login its token is logged out exactly if it is neither stored nor the loaded one |
| UpstreamAnswers.OldSessionIsRetired | internal/gateway/upstream_auth.go:337-352 | the replaced session is logged out exactly if it had a generation and a token and is not stored |
| UpstreamAnswers.AnswerStays | internal/gateway/upstream_auth.go:118-178 | an answer decided on is the one given, whatever cleaning up does |
| UpstreamAnswers.NoLoginIsLeftBehind | internal/gateway/upstream_auth.go:313-335 | when a leader whose cleaning up did not fail is done, every token it was ever issued was stored or has been logged out |
| UpstreamAnswers.ReplacesTheIdentity | internal/gateway/upstream_auth.go:197-212 | what a leader stores differs from what it replaces in generation, device and token |
| UpstreamAnswers.UndisturbedRotation | internal/gateway/upstream_auth.go:118-178 | a leader that nobody disturbs and nothing fails stores its login, answers it, and goes on to log out the old session if there was one |
| UpstreamAnswers.LeaderEnds | internal/gateway/upstream_auth.go:118-178 | a leader takes at most seven steps |
| UpstreamAnswers.LeaderGoesOn | internal/gateway/upstream_auth.go:118-178 | and until it is done it can always take one that does not fail |
| UpstreamAuth.OwnLoginServesExactly | internal/gateway/upstream_auth.go:60-118 | in any state of any run, a leader that takes up an intent can come to log in with, and even to store, what does not satisfy that intent, if and only if the intent is a refresh that names a token never issued while the stored tuple has no generation yet |
| UpstreamAuth.OwnLoginServes | internal/gateway/upstream_auth.go:110-118 | so in every run a leader's own login satisfies its intent, at every moment, unless the intent was such a refresh when it was taken up |
| UpstreamAuth.NamedInAdvance | internal/gateway/upstream_auth.go:60-65 | a concrete case: on a store that never had a session a caller names token 5, its leader is given that token, stores it, and has not served its caller |
| UpstreamAuth.RunFlights | internal/gateway/upstream_auth.go:67-108 | each way a caller's first and second try end, from its scripts alone: a cancelled context, a failed load, a stored tuple that serves it, a cancelled wait, a flight that lands with what serves it, a flight's own error; it tries again exactly after a flight cancelled by its leader or landed with what does not serve it; and when its loads are of a run's store and its flights landed with answers of that run's leaders, its own answer was once stored there |
| UpstreamStore.MemoryStore.LoadDefault | internal/gateway/memory_store.go:57-91 | loading gives the one source of a store in order (a complete source under its own id, a session whole or absent, valid endpoints under their own ids, one default endpoint and that enabled) exactly when the store is in order; an empty store and a disordered one are told apart |
| UpstreamStore.MemoryStore.CompareAndSwap | internal/gateway/memory_store.go:110-144 | the swap goes through exactly for a valid update of the default source at its expected generation, changes only the tuple and the login's record, and otherwise changes nothing; a miss is a conflict exactly when the store is in order with that very source, and not found exactly when it is empty or in order with another |
| UpstreamStore.SwapKeepsOrder | internal/gateway/memory_store.go:110-144 | a store in order stays in order under every swap |
| UpstreamStore.ValidExactly | internal/gateway/types.go:270-275 | an update is well formed exactly if a store in order at its expected generation is in order after it, with a session of another generation |
| UpstreamStore.SwapIsTheLeaderStep | internal/gateway/memory_store.go:110-144 | on a store that holds what the leaders see, success is the `Swap` step of the leader with that update, a conflict its `SwapConflicts` step and any other error its `SwapErrs` step with nothing applied, and the store goes on holding what the leaders see |
| ImageValidator.CheckInParts | internal/gateway/server.go:1807-1847 | for any split of a JPEG, PNG or WebP body into writes the stream check succeeds exactly when the whole-body check does; the output is then the body, otherwise the body without its last twelve bytes |
| ImageValidator.ImageStreamValidator.Write | internal/gateway/server.go:1807-1836 | each write keeps the first and last twelve bytes and the length, and emits all but the last twelve |
| ImageValidator.ImageStreamValidator.Finish | internal/gateway/server.go:1838-1847 | finishing succeeds exactly for a valid body and a working destination, and only then emits the tail |
| ImageValidator.ChecksAgree | internal/gateway/anonymous_image.go:266-280 | the check on prefix, tail and length agrees with the check on the body for all three media types |
| ImageValidator.ValidExactly | internal/gateway/anonymous_image.go:266-280 | which bodies the whole-body check accepts, byte by byte, for JPEG, PNG, GIF and WebP |
| ImageValidator.PngPartsDoNotOverlap | internal/gateway/server.go:1855-1860 | signature and trailer cannot share a byte, so twelve bytes and twenty are the same minimum |
| ImageValidator.JpegPartsDoNotOverlap | internal/gateway/server.go:1851-1854 | nor can a JPEG's two markers |
| NegativeScan.ScanNegative | internal/gateway/personalquery.go:236-291 | the nested loops yield the specified page for every list, start and limit |
| NegativeScan.ScanIsFilterThenPage | internal/gateway/personalquery.go:236-291 | the scan equals filter-then-page for all lists and exclusions if and only if the batch size divides 2000 or the start lies past the last batch |
| NegativeScan.OneMoreExactly | internal/gateway/personalquery.go:265-284 | exactly when one list gets an item too many |
| NegativeScan.AtMostOneMore | internal/gateway/personalquery.go:265-284 | never more than one, and never beyond the page's limit |
| NegativeScan.InexactOtherwise | internal/gateway/personalquery.go:236-291 | for any other start and limit some list gets one |
| NegativeScan.ItemBeyondTheLimit | internal/gateway/personalquery.go:265-284 | a concrete list of 2001 items whose last one is returned though it lies beyond the limit |
| NegativeScan.SmallPagesAreExact | internal/gateway/personalquery.go:240-247 | a caller that asks for no limit or at most 33 items, or for three times as many as divide 2000, always gets just its page |
| NegativeScan.PageExactly | internal/gateway/personalquery.go:236-284 | the expected page is a stretch of the kept ones of the first 2000 items, from the start on and of at most the limit |
| NegativeScan.KeptExactly | internal/gateway/personalquery.go:266-271 | filtering keeps, in order, just the items whose id is missing or not excluded |
| NegativeScan.ExcludeSet | internal/gateway/personalquery.go:468-485 | an id is excluded exactly when some state of it, in structure and not orphaned, has a negated property |
| EndpointTopology.EndpointTable.Upsert | internal/controlplane/upstream_endpoint.go:71-209 | from a valid topology an update commits exactly under the stated conditions, with the stated table, and otherwise gives the first reason there is and leaves the table as it was; the topology and the unique indexes hold afterwards |
| EndpointTopology.AcceptedUnlessRefused | internal/controlplane/upstream_endpoint.go:71-209 | an update goes through exactly when none of these holds of the rows: no key or URL, an unknown or foreign id, a key or URL in use, an enabled rule on the key of an endpoint to be disabled, a disabled default, no enabled endpoint left |
| EndpointTopology.UpdatedExactly | internal/controlplane/upstream_endpoint.go:133-204 | what an accepted update leaves, row by row: the row as asked for, all others as they were but for the default flag, and as default the row if asked, else the old default, else the first enabled endpoint |
| EndpointTopology.EndpointTable.Delete | internal/controlplane/upstream_endpoint.go:214-259 | a delete goes through exactly for an endpoint that is neither default nor targeted, gives each other case its error, and keeps the topology |
| EndpointTopology.SaveAndPromote | internal/controlplane/upstream_endpoint.go:150-204 | clearing competing defaults, saving and promoting goes through exactly when a default can be left enabled; otherwise it fails on the unique index if another endpoint is enabled, and for want of an enabled one if not |
| EndpointTopology.UpdatedKeepsTopology | internal/controlplane/upstream_endpoint.go:150-204 | an accepted update leaves exactly one default endpoint, enabled, and unique keys and URLs |
| EndpointTopology.PromotionSaves | internal/pbschema/collections.go:178-181 | promoting a row violates the partial unique index exactly when another row is default |
| EndpointTopology.Save | internal/pbschema/collections.go:178-181 | a save fails exactly when a unique index would be violated |
| EndpointTopology.ClearDefaults | internal/controlplane/upstream_endpoint.go:151-167 | clearing competing defaults never violates an index and touches nothing else |
| EndpointTopology.FindCollision | internal/controlplane/upstream_endpoint.go:122-132 | a collision is another row of the source with the key or the URL |
| EndpointTopology.ValidateEndpoints | internal/gateway/types.go:234-257 | the counting check accepts exactly the topology, and refuses an empty list, a malformed or foreign endpoint and a missing default each with its own error |
| EndpointTopology.RuleIsStrandedByRename | internal/controlplane/upstream_endpoint.go:135-149 | an accepted update leaves a served route rule without an endpoint exactly when it renames the enabled endpoint that the rule names: the guard looks up the new key |
| EndpointTopology.RenameStrandsARule | internal/controlplane/upstream_endpoint.go:135-149 | a concrete update that does |
| EndpointTopology.DeleteStrandsNoRule | internal/controlplane/upstream_endpoint.go:247-256 | deleting strands no rule |
| AuthHeader.RoundTrip | internal/gateway/auth_header.go:131-209 | printing and then parsing recovers the scheme and every field of a header with a readable scheme, readable keys and quote-free values, commas, equals signs, spaces and empty values included; a named field comes back with the value of its last spelling, so with its own unless another letter case of it is printed later |
| AuthHeader.ParseRecoversPrinted | internal/gateway/auth_header.go:131-209 | with any values, what is recovered are the values without their quotes |
| AuthHeader.PrintingAgainExactly | internal/gateway/auth_header.go:170-209 | printing what was parsed gives the same text if and only if each named field's last spelling is empty or has the value that also stands under the usual spelling |
| AuthHeader.PrintingAgain | internal/gateway/auth_header.go:170-209 | so it does when the named fields have their usual spelling only |
| AuthHeader.LoneLowerCaseToken | internal/gateway/auth_header.go:170-209 | a concrete header for which it does not: a lone `token` is printed with a second field after it was parsed |
| AuthHeader.SplitOfJoin | internal/gateway/auth_header.go:297-323 | splitting a printed list gives its fields back |
| AuthHeader.SplitHeaderFields | internal/gateway/auth_header.go:297-323 | the loop splits at the commas outside quotes and drops blank parts |
| AuthHeader.ParseEmbyAuthHeader | internal/gateway/auth_header.go:131-168 | the loop parses as the function does |
| AuthHeader.String | internal/gateway/auth_header.go:170-209 | the loops print the merged fields in sorted order, once each |
| AuthHeader.PrintIsUnique | internal/gateway/auth_header.go:195-209 | a header has one printed form |
| AuthHeaderForms.ParsesLoosely | internal/gateway/auth_header.go:131-168 | a header is read field by field whatever spaces stand around keys and values, quoted or bare: of a repeated key the last value, and the named fields in any letter case |
| AuthHeaderForms.SplitsLoosely | internal/gateway/auth_header.go:297-323 | splitting such a list gives its fields without the spaces around them |
| AuthHeaderForms.ReadsLoosely | internal/gateway/auth_header.go:143-165 | one field in any such layout gives its key and value |
| AuthHeaderForms.JunkIsSkipped | internal/gateway/auth_header.go:144-147 | a part without an equals sign is no field |
| AuthHeaderForms.ParsesWithin | internal/gateway/auth_header.go:131-141 | spaces around the header do not matter, a blank header is empty, and a lone word is a scheme |
| AuthHeaderForms.SpelledInAnyCase | internal/gateway/auth_header.go:151-164 | a key spells a name exactly if it has its letters, each in either case |
| AuthHeaderForms.PrintedForm | internal/gateway/auth_header.go:170-209 | the printed form of a header with two fields, sign by sign |
| PlaybackGuard.DenialRemoval | internal/gateway/playback_guard.go:45-107 | a denial is gone after an event only by expiry, by a newer denial of its key, or by a success whose snapshot was taken after it |
| PlaybackGuard.EarlierRequestDoesNotClear | internal/gateway/playback_guard.go:63-74 | a request whose snapshot came before a denial never clears it |
| PlaybackGuard.AuditsAreApart | internal/gateway/playback_guard.go:87-94 | two audited events of one key and kind are at least the cooldown apart |
| PlaybackGuard.SuppressedExactly | internal/gateway/playback_guard.go:76-85 | from the events alone: a report is suppressed exactly while the last denial of its key is less than two minutes old and no success whose snapshot was taken after it has come in |
| PlaybackGuard.SnapshotExactly | internal/gateway/playback_guard.go:45-51 | a snapshot answers the number of that denial, or zero if there is none |
| PlaybackGuard.AuditedExactly | internal/gateway/playback_guard.go:87-94 | an event is audited exactly if it is a denial or a suppressed report and none of its key and kind was audited less than two minutes before |
| PlaybackGuard.PlaybackGuardTracker.Sweep | internal/gateway/playback_guard.go:96-107 | the sweep drops exactly what has expired |
| PlaybackGuard.PlaybackGuardTracker.RecordDenial | internal/gateway/playback_guard.go:53-61 | a denial replaces the key's guard under a new generation and may be audited |
| PlaybackGuard.PlaybackGuardTracker.ClearIfGeneration | internal/gateway/playback_guard.go:63-74 | a success removes the guard only of its own generation |
| PlaybackGuard.PlaybackGuardTracker.SuppressReport | internal/gateway/playback_guard.go:76-85 | a report is suppressed while a guard stands, and then may be audited |
| PlaybackGuard.PlaybackGuardTracker.Snapshot | internal/gateway/playback_guard.go:45-51 | a snapshot is the generation of the standing guard, or zero |

## Left out

- HTTP transport, TLS, header writing, redirects, WebSocket upgrades: upstream and client calls appear only as results of scripts.
- PocketBase and SQLite: only the compare-and-swap and the unique indexes, as atomic steps; URL normalisation and the length limits of stored fields are not part of this model.
- Wait timing, peaks and the blocker projection of the live telemetry, the allocator's snapshots for observers and the test hooks with their injected errors.
- Integer width: ids, generations and grant numbers are unbounded; the byte counters are shown to fit 64 bits for any budget below 2^63 minus one chunk (`MediaBufferRuns.CountersFitInt64`); the copy's 64-bit byte totals are unbounded integers; so is the negative scan's `limit * 3`, which wraps in the program for huge limits (`internal/gateway/personalquery.go:239`).
- MediaBufferRuns.CountersFitInt64: does not cover a budget within one chunk of 2^63, where the comparison in `takeChunkLocked` could overflow.
- The early return of the buffered copy on nil arguments or a base buffer of the wrong size: the state machine starts after that check, with a freshly registered request that nobody closes before the copy returns.
- BufferedCopyTermination.UncancelledCopyEnds: assumes that each read and write returns; a reader that blocks for ever is outside the step relation.
- BufferedCopyResults.UncancelledCopyIsSequential: durations of the two copies are not compared.
- MediaCopyQueue.MediaBufferCopyQueue.TryNext: one locked section of the loop; the sleep between two of them is a step of the copy's state machine.
- UpstreamAuth.RunFlights: the order of its loads and flights within the run is left open; which callers share one flight is left open, and a flight's leader cancellation counts only while the caller's own context is live.
- UpstreamAnswers.FailedSwapIsAnswered: a leader's errors are told apart by where they arise; that a leader whose own context is done reports its cancellation instead of them is not part of this model.
- UpstreamAnswers.NoLoginIsLeftBehind: a logout counts once it is sent; what the upstream makes of it is outside the model.
- UpstreamStore.MemoryStore.CompareAndSwap: the trimming and length rules of stored strings, URL syntax among them, appear only as zero for an invalid value, and the fields that a rotation never touches as one flag.
- BufferedCopySharing.PlantRunKeepsInv: every request of that allocator belongs to a copy, as in the program; `BufferedCopyJoint` allows any other use of it.
- The content of login answers (JSON, size limits, trimming rules): a login succeeds with a user and a fresh token or fails with or without one.
- The rewriting of items, the estimate of totals and the upstream errors of the negative scan.
- Lower-casing in the auth header covers every character that can lower to an ASCII letter; other letters stay as they are, which no named field can match.
- Path policies, rate limits, login limits, admin sessions, source caching, transcoding and subtitles, which would add only easy members.
