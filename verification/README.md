# Transaction tickets of the DeepX SDK: a model and its proofs

The SDK sends signed extrinsics to a node and gives its caller a ticket for each. A ticket follows a lifecycle; a tracker
matches blocks against open tickets; a recovery engine scans the chain for outcomes the node never reported; a client
bounds how much is in flight. All of it is bookkeeping in memory, changed by interleaved tasks and re-entrant callbacks.
The files here model that bookkeeping in Dafny and prove what it promises.

Two forms are used side by side. Step systems, one step for each stretch of code between two awaits, carry the
statements about whole runs: `Engine` (tracker and recovery together), `CapacityRuns`, `Gate`, `Requests`,
`Subscriptions`, `Retention`. Classes with the source's own fields and loops carry the code: each method is proved to take
its object where the step's function says. The node, the chain, the clock and the other tasks are arbitrary inputs.

| files | what they hold |
|---|---|
| `Lifecycle`, `PendingTx` | statuses and their transitions; the ticket with its update stream, waiter futures and re-entrant callbacks |
| `Capacity`, `CapacityRuns`, `CapacityClient` | counters, reservations and nonce counts; every run of the client; the object |
| `Tracker`, `Engine` | block entries, candidates and matches; the recovery engine as a step system |
| `Soundness`, `Acceptance`, `Traps` | exactly when a NOT_INCLUDED verdict is right; in terms of matches and in terms a caller can observe; three runs in which it is wrong |
| `Steps` | what single events of the engine leave behind, outcome by outcome |
| `Coverage`, `Evidence`, `Once` | the scan cursor and its records; what a NOT_INCLUDED verdict rests on; one change per block and ticket |
| `TrackerLoops`, `RecoveryLoops` | the tracker's and the finalized scan's loops, proved against the engine's steps |
| `BestHead`, `Reconcile` | the best-head drain with its skips; the finality pass |
| `Gate`, `Nonce` | the encoder's priority gate and timestamp nonces |
| `Requests`, `Subscriptions` | the transport's requests and its subscription routes |
| `Scale`, `EventBatches` | compact integers and the joining of event batches (Substrate SCALE codec, compact integers and vectors) |
| `Retention` | bounded retention in the tracker and in the transaction manager |

The engine assumes of the world (`Engine.Honest`): finality is append-only and a finalized height has one canonical hash;
a block hash determines the block's extrinsics; a finalized head names an existing height; no transaction is already
finalized when it is submitted; no cached block is pruned while one of its resolutions is running. Some promises are
false as they stand, and are proved here in the form in which they hold: NOT_INCLUDED (`Soundness.VerdictRightIff`, with
the three runs of `Traps`), the waiters of a ticket marked from inside a retraction (`PendingTx.RetractionHarmlessIff`, with a history that
strands one), the backlog limit and an empty client after `close` when tickets are lost to the tracker
(`CapacityRuns.BacklogWithinLimitIff`, `CapacityRuns.CloseEmptiesIff`),
the timeout's "may have been sent" flag (`Requests.TimeoutFlagIff`, with a run that denies a send), and the compact round
trip beyond 32 bits (`Compact.RoundTripIff`).

## Model

| member | source | states |
|---|---|---|
| `TxLifecycle.TerminalExactlyWithoutTargets` | src/deepx_sdk/_pending_tx.py:179-251 | the transition table and the terminal set are kept separately and agree: a status is terminal exactly when nothing may follow it |
| `TxLifecycle.LegalExactlyFromSources` | src/deepx_sdk/_pending_tx.py:179-240 | the same table read from its targets: from which statuses each status can be entered |
| `PendingTx.ChainReads` | src/deepx_sdk/_pending_tx.py:529-566 | what a legal chain of updates means item by item: each is a legal transition, the first from CREATED, every other from where the one before it ended |
| `PendingTx.StreamKept` | src/deepx_sdk/_pending_tx.py:327-400 | one call on a ticket, together with whatever its status callbacks call while it is announced, leaves a legal chain with exactly one end marker iff the status is terminal |
| `PendingTx.StreamAlwaysOk` | src/deepx_sdk/_pending_tx.py:327-400 | for every history of calls, re-entrant to any depth, the queued updates are a legal chain from CREATED to the current status, closed by one end marker iff it is terminal |
| `PendingTx.Frozen` | src/deepx_sdk/_pending_tx.py:677-681 | a terminal ticket ignores every further call |
| `PendingTx.CalmKept` | src/deepx_sdk/_pending_tx.py:632-670 | one call whose retractions, at any depth, are harmless keeps each of the two promises, settled waiters and a result while executed, up to what an enclosing mark still owes |
| `PendingTx.TerminalSettlesEveryWaiter` | src/deepx_sdk/_pending_tx.py:338-400 | for every history in which no retraction, at any depth, is ended by its own callbacks after somebody waited for a result, a terminal ticket leaves no future pending |
| `PendingTx.ExecutedKeepsResult` | src/deepx_sdk/_pending_tx.py:357-368 | for every history in which no retraction, at any depth, is executed again by its own callbacks, an executed ticket has its result |
| `PendingTx.RetractionHarmlessIff` | src/deepx_sdk/_pending_tx.py:363-368 | one retraction keeps either promise exactly when its callbacks did not end the ticket after somebody waited for a result, respectively did not leave it executed; one that ends the ticket settles all waiters exactly when nobody had waited |
| `PendingTx.CalmThroughoutIff` | src/deepx_sdk/_pending_tx.py:327-400 | a ticket keeps a promise after every call of a history if and only if each retraction of the history is harmless for it, retractions made by callbacks being so |
| `PendingTx.RetractionCanStrandWaiter` | src/deepx_sdk/_pending_tx.py:363-368 | the waiter promise without that condition is false: a history that ends in CLIENT_CLOSED with a future nobody will settle |
| `PendingTx.FailureWakesEveryWaiter` | src/deepx_sdk/_pending_tx.py:568-586 | an accepted failure wakes every future that was waiting, with the error and not with a result, whatever the callbacks do; a future settled before keeps its answer, and the stream ends |
| `PendingTx.SubmissionAnswersItsWaiters` | src/deepx_sdk/_pending_tx.py:658-661 | acceptance answers the futures still waiting for submission with the ticket, and no other |
| `PendingTx.ExecutionAnswersItsWaiters` | src/deepx_sdk/_pending_tx.py:338-352 | execution records its result, confirms the submission, and answers the futures still waiting for inclusion with that very result |
| `PendingTx.FinalizationAnswersItsWaiters` | src/deepx_sdk/_pending_tx.py:357-361 | finalization is accepted only with a result, answers the futures waiting for it with that result and ends the ticket without an error |
| `PendingTx.RetractionReopensAnswers` | src/deepx_sdk/_pending_tx.py:363-368 | a retraction forgets the result, and reopens the two result futures of whoever had been answered |
| `PendingTx.RefusedMarksChangeNothing` | src/deepx_sdk/_pending_tx.py:677-681 | a mark whose transition is not in the table, and a finalization without a result, change nothing |
| `PendingTx.WaitingAsksOnce` | src/deepx_sdk/_pending_tx.py:413-449 | a wait opens its future exactly when the ticket cannot answer yet and none was open; a failed or finalized ticket answers at once |
| `PendingTx.WaitersAreToldTheTruth` | src/deepx_sdk/_pending_tx.py:609-671 | for every history, re-entrant to any depth: submission was confirmed only if the ticket was accepted or executed, a result was given only if it was executed, finality only if it was finalized, and an error only if it ended with one |
| `PendingTx.PendingTransaction.NotifyCallbacks` | src/deepx_sdk/_pending_tx.py:588-596 | announcing an update performs the callbacks' own calls one after the other |
| `PendingTx.PendingTransaction.Transition` | src/deepx_sdk/_pending_tx.py:529-566 | status first, then the queued update, then the callbacks, then the end marker of a terminal status |
| `PendingTx.PendingTransaction.FinishWithError` | src/deepx_sdk/_pending_tx.py:568-586 | the error is stored before the callbacks run, and after them the futures still open are woken with it (`PendingTx.FailureWakesEveryWaiter`) |
| `PendingTx.PendingTransaction.Handle` | src/deepx_sdk/_pending_tx.py:327-449 | every mark and every wait takes the object to exactly the state the specification gives, refused marks changing nothing |
| `Capacity.RegisterKeepsBalance` | src/deepx_sdk/async_client.py:823-838 | turning a submission in flight into a reservation moves no counter away from what it counts |
| `Capacity.ReleaseKeepsBalance` | src/deepx_sdk/async_client.py:851-954 | a status callback with all the tickets it forces out keeps every counter equal to the holders of its flag and every nonce count equal to the pool holders of that nonce |
| `Capacity.ForceAllEffect` | src/deepx_sdk/async_client.py:923-954 | the nested calls together: exactly the forced tickets the tracker still knows leave, each once |
| `Capacity.OldestFirstFacts` | src/deepx_sdk/async_client.py:934-954 | the forced tickets are as many as the excess, all slot holders, and nobody left out is older |
| `CapacityRuns.ReleaseEffect` | src/deepx_sdk/async_client.py:851-896 | one status callback in closed form: the flags its status asks for, and the forced tickets gone and nothing else |
| `CapacityRuns.ReleaseBoundsBacklog` | src/deepx_sdk/async_client.py:923-954 | after any status callback the finalization backlog is within its limit, tickets lost to the tracker apart |
| `CapacityRuns.ForcedAreOldest` | src/deepx_sdk/async_client.py:934-954 | no ticket that still holds a finalization slot is older than one that was forced out, the ticket whose own transition is running included |
| `CapacityRuns.BacklogWithinLimitIff` | src/deepx_sdk/async_client.py:923-954 | a callback that opens a finalization slot leaves the backlog within the limit exactly when the tracker still knows every ticket it has to force out |
| `CapacityRuns.BacklogWithinLimit` | src/deepx_sdk/async_client.py:923-954 | after any run the finalization count is within its limit as long as no executed ticket is lost to the tracker |
| `CapacityRuns.StepKeepsSound` | src/deepx_sdk/async_client.py:585-748 | each stretch of a submission, of a failure or cancellation, and of a status change keeps conservation, the backlog bound and the tracked, outbound and pool bounds |
| `CapacityRuns.EveryRunIsSound` | src/deepx_sdk/async_client.py:585-970 | after any run of the client: counters, reservations and nonce counts agree, the backlog is bounded, submissions in flight keep the outbound limit, with the uninterrupted holders they keep the tracked and the priority limit, and the normally admitted among them the account limit |
| `CapacityRuns.PoolOvershoot` | src/deepx_sdk/async_client.py:862-880 | after any run the pool count exceeds the priority limit by no more than the holders that came back by retraction |
| `CapacityRuns.AdmissionLimitsHold` | src/deepx_sdk/async_client.py:753-821 | after any run the outbound count is the number of submissions in flight and at most its limit, and the tracked count exceeds its own by no more than the holders that came back by retraction |
| `CapacityRuns.RefusedExactlyAtALimit` | src/deepx_sdk/async_client.py:809-821 | an admission is refused, changing nothing, exactly when the tracked count, the outbound count or the pool count for its priority is at its limit; otherwise it takes one of each |
| `CapacityRuns.WhoHoldsWhat` | src/deepx_sdk/async_client.py:851-896 | after any run a registered ticket holds its admission and its pool slot exactly while it is not executed, a finalization slot exactly while it is, and no outbound place |
| `CapacityRuns.NothingLeaks` | src/deepx_sdk/async_client.py:851-921 | after any run, with nothing in flight and every registered ticket terminal, all counters are zero and both maps empty |
| `CapacityRuns.CloseEmptiesIff` | src/deepx_sdk/async_client.py:469-496 | after any run with nothing in flight, closing the tickets the tracker lists empties every counter and map exactly when no ticket lost to the tracker holds a reservation; otherwise just those stay |
| `CapacityRuns.ClosingsAreARun` | src/deepx_sdk/async_client.py:481-483 | closing the listed tickets one after the other is a run of the client |
| `CapacityClient.SortedByAge` | src/deepx_sdk/async_client.py:934-941 | sorting the slot holders by age, oldest first |
| `CapacityClient.OldestOf` | src/deepx_sdk/async_client.py:934-941 | an oldest ticket of a non-empty set |
| `CapacityClient.AsyncChainClient.AcquireCapacity` | src/deepx_sdk/async_client.py:750-821 | takes one of each counter exactly when tracked, outbound and the pool for its priority are all below their limits, else changes nothing |
| `CapacityClient.AsyncChainClient.RegisterPending` | src/deepx_sdk/async_client.py:823-838 | a reservation with three flags and one more reference to the nonce |
| `CapacityClient.AsyncChainClient.DoReleaseOutbound` | src/deepx_sdk/async_client.py:898-901 | gives the outbound place back at most once |
| `CapacityClient.AsyncChainClient.DoReleasePool` | src/deepx_sdk/async_client.py:903-916 | gives the pool slot and the nonce reference back at most once, the last reference removing the count |
| `CapacityClient.AsyncChainClient.DoReleaseTracked` | src/deepx_sdk/async_client.py:918-921 | gives the admission back at most once |
| `CapacityClient.AsyncChainClient.ReleaseForStatus` | src/deepx_sdk/async_client.py:851-896 | the re-entrant status callback ends, in exactly the specified state, with the oldest excess holders forced |
| `CapacityClient.AsyncChainClient.EnforceFinalizationLimit` | src/deepx_sdk/async_client.py:923-954 | forces as many of the oldest slot holders as the limit is exceeded by |
| `CapacityClient.AsyncChainClient.MarkReconciliationRequired` | src/deepx_sdk/_async_tracker.py:539-619 | the forced transition and the callback it runs before returning |
| `CapacityClient.AsyncChainClient.SubmissionReturned` | src/deepx_sdk/async_client.py:651-654 | the end of a submission that produced a handle |
| `CapacityClient.AsyncChainClient.SubmissionNotSent` | src/deepx_sdk/async_client.py:625-638 | the end of a submission whose bytes never left: everything it held is free again |
| `CapacityClient.AsyncChainClient.ReleaseUnboundCapacity` | src/deepx_sdk/async_client.py:956-959 | the end of a submission without a handle |
| `CapacityClient.AsyncChainClient.MarkClientClosed` | src/deepx_sdk/_pending_tx.py:385-400 | closes an open ticket and runs its status callback, passes over a closed one |
| `CapacityClient.AsyncChainClient.CloseTickets` | src/deepx_sdk/async_client.py:481-483 | closes every listed ticket in order |
| `Soundness.FollowKeeps` | src/deepx_sdk/_async_recovery.py:477-484 | asking for a block makes every open ticket that is not executed a candidate first, so a resolution begun now has them all ahead of it |
| `Soundness.ResumeIndexKeeps` | src/deepx_sdk/_async_tracker.py:257-274 | using an index settles only candidates outside the block; an open candidate of the block not matched there before becomes a match |
| `Soundness.AdvanceKeeps` | src/deepx_sdk/_async_recovery.py:454-467 | moving the cursor over the leading successes of a batch keeps the invariant that no block at or below it contains an open transaction it was neither matched with nor passed over |
| `Soundness.StepKeeps` | src/deepx_sdk/_async_recovery.py:411-484 | every step of submission, block resolution, finalized scan and classification keeps the engine's invariant, whatever fails, is cancelled or interleaves |
| `Soundness.NotIncludedExactly` | src/deepx_sdk/_async_recovery.py:411-686 | in every run, when a transaction is ruled NOT_INCLUDED, a canonical block up to the scanned head contains it exactly when that block was matched with it, or was taken up by a scan while its ticket was executed |
| `Soundness.VerdictRightIff` | src/deepx_sdk/_async_recovery.py:411-686 | so the verdict is right if and only if no canonical block up to the head was matched with it or so passed over |
| `Acceptance.NotIncludedIffUnmatched` | src/deepx_sdk/_async_recovery.py:411-686 | when no block containing it was taken up while it was executed elsewhere, matches alone decide, whether executed, retracted or raised |
| `Acceptance.ForkMatchesAreHarmless` | src/deepx_sdk/_async_recovery.py:411-686 | having been matched or executed only in blocks that are not canonical never makes the verdict wrong |
| `Acceptance.NotIncludedIsRight` | src/deepx_sdk/_async_recovery.py:411-686 | in every run, a transaction no block was ever matched with and that is ruled NOT_INCLUDED is in no canonical block up to the scanned head |
| `Acceptance.NotIncludedIsSound` | src/deepx_sdk/_async_recovery.py:411-686 | in every run, a ticket accepted before a block containing it was applied, never executed before and ruled NOT_INCLUDED at a finalized head is in no canonical block at or below that head |
| `Traps.SubmittingTrap` | src/deepx_sdk/_async_tracker.py:299-307 | a wrong verdict: the block is applied while the ticket is still SUBMITTING, the mark raises, and the transaction is later ruled NOT_INCLUDED although it is in a finalized block |
| `Traps.RetractionTrap` | src/deepx_sdk/_async_tracker.py:257-262 | a wrong verdict: the block is retracted, finalized after all, and its transaction ruled NOT_INCLUDED |
| `Traps.PassedOverTrap` | src/deepx_sdk/_async_tracker.py:515-523 | a wrong verdict without any match in the finalized block: the scan takes that block up while the ticket is executed in a fork, which is retracted before the index is used |
| `Coverage.CompleteMeansNoHole` | src/deepx_sdk/_async_recovery.py:486-502 | in every run, a record that says its scan is complete has a start, and every height from there to its end was resolved by a finalized scan |
| `Coverage.CursorOverRuns` | src/deepx_sdk/_async_recovery.py:411-467 | over every run, whatever fails, is cancelled or arrives, the scan cursor never goes back, and a height it passed was resolved or the very step that passed it was taken while no ticket was open |
| `Coverage.FailureIsRecorded` | src/deepx_sdk/_async_recovery.py:504-538 | the failure of a height is on record in every open ticket, from that height to the end of the range; exactly the stale ones are handed over, and no closed ticket is touched |
| `Coverage.BatchStopsBelowFailure` | src/deepx_sdk/_async_recovery.py:447-467 | a batch leaves the cursor just below its first height that failed or was cancelled and ends the scan |
| `Steps.ScanBeginsExactly` | src/deepx_sdk/_async_recovery.py:411-447 | the first head sets the cursor, an old one changes nothing, one without open tickets moves the cursor; otherwise the heights above the cursor are asked for, as many at once as the concurrency and the range allow |
| `Steps.GapIsRecorded` | src/deepx_sdk/_async_recovery.py:428-437 | a gap wider than the scan limit leaves cursor and scan, and is on record as missing, whole, in every open ticket; exactly the stale ones that were sent are handed over, and closed tickets stay as they were |
| `Steps.BatchGoesOn` | src/deepx_sdk/_async_recovery.py:446-467 | after a batch that succeeded throughout, the next heights are asked for until the range is covered |
| `Steps.CompletionIsRecorded` | src/deepx_sdk/_async_recovery.py:469-502 | when the last batch succeeds every open ticket gets the complete record, and exactly the sent, unexecuted tickets past the stale age are classified next |
| `Steps.CancelledBatchRecordsNothing` | src/deepx_sdk/_async_recovery.py:452-453 | a cancelled height ends the scan without any record |
| `Steps.BestFailureHandsOver` | src/deepx_sdk/_async_recovery.py:560-580 | if the best chain cannot be scanned the stale tickets still open are handed over with an incomplete record, and nobody else |
| `Steps.PoolIsAskedAboutStale` | src/deepx_sdk/_async_recovery.py:582-597 | the pool is asked about exactly the tickets past the stale age at that time |
| `Steps.HeightsCountExactly` | src/deepx_sdk/_async_recovery.py:449-466 | a height counts as resolved when its resolution returned, as cancelled when that or the request for its hash was cancelled, and else as failed |
| `Steps.SubmissionIsFresh` | src/deepx_sdk/_async_tracker.py:205-220 | a submission starts a fresh ticket, sent but not confirmed, dated now, with nothing on record |
| `Steps.ReadyConfirms` | src/deepx_sdk/_async_tracker.py:695-699 | a ready message confirms a submission not yet confirmed or retracted, and the first endpoint to know the transaction is kept |
| `Steps.InBlockConfirms` | src/deepx_sdk/_async_tracker.py:700-716 | an in-block message confirms a submission not yet confirmed, makes the transaction a candidate of its block and has the block resolved |
| `Steps.FollowingIsExact` | src/deepx_sdk/_async_tracker.py:515-523 | a followed block gets exactly the sent, open, unexecuted tickets as further candidates, and its index is asked for once |
| `Steps.IndexDecidesEveryCandidate` | src/deepx_sdk/_async_tracker.py:257-282 | with the index, each candidate is a match or settled for good, and the events are asked for once and only if there is a match |
| `Steps.ResolutionGoesOn` | src/deepx_sdk/_async_tracker.py:247-299 | an unusable index ends a resolution with nothing changed, and the events decide between the two loops over all its matches |
| `Steps.EntriesChangeExactly` | src/deepx_sdk/_async_tracker.py:255-299 | a fetch that ends is ready or broken as it succeeded or failed, and a pruned block is as if never seen; nothing else changes |
| `Steps.ScanMovesExactly` | src/deepx_sdk/_async_recovery.py:449-597 | a refused height notes whether it was cancelled, an abort ends the scan, and the pool's answer is judged for every ticket it was asked about; cursor and records stay |
| `Evidence.NotIncludedIsEvidenced` | src/deepx_sdk/_async_recovery.py:613-708 | in every run, such a ticket had been accepted, is past the stale age, and its record shows a complete scan without missing range or hole and an answer of its own submission node's pool that does not hold it |
| `Evidence.NeverAttemptedBeforeAcceptance` | src/deepx_sdk/_async_tracker.py:686-726 | in every run, the NOT_INCLUDED mark is never attempted on a ticket still CREATED or SUBMITTING |
| `Once.OncePerBlock` | src/deepx_sdk/_async_tracker.py:241-396 | in every run, under any interleaving of resolutions, a cached block's index and events are fetched at most once and each ticket is changed on its behalf at most once |
| `Once.ChangesAreStatusChanges` | src/deepx_sdk/_async_tracker.py:283-386 | what is counted for a block is exactly the status changes made for it |
| `TrackerLoops.TransactionTracker.PrepareRecoveryBlock` | src/deepx_sdk/_async_tracker.py:515-523 | adds exactly the open recoverable tickets to the block's candidates |
| `TrackerLoops.TransactionTracker.UseBlockIndex` | src/deepx_sdk/_async_tracker.py:257-282 | returns exactly the unapplied candidates inside the block, settles those outside it, and starts at most one event fetch |
| `TrackerLoops.TransactionTracker.ApplyMatches` | src/deepx_sdk/_async_tracker.py:299-395 | the loop over matches tells each its verdict, up to the mark that raises (`TrackerLoops.EveryMatchIsTold`) |
| `TrackerLoops.TransactionTracker.FailMatches` | src/deepx_sdk/_async_tracker.py:283-297 | the loop over matches when the events could not be had, up to the mark that raises (`TrackerLoops.EveryMatchIsHandedOver`) |
| `TrackerLoops.VerdictIsTold` | src/deepx_sdk/_async_tracker.py:299-395 | one match: a stored ticket the block has not settled becomes IN_BLOCK_SUCCESS exactly when it was executed, IN_BLOCK_FAILED exactly when it was reverted, RECONCILIATION_REQUIRED exactly when the outcome is unknown; in a status that refuses this the mark raises and nothing changes |
| `TrackerLoops.FailureIsTold` | src/deepx_sdk/_async_tracker.py:283-297 | one match without events: a stored ticket becomes RECONCILIATION_REQUIRED, and a closed one makes the mark raise |
| `TrackerLoops.EveryMatchIsTold` | src/deepx_sdk/_async_tracker.py:299-395 | the loop over distinct matches tells its own verdict to each stored one the block has not settled, up to the first that refuses; it raises exactly then, and nobody else changes |
| `TrackerLoops.EveryMatchIsHandedOver` | src/deepx_sdk/_async_tracker.py:283-297 | without events the loop over distinct matches hands every stored one over, up to the first that is closed; nobody else changes |
| `TrackerLoops.TransactionTracker.PruneResolvedBlocks` | src/deepx_sdk/_async_tracker.py:486-501 | the eviction loop: exactly the evicted blocks leave the cache, every other entry stays as it was, and no unfinished block is evicted |
| `TrackerLoops.ApplyLoopIsARun` | src/deepx_sdk/_async_tracker.py:299-395 | that loop is a run of the engine with one event per match, ending raised exactly when the loop raised |
| `TrackerLoops.FailLoopIsARun` | src/deepx_sdk/_async_tracker.py:283-297 | the same for the loop without events |
| `TrackerLoops.PruningIsExact` | src/deepx_sdk/_async_tracker.py:486-501 | pruning removes as many of the oldest finished blocks as are over the limit, or all finished ones if they are fewer |
| `RecoveryLoops.RecoveryTracker.BeginFinalizedScan` | src/deepx_sdk/_async_recovery.py:411-445 | the decision before a scan does one step of the engine on cursor, records and scan state (`Steps.ScanBeginsExactly`, `Steps.GapIsRecorded`) |
| `RecoveryLoops.RecoveryTracker.FollowResults` | src/deepx_sdk/_async_recovery.py:454-467 | the cursor follows the results of a batch up to the first that is not a success |
| `RecoveryLoops.RecoveryTracker.FinishBatch` | src/deepx_sdk/_async_recovery.py:446-475 | the end of a batch does one step of the engine: advance, stop and record, go on, or complete |
| `RecoveryLoops.RecoveryTracker.RecordCompleteFinalizedScan` | src/deepx_sdk/_async_recovery.py:486-502 | writes the complete record into every open ticket and touches no other |
| `RecoveryLoops.RecoveryTracker.RecordIncompleteFinalizedScan` | src/deepx_sdk/_async_recovery.py:504-538 | writes the missing range into every open ticket and hands over exactly the stale ones |
| `RecoveryLoops.RecoveryTracker.MarkReconciliationRequired` | src/deepx_sdk/_async_tracker.py:539-619 | ignored unless the ticket is open; then closed with the given record |
| `RecoveryLoops.RecoveryTracker.RecordPoolDiagnostics` | src/deepx_sdk/_async_recovery.py:688-708 | the pool check's record |
| `RecoveryLoops.RecoveryTracker.JudgeTicket` | src/deepx_sdk/_async_recovery.py:613-686 | the verdict on one stale ticket (`RecoveryLoops.JudgedExactly`), raising exactly when NOT_INCLUDED is due and illegal |
| `RecoveryLoops.RecoveryTracker.JudgeStale` | src/deepx_sdk/_async_recovery.py:598-686 | the verdict loop, up to the mark that raises |
| `RecoveryLoops.EveryStaleTicketIsAnswered` | src/deepx_sdk/_async_recovery.py:598-746 | unless a mark raised, every stale ticket ends closed or listed by the pool it was submitted to, with the complete range and the pool's endpoint on record, and no other ticket changes |
| `RecoveryLoops.JudgedExactly` | src/deepx_sdk/_async_recovery.py:594-686 | seen in the pool exactly when the answer is a listing of the pool the ticket was submitted to and holds it; absent exactly when such a listing does not; unusable otherwise. Absent rules a SUBMITTED or RETRACTED ticket out, unusable hands every sent open ticket over, and seen changes no status |
| `RecoveryLoops.EveryStaleTicketIsClassified` | src/deepx_sdk/_async_recovery.py:598-746 | the loop classifies each ticket so, in turn, and raises exactly at the first one that is absent and cannot be ruled out; nobody after it is touched |
| `RecoveryLoops.JudgeLoopIsARun` | src/deepx_sdk/_async_recovery.py:598-686 | that loop is a run of the engine which ends the scan |
| `BestHead.RecoveryTracker.FlagOverdue` | src/deepx_sdk/_async_recovery.py:363-390 | flags every ticket past its inclusion deadline with the range and no other |
| `BestHead.RecoveryTracker.ScanBestChain` | src/deepx_sdk/_async_recovery.py:352-409 | the best-head scan as specified: fast-forward, flag and skip, or batches |
| `BestHead.RecoveryTracker.DrainBestScans` | src/deepx_sdk/_async_recovery.py:861-891 | for a fixed target the loop ends; without a failure it reaches the target in exactly the number of scans the gap needs, and every height it passed is accounted for |
| `BestHead.ScanAccounted` | src/deepx_sdk/_async_recovery.py:352-409 | a scan passes a height unresolved only when nothing was pending or the gap was too wide, having flagged every overdue ticket in the same step; it raises only below a failed height or at an end whose hash failed |
| `BestHead.SkipsExactly` | src/deepx_sdk/_async_recovery.py:352-400 | a range is skipped exactly when nothing is pending or it is too wide, and then nothing in it is resolved |
| `BestHead.ScansNeededIsLeast` | src/deepx_sdk/_async_recovery.py:880-895 | the number of scans is the gap over the batch size, rounded up |
| `Reconcile.FinalizesOnlyAncestors` | src/deepx_sdk/_async_recovery.py:992-1062 | a ticket finalized by a pass was recorded, when the pass started, in the canonical block of its height, at or below the finalized head, for any batching, failed requests and concurrent changes to it and to others |
| `Reconcile.SettlesExactly` | src/deepx_sdk/_async_recovery.py:1037-1060 | in an answered batch a ticket becomes FINALIZED, recorded at the finalized head, exactly when it is executed, stored and the node names its block at its height, not above the finalized head; RECONCILIATION_REQUIRED exactly when open, stored and another block is named there; and no other ticket changes |
| `Reconcile.RaisesIff` | src/deepx_sdk/_async_recovery.py:1011-1062 | a pass raises exactly when, for some block, the header request failed, or its height is at or below the finalized head and the hash request failed |
| `Reconcile.QuietPassSettlesAll` | src/deepx_sdk/_async_recovery.py:1023-1062 | undisturbed, a pass settles every block, however it is cut into batches |
| `Reconcile.SettledBesideAFailure` | src/deepx_sdk/_async_recovery.py:1037-1062 | before a pass raises, the batch with the failed request is settled: an executed ticket confirmed in it is finalized |
| `Reconcile.OnlyExecutedAreLookedUp` | src/deepx_sdk/_async_recovery.py:1002-1009 | the pass is about the executed tickets with a recorded block, each under its own, and looks up no other block |
| `Reconcile.FinalityPass.GroupByBlock` | src/deepx_sdk/_async_recovery.py:1002-1009 | the blocks in order of first appearance, and under each the tickets recorded in it, in order |
| `Reconcile.FinalityPass.SettleBlock` | src/deepx_sdk/_async_recovery.py:1049-1060 | settles the tickets of one block and no other |
| `Reconcile.FinalityPass.SettleBatch` | src/deepx_sdk/_async_recovery.py:1037-1062 | settles every answered block of a batch even when another one failed |
| `Reconcile.FinalityPass.ReconcileFinalized` | src/deepx_sdk/_async_recovery.py:992-1062 | the whole pass with its lookups and their comparison with the finalized head, and arbitrary changes to the tickets while each batch is looked up |
| `Gate.EveryRunIsSound` | src/deepx_sdk/_async_encoder.py:141-170 | for any tasks, wake-ups and cancellations while waiting: at most one holder, an exact count of waiting priority tasks, and no waiter without a coming wake-up whose predicate is true |
| `Gate.NormalYieldsToPriority` | src/deepx_sdk/_async_encoder.py:151-159 | in every run a task without priority enters only when no priority task waits and nobody is inside |
| `Gate.EntersExactly` | src/deepx_sdk/_async_encoder.py:141-170 | in every run a task that asks or is woken enters exactly when nobody is inside and it has priority or no priority task waits; nobody else enters, and only a release lets anybody out |
| `Gate.FreeGateIsNotStuck` | src/deepx_sdk/_async_encoder.py:141-170 | a free gate with waiters has one whose wake-up is coming and will let it in |
| `Gate.EveryoneIsServed` | src/deepx_sdk/_async_encoder.py:141-170 | once no task arrives, any order of wake-ups and releases ends, within a bound, and when none is left everybody has been served |
| `Gate.PriorityGate.NotifyWaiters` | src/deepx_sdk/_async_encoder.py:163 | sets every waiter's wake-up |
| `Gate.PriorityGate.LeaveQueue` | src/deepx_sdk/_async_encoder.py:160-163 | a priority task that stops waiting, by entry or cancellation, corrects the count and wakes all |
| `Gate.PriorityGate.Arrive` | src/deepx_sdk/_async_encoder.py:148-163 | arriving either enters or joins the waiters |
| `Gate.PriorityGate.Retry` | src/deepx_sdk/_async_encoder.py:154-163 | a woken waiter enters or waits on |
| `Gate.PriorityGate.GiveUp` | src/deepx_sdk/_async_encoder.py:160-163 | a cancelled waiter leaves the queue and the count |
| `Gate.PriorityGate.Leave` | src/deepx_sdk/_async_encoder.py:164-170 | leaving frees the gate and wakes all |
| `Nonce.NothingToSkip` | src/deepx_sdk/_async_encoder.py:63-77 | after any calls the next automatic nonce is the estimate or one above the high-water mark, whichever is more, and becomes the mark: the skip loop never turns |
| `Nonce.ExplicitNonces` | src/deepx_sdk/_async_encoder.py:81-101 | an explicit nonce is refused exactly when negative, more than an hour from the estimate either way, or held; else it is held and raises the mark only if above it; releasing lets go of it and keeps the mark |
| `Nonce.AutomaticNoncesIncrease` | src/deepx_sdk/_async_encoder.py:63-101 | in every run an automatic nonce exceeds every nonce issued before it, automatic or explicit, held or released, however the clock moves |
| `Nonce.NoTwoHolders` | src/deepx_sdk/_async_encoder.py:63-101 | between two issues of one nonce it was released, and the second was an explicit request |
| `Nonce.TimestampNonceAllocator.Next` | src/deepx_sdk/_async_encoder.py:63-77 | issues the least free nonce from the start value on and raises the mark to it |
| `Nonce.TimestampNonceAllocator.Reserve` | src/deepx_sdk/_async_encoder.py:81-96 | takes an explicit nonce exactly when it is non-negative, within one hour of the estimate and not reserved; never lowers the mark |
| `Nonce.TimestampNonceAllocator.Release` | src/deepx_sdk/_async_encoder.py:98-101 | forgets a reservation and keeps the mark |
| `Compact.EncodesExactly` | src/deepx_sdk/_native_py.py:1883-1900 | encoding succeeds exactly for numbers of at most 67 bytes, and its padding never applies |
| `Compact.DecodeUndoesEncode` | src/deepx_sdk/_native_py.py:1883-1981 | decoding inside any surrounding bytes gives back every number of 32 bits and the position after it, in all four modes |
| `Compact.RoundTripIff` | src/deepx_sdk/_native_py.py:1979-1980 | encoding accepts more than decoding takes back: the round trip holds exactly below 2 to the 32 |
| `Compact.EncodeUndoesDecodeIff` | src/deepx_sdk/_native_py.py:1956-1981 | decoding also accepts longer forms: encoding again gives the same bytes exactly when the form was the shortest |
| `Compact.DecodeIsLocal` | src/deepx_sdk/_native_py.py:1956-1981 | decoding looks only at the bytes it consumes |
| `EventBatches.RecordsRead` | src/deepx_sdk/_native_py.py:1929-1947 | the record loop reads a count of self-delimiting records to their events, in order |
| `EventBatches.ReadingEnds` | src/deepx_sdk/_native_py.py:1929-1947 | the record loop fails at an unreadable record and stops without error at one that takes no bytes, with what was read before it |
| `EventBatches.WholeOrOneByOne` | src/deepx_sdk/_native_py.py:1903-1953 | a vector the library reads as a whole is what it says; else the records decide, and finding none is an error only if the whole raised |
| `EventBatches.NormalizeFinds` | src/deepx_sdk/_native_py.py:1852-1880 | unwrapping finds the batch, stored directly or inside a byte vector |
| `EventBatches.UnwrapsExactly` | src/deepx_sdk/_native_py.py:1852-1880 | unwrapping returns the value itself if it reads as events, else what follows a length covering exactly the rest if that does, else nothing |
| `EventBatches.GatheredIsJoined` | src/deepx_sdk/_native_py.py:1835-1849 | the running total and payload are the count and bytes of the batches joined so far |
| `EventBatches.GatheringFailsIff` | src/deepx_sdk/_native_py.py:1835-1849 | joining fails exactly when some value fails, with the first failure |
| `EventBatches.JoiningPreservesEvents` | src/deepx_sdk/_native_py.py:1835-1849 | decoding the joined bytes gives the events of all batches in order, for fewer than 2 to the 32 records in all |
| `EventBatches.TooManyRecordsCannotBeRead` | src/deepx_sdk/_native_py.py:1835-1849 | with more records the count is written and cannot be read back |
| `EventBatches.DecodeEventRecords` | src/deepx_sdk/_native_py.py:1903-1953 | the vector decoder with its record-by-record loop, early stop and errors |
| `EventBatches.GatherBatches` | src/deepx_sdk/_native_py.py:1835-1849 | the joining loop with its running total and payload, until a value fails |
| `EventBatches.CombineBatches` | src/deepx_sdk/_native_py.py:1835-1849 | the joined bytes, or the first failure |
| `Requests.IdsAreFresh` | src/deepx_sdk/_async_transport.py:333-334 | in every run a new request gets an id no request had before |
| `Requests.SettledOnce` | src/deepx_sdk/_async_transport.py:637-691 | a settled future keeps its outcome for ever |
| `Requests.SettledExactlyBy` | src/deepx_sdk/_async_transport.py:637-691 | in every run an unsettled request is settled by a response, with that response's outcome, by the loss of the current socket or a failed close, with a failure, or by its timer or its caller's cancellation; by nothing else |
| `Requests.SendIsBegunExactlyBy` | src/deepx_sdk/_async_transport.py:348-357 | in every run bytes of a request may leave only by its own send, exactly when it is unsettled and the link is up |
| `Requests.LinkFollowsSocket` | src/deepx_sdk/_async_transport.py:943-962 | the cleanup of another socket, or after a close, changes nothing; that of the current one takes the link down |
| `Requests.DisconnectSettlesAll` | src/deepx_sdk/_async_transport.py:876-993 | in every run, a disconnect of the current socket or a close leaves no request unsettled |
| `Requests.FailureFlagIsExact` | src/deepx_sdk/_async_transport.py:876-892 | in every run, an error given by failing all requests says bytes may have left exactly when that request's send was begun |
| `Requests.TimeoutFlagIff` | src/deepx_sdk/_async_transport.py:364-386 | the flag of a timeout is right exactly unless a disconnect or close came between the send and the timer; so it is right for every request unsettled until then |
| `Requests.TimeoutCanDenyASend` | src/deepx_sdk/_async_transport.py:365-368 | a run in which a timeout reports that nothing was sent although the send was begun |
| `Requests.AsyncRpcTransport.StartRequest` | src/deepx_sdk/_async_transport.py:317-339 | refuses without a link, else registers a request under a fresh id |
| `Requests.AsyncRpcTransport.BeginSend` | src/deepx_sdk/_async_transport.py:348-357 | notes the send unless the future is settled or the link is gone |
| `Requests.AsyncRpcTransport.DispatchResponse` | src/deepx_sdk/_async_transport.py:637-691 | settles an outstanding request once and ignores every other response |
| `Requests.AsyncRpcTransport.FailRequests` | src/deepx_sdk/_async_transport.py:876-892 | swaps both tables and fails every unsettled future in them with the swapped flag |
| `Requests.AsyncRpcTransport.DisconnectCleanup` | src/deepx_sdk/_async_transport.py:943-962 | only the current socket's cleanup fails the requests |
| `Requests.AsyncRpcTransport.TimeOut` | src/deepx_sdk/_async_transport.py:365-371 | reads the flag from the live table and cancels an unsettled future |
| `Requests.AsyncRpcTransport.FinishRequest` | src/deepx_sdk/_async_transport.py:404-413 | forgets the request |
| `Subscriptions.NotificationsAreExact` | src/deepx_sdk/_async_transport.py:601-691 | over any undisturbed run, whether the reply naming the subscription comes before, between or after them, its notifications are received once each in arrival order |
| `Subscriptions.KeptIffCalm` | src/deepx_sdk/_async_transport.py:609-635 | an item is kept exactly when there is room: in the route's queue, or in the early buffer with a subscribe in flight and no tombstone |
| `Subscriptions.ReplyReplaysEarly` | src/deepx_sdk/_async_transport.py:663-686 | the new route's queue starts with exactly what had arrived before the reply |
| `Subscriptions.ReplayIsWhole` | src/deepx_sdk/_async_transport.py:681-686 | the early buffer is smaller than the queue, so the queue-full break in the replay is never taken |
| `Subscriptions.GivenUpIsGone` | src/deepx_sdk/_async_transport.py:467-473 | forgetting a subscription, or ending an uncompleted subscribe that owns its route, removes the route and leaves the id as the youngest tombstone; no other route changes |
| `Subscriptions.GivenUpIsSilent` | src/deepx_sdk/_async_transport.py:609-635 | in every run what arrives late for such an id is neither delivered nor buffered, until a reply names it again, the transport closes, or enough younger ids are buried |
| `Subscriptions.RoutesEndExactly` | src/deepx_sdk/_async_transport.py:601-743 | an overflow drops the route alone, a duplicate reply registers nothing, a completed subscribe keeps its route, and a lost connection drops every route |
| `Subscriptions.StepKeepsBounded` | src/deepx_sdk/_async_transport.py:40-42 | every step keeps the early buffer, the tombstones and the queues within their limits |
| `Subscriptions.SubscriptionTable.EarlyTotal` | src/deepx_sdk/_async_transport.py:630 | the number of buffered items over all ids |
| `Subscriptions.SubscriptionTable.DispatchNotification` | src/deepx_sdk/_async_transport.py:601-635 | queue, drop the route when full, buffer, or ignore, as specified |
| `Subscriptions.SubscriptionTable.RegisterRoute` | src/deepx_sdk/_async_transport.py:663-686 | registers the route and replays, or refuses a duplicate and changes nothing |
| `Subscriptions.SubscriptionTable.RememberUnsubscribed` | src/deepx_sdk/_async_transport.py:739-743 | newest tombstone last, oldest dropped beyond the limit (`Subscriptions.RememberedIsYoungest`) |
| `Subscriptions.SubscriptionTable.ForgetSubscription` | src/deepx_sdk/_async_transport.py:467-473 | drops route and buffer and leaves a tombstone |
| `Retention.LiveEntriesAreKept` | src/deepx_sdk/_async_tracker.py:205-220 | in every run the tracker stores under a hash the ticket submitted last with it, exactly while that ticket is open or retained, even when hashes are submitted again |
| `Retention.EntriesAreBounded` | src/deepx_sdk/_async_tracker.py:459-484 | stored entries number at most the active ones plus the retention limit |
| `Retention.ClosingRetainsTheNewest` | src/deepx_sdk/_async_tracker.py:459-484 | the tickets closed last while still stored are retained, in order, as many as the limit allows; a displaced ticket takes nobody's place |
| `Retention.EvictKeepsIndexed` | src/deepx_sdk/_async_tracker.py:477-484 | an eviction loop keeps an index exactly for the tickets still kept |
| `Retention.TransactionTracker.Submit` | src/deepx_sdk/_async_tracker.py:205-220 | stores the ticket in both tables, displacing another with its hash |
| `Retention.TransactionTracker.TrimCompleted` | src/deepx_sdk/_async_tracker.py:477-484 | the eviction loop |
| `Retention.TransactionTracker.TransactionClosed` | src/deepx_sdk/_async_tracker.py:459-484 | a closed ticket leaves the active table and, if still stored, joins the bounded queue |
| `Retention.ManagerDropsOnlyCompleted` | src/deepx_sdk/_transaction_manager.py:121-192 | in every run both indexes answer with the newest ticket of a hash or cloid exactly while it is open or retained, and no ticket stays registered longer |
| `Retention.ManagerIsBounded` | src/deepx_sdk/_transaction_manager.py:181-192 | each index and the registration set hold at most the open tickets plus the retention limit |
| `Retention.ManagerRetainsTheNewest` | src/deepx_sdk/_transaction_manager.py:156-192 | the manager retains the tickets closed last, in order, as many as the limit allows |
| `Retention.TransactionManager.Register` | src/deepx_sdk/_transaction_manager.py:121-131 | enters a new ticket into the indexes |
| `Retention.TransactionManager.TrimCompleted` | src/deepx_sdk/_transaction_manager.py:181-192 | the eviction loop over both indexes |
| `Retention.TransactionManager.RetainCompleted` | src/deepx_sdk/_transaction_manager.py:156-192 | a closed ticket joins the bounded queue |

## Left out

- Sockets, proxies, JSON, reconnect delays, timers and logging: a request may fail, time out, be cancelled or return any value.
- Signing, hashing, metadata and event decoding: extrinsics are their hashes, and a record decoder is any function; a decoded outcome is an input of the step that uses it.
- REST, WebSocket and EVM wrappers, market helpers, error tables, health reports, timings and the blocking facade: no property of the kind proved here.
- The engine gives each transaction hash one ticket. Submitting a hash again is modelled in `Retention`, and in `CapacityRuns` as a ticket the tracker has lost; such a ticket is neither forced out nor closed by `close`: `BacklogWithinLimitIff` and `CloseEmptiesIff` say exactly when that matters. In the engine retention may drop a closed ticket's entry at any time.
- Inside the engine the best-head scan appears only through the block resolutions it starts and its success or failure; its own cursor is in `BestHead`, from the first known head on.
- `_drain_finalized_scans` and the watchdog only choose when a finalized scan begins, which the engine leaves open; that `_last_finalized_number` may lag the scan cursor after a cancellation is allowed by it.
- A resolution begun for a ticket's own in-block or finalized message is one resolution with a candidate added; the FINALIZED mark after it is the engine's `Mark`.
- Result decoders are taken to return a value: a decoder that returns nothing makes `mark_finalized` raise in the source.
- In the capacity runs the only callback that marks a ticket is the client's own; callbacks of users are in `PendingTx`.
- The nonce references are counted; what the client asks of the allocator when a reference appears or goes is not, so nothing is claimed about a referenced nonce being reserved.
- The priority gate's lock is never held across an await, so its acquisition and hand-over are not modelled.
- The send lock only orders sends; `Requests` lets any queued request begin its send at any time.
- Subscription handlers: the route's worker takes items off the queue in order; failures inside a handler have no effect on the route.
- An event vector read under one of its type names is taken to agree with the record-by-record loop (`EventBatches.Agrees`).
- The client's sort breaks ties of creation time by insertion order; a ticket's id stands for that order.
- PendingTx.TerminalSettlesEveryWaiter: asks that no retraction be ended by its own callbacks after somebody waited for a result, because without that the promise is false; `PendingTx.RetractionHarmlessIff` and `PendingTx.CalmThroughoutIff` are exact, the latter for histories whose callbacks retract harmlessly.
- Acceptance.NotIncludedIsSound: asks that the ticket was accepted before a block containing it was applied and never executed before, because it is false without; `Soundness.VerdictRightIff` is exact, with no condition on the run.
- CapacityRuns.EveryRunIsSound: its backlog bound excepts executed tickets lost to the tracker, because forcing one does nothing; `CapacityRuns.BacklogWithinLimitIff` is exact.
