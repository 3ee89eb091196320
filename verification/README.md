# Verified model of the dmpf backend libraries

Dafny 4.11 models of the parts of the repository where a mistake would lose a message, repeat an
effect or leave an external command in doubt, with proofs of what those parts promise. `dafny verify
dfyconfig.toml` checks the whole project.

The models follow the code, file by file. Code that updates state in place is a class whose methods
are proved against functions on values; the promises are lemmas about those functions and about every
run of the step systems built from them. Code that only computes is functions and lemmas.

- **External commands** (`ports`, `attempt_rows`, `attempt_laws`, `stale_pages`, `next_step`,
  `dispatch_*`, `postgres_ledger`, `begin_race`): the attempt ledger in both realizations, and
  Dispatch, Abandon, Resolve and the sweep as a step system in which any number of callers interleave
  and any of them may fail or crash between two transactions.
- **Sweep and time budget** (`sweep`, `external_budget`, `dispatch_timing`): cursor paging over a ledger
  that changes while it is walked, and the limits under which no live owner is taken for dead.
- **Consumption** (`partition_worker`, `worker_run`, `consumer_registry`, `consumer_adapter`, `dispositions`,
  `inboxes`, `memory_tables`, `unit_of_work`, `reservations`, `reservations_system`): the Kafka worker, the adapter,
  the inbox, the unit of work and one context's use cases, first each on its own, then composed with
  overlapping workers, crashes, late commits and concurrent commands.
- **Idempotent commands** (`idempotent`, `idempotent_laws`, `varint`, `fingerprint`, `outcome_codec`,
  `external_profile`, `outbound_key`): replay of the first outcome, and the encodings it rests on.
- **Smaller state machines** (`revocation`, `object_store`, `semver`, with `text_order`, `text_split` and
  `decimals`): the revocation index against the raw event log, object retention, release tags.

## What the proofs found

- Postgres `beginRound` reads the done row and the last row in two statements. A redelivery whose done
  read precedes a finish and whose last read follows it starts a new attempt of a message already
  finished for good: `BeginRaces.TheRaceResubmits` shows the run from any ledger, and
  `BeginRaces.StartsDoneMessageExactlyWhenFinishedBetweenReads` that nothing else does it.
- With `QueuePerPartition` of one the first record pauses the fetch and taking it never resumes it,
  because half of one is zero: once that record is acknowledged the worker waits with no step of its
  own left. With any greater capacity no run gets there: `WorkerRuns.StarvesExactlyWhenCapacityIsOne`,
  `WorkerRuns.StarvedForGood`, `PartitionWorkers.CapacityOneStarves`.
- The poll loop allows rebalances before `stopAll` runs. An assignment let in while `stopAll` waits for a
  partition's worker creates a second one, idle because nothing polls any more; nothing else gives a
  partition two running workers: `ConsumerRegistries.SecondWorkerExactlyWhen`,
  `ConsumerRegistries.ShutdownMayOverlapAnAssignment`.
- A rejection with more than 1024 details is stored but cannot be read back, so its replays fail:
  `OutcomeCodecs.OutcomeRoundTrip` gives both directions.
- Numbers no `int` holds separate the release tags from Semantic Versioning 2.0.0. A core number that
  large is refused; a numeric identifier that large is taken for a word, so it may lead with a zero,
  against section 9, and compares as text, against section 11. Build metadata aside, nothing else differs:
  `SemVers.AcceptedAgainstTheSpecification`, `SemVers.LeadingZeroPassesExactlyWhenHuge`,
  `SemVers.VersionsAgreeExactlyWhen`, `SemVers.GreatestBySection11ExactlyWhen`.
- Resume and the sweep test the stale cut alike exactly when the attempt's age and the sweep's cutoff
  both stay in int64 or both leave it. Since 1970 only an age beyond int64 separates them:
  `ExternalBudgets.SameCutExactlyWhen`, `ExternalBudgets.SameCutSinceTheEpoch`, `ExternalBudgets.CutsDiffer`.
- Scoping a command's inbox entry as tenant, slash, key separates tenants only because the key pattern
  excludes the slash: `Inboxes.CommandIDNeedsThePattern`.

## Model

| member | source | states |
|---|---|---|
| AttemptLaws.FinishMeaning | libs/backend/go/memory/attempt_ledger.go:98-129 | A first outcome is recorded whatever it is; a later one never replaces it; conflict, saturated and unchanged each exactly when |
| AttemptLaws.PresumedNeverConflicts | libs/backend/go/memory/attempt_ledger.go:116-127 | A presumed outcome yields to a recorded one and adds no conflict |
| AttemptLaws.ObserveMeaning | libs/backend/go/memory/attempt_ledger.go:131-177 | Recorded, conflict and saturated each exactly when; the query count, the finding and the seen IDs each result leaves |
| AttemptLaws.FirstTerminalFindingRecorded | libs/backend/go/memory/attempt_ledger.go:148-176 | A first terminal finding under an unseen ID is recorded even on a saturated row, and nothing is recorded after it |
| AttemptLaws.BeginMeaning | libs/backend/go/memory/attempt_ledger.go:73-96 | An attempt starts exactly when the message finished none for good and no attempt of the key is begun; it takes the next number; done and pending report the rows they stand for |
| AttemptLaws.FinishKeeps | libs/backend/go/memory/attempt_ledger.go:98-129 | Finish keeps the ledger invariant, rewrites no outcome, and touches one row |
| AttemptLaws.ObserveKeeps | libs/backend/go/memory/attempt_ledger.go:131-177 | Observe reaches only the last, finished attempt of the key and keeps the ledger invariant |
| AttemptLaws.RunsKeepTheLedger | libs/backend/go/memory/attempt_ledger.go:73-177 | Over every run of calls, classes and terminal findings are write-once, attempts are numbered without gaps, and only the last can be begun |
| AttemptLaws.EntryBounds | libs/backend/go/memory/attempt_ledger.go:37-39 | In every reachable ledger a row holds at most 64 seen IDs and 64 conflicts and counts at most 65 queries |
| MemoryLedgers.MemoryLedger.Begin | libs/backend/go/memory/attempt_ledger.go:73-96 | The in-place call answers and leaves what the ledger function does |
| MemoryLedgers.MemoryLedger.Finish | libs/backend/go/memory/attempt_ledger.go:98-129 | The in-place call answers and leaves what the ledger function does |
| MemoryLedgers.MemoryLedger.Observe | libs/backend/go/memory/attempt_ledger.go:131-177 | The in-place call answers and leaves what the ledger function does |
| MemoryLedgers.MemoryLedger.Stale | libs/backend/go/memory/attempt_ledger.go:181-196 | A page is the first begun attempts at or before the cutoff past the cursor, in strictly ascending order, across tenants |
| StalePages.CursorAntisymmetric | libs/backend/go/memory/attempt_ledger.go:198-205 | The cursor order is antisymmetric and tells distinct cursors apart |
| StalePages.CursorTransitive | libs/backend/go/memory/attempt_ledger.go:198-205 | The cursor order is transitive |
| NextSteps.StepMeaning | libs/backend/go/application/next_step.go:52-103 | Confirm, fail, suspend, retry, await and query, each exactly when; reconciliation is what remains |
| DispatchTheorems.StepKeeps | libs/backend/go/application/dispatch.go:73-237 | Every step of every caller, the sweep and the resolution keeps the protocol's invariant |
| DispatchTheorems.OncePerAttemptAndMessage | libs/backend/go/application/dispatch.go:132-237 | In every interleaving with redeliveries and crashes: one Submit per attempt, one outcome step per attempt, one dispatched step per message, and every attempt settled for good was applied once unless closed under an existing inbox entry |
| DispatchTheorems.ClosedOnlyUnderAnEarlierEntry | libs/backend/go/application/dispatch.go:172-192 | An attempt is closed without a step only when its message's entry stood before that transaction |
| DispatchTheorems.LedgerOnlyEvolves | libs/backend/go/application/dispatch.go:217-237 | Between any two states of a run no recorded class, terminal finding or attempt number changes |
| DispatchTheorems.DoneMessageIsNotResubmitted | libs/backend/go/memory/attempt_ledger.go:84-95 | Once a message finished an attempt for good, only callers already past Begin can still send it, in every continuation of the run |
| DispatchTheorems.AsksWithinTheCeiling | libs/backend/go/application/resolve.go:37-66 | Counting dispatch or abandon and every resolution, an attempt is asked about at most as often as its profile allows |
| DispatchTheorems.NothingFollowsATerminalFinding | libs/backend/go/application/resolve.go:37-51 | After a finding confirmed or failed an attempt, no later step is applied to it |
| DispatchSafety.SettleTxKeeps | libs/backend/go/application/dispatch.go:164-200 | The settlement's transaction, under each reception and each ledger answer, keeps the invariant |
| DispatchSafety.AbandonTxKeeps | libs/backend/go/application/abandon.go:40-63 | The presumed close and its step, or neither, keep the invariant |
| DispatchSafety.ResolveTxKeeps | libs/backend/go/application/resolve.go:37-66 | Only a recorded observation applies a step, and the bounds on questions hold after it |
| DispatchSafety.CloseRetryableKeeps | libs/backend/go/application/dispatch.go:139-161 | Closing a retryable outcome on its own neither settles the attempt nor yields a second owner |
| DispatchCalls.ExternalStore.Dispatch | libs/backend/go/application/dispatch.go:73-100 | A whole dispatch, run through the stores in place with the clock moving between its transactions, is a run of the protocol's steps |
| DispatchCalls.ExternalStore.Submit | libs/backend/go/application/dispatch.go:132-162 | The call, its reply and the retryable close, each at its own instant, are the protocol's steps; an unknown class counts as uncertain |
| DispatchCalls.ExternalStore.CloseTransaction | libs/backend/go/application/dispatch.go:145-161 | The retryable close in place is the protocol's step, and only a class recorded meanwhile for good goes on to settle |
| DispatchCalls.ExternalStore.Outcome | libs/backend/go/application/dispatch.go:73-130 | After Begin, a delivery settles its own call, presumes an owner past its cut at the instant it looked, repeats a recorded class, or waits; the settlement has its own instant |
| DispatchCalls.ExternalStore.Settle | libs/backend/go/application/dispatch.go:164-200 | Ledger, inbox and step are written together or not at all, with the disposition of the reception |
| DispatchCalls.ExternalStore.CloseUnderEntry | libs/backend/go/application/dispatch.go:214-222 | The attempt of a message already registered is closed alone, recorded exactly when the ledger took the outcome |
| DispatchCalls.ExternalStore.Abandon | libs/backend/go/application/abandon.go:40-63 | The sweep's close in place is the protocol's abandon step |
| DispatchCalls.ExternalStore.Resolve | libs/backend/go/application/resolve.go:37-66 | The resolution in place is the protocol's resolve step |
| PostgresLedgers.BeginAgrees | libs/backend/go/postgres/attempt_ledger.go:127-187 | From agreeing stores, Begin over the SQL statements answers as the memory ledger and agrees after |
| PostgresLedgers.FinishAgrees | libs/backend/go/postgres/attempt_ledger.go:189-229 | From agreeing stores, Finish over the SQL statements answers as the memory ledger and agrees after |
| PostgresLedgers.ObserveAgrees | libs/backend/go/postgres/attempt_ledger.go:245-303 | From agreeing stores, Observe over the SQL statements answers as the memory ledger and agrees after |
| PostgresLedgers.RunsAgree | libs/backend/go/postgres/attempt_ledger.go:15-78 | Over every sequential run the two ledgers give the same responses |
| PostgresLedgers.FromEmptyRunsAgree | libs/backend/go/postgres/attempt_ledger.go:127-303 | The same, from empty stores |
| PostgresLedgers.PostgresLedger.Begin | libs/backend/go/postgres/attempt_ledger.go:127-145 | Alone, the rounds of Begin answer what one round does |
| PostgresLedgers.PostgresLedger.Finish | libs/backend/go/postgres/attempt_ledger.go:189-229 | The statements in sequence answer and leave what the table function does |
| PostgresLedgers.PostgresLedger.Observe | libs/backend/go/postgres/attempt_ledger.go:245-303 | The statements in sequence answer and leave what the table function does |
| BeginRaces.StepKeeps | libs/backend/go/postgres/attempt_ledger.go:147-169 | With reads and inserts of any number of clients interleaved, attempts stay 1..n and only the last can be begun |
| BeginRaces.RunKeeps | libs/backend/go/postgres/attempt_ledger.go:29-32 | In every state of every run of racing clients attempts stay 1..n and only the last can be begun |
| BeginRaces.NothingRecordedIsLost | libs/backend/go/postgres/attempt_ledger.go:29-32 | Between any two states of a run of racing clients no attempt disappears, changes its message, or changes its class once finished |
| BeginRaces.LosesOnlyToAnotherInsert | libs/backend/go/postgres/attempt_ledger.go:138-169 | A client loses its round exactly when another inserted the same number after this one's read |
| BeginRaces.StartsDoneMessageExactlyWhenFinishedBetweenReads | libs/backend/go/postgres/attempt_ledger.go:148-153 | A started attempt belongs to a message already done exactly when the done row appeared between the two reads |
| BeginRaces.TheRaceResubmits | libs/backend/go/postgres/attempt_ledger.go:148-169 | From any table with the message's attempt begun, that interleaving starts a second attempt |
| Sweeps.SweepStale | libs/backend/go/application/sweep.go:21-42 | A page counts what it saw and closed and resumes at its last attempt, whatever closes fail; a failed listing reports nothing and a cancelled context ends the page before its next attempt |
| Sweeps.SweepCycle | libs/backend/go/app/sweep.go:85-100 | The cycle ends; it visits stale attempts only, each once, in cursor order and skipping none behind its last; unless a listing failed or it was cancelled, every attempt still begun at the last listing, for any batch, failing closes and concurrent changes |
| Sweeps.StillStaleOrFinished | libs/backend/go/app/sweep.go:76-100 | An attempt stale at the start stays listed exactly until it is finished |
| Sweeps.NextPageIsSmaller | libs/backend/go/memory/attempt_ledger.go:181-196 | What is ahead of the cursor strictly shrinks with every page that listed anything |
| ExternalBudgets.ValidateMeaning | libs/backend/go/app/external_budget.go:26-44 | A budget is accepted exactly when its parts are positive, the call and settlement fit the deadline, and the cut is an int64 |
| ExternalBudgets.StaleAfterIsTheSum | libs/backend/go/app/external_budget.go:46-51 | An accepted budget's cut is the exact sum, nothing wrapped |
| ExternalBudgets.StaleAfterSaturates | libs/backend/go/app/external_budget.go:46-51 | Positive parts whose sum overflows saturate instead of wrapping into the past |
| ExternalBudgets.SameCutExactlyWhen | libs/backend/go/application/dispatch.go:124-130 | Resume and the sweep agree on an attempt exactly when its age and the sweep's cutoff both stay in int64 or both leave it; neither leaving it, both test the age itself |
| ExternalBudgets.SameCutSinceTheEpoch | libs/backend/go/app/sweep.go:80 | With a clock past 1970 they agree exactly when the age fits int64, so on every attempt started since |
| ExternalBudgets.CutsDiffer | libs/backend/go/app/sweep.go:80 | An age that wraps and a cutoff that wraps each separate the two tests, in opposite ways |
| DispatchTiming.CallsNeverOverlap | libs/backend/go/application/dispatch.go:73-162 | When owners keep their limits, no two callers own an attempt of one tenant and key at once, from begin to settled |
| DispatchTiming.LiveOwnersAreNotPresumed | libs/backend/go/application/dispatch.go:124-130 | When owners keep their limits, neither a redelivery nor the sweep presumes a live owner's attempt |
| DispatchTiming.NoLiveOwnerIsPresumed | libs/backend/go/app/external_budget.go:46-51 | The single step: a fresh attempt never passes the stale cut of either path |
| KafkaCursors.Cursor.Track | libs/backend/go/kafka/offsets.go:19-21 | A tracked record joins the end, not acknowledged |
| KafkaCursors.Cursor.Mark | libs/backend/go/kafka/offsets.go:24-31 | The first record at the offset is acknowledged, an unknown offset changes nothing |
| KafkaCursors.Cursor.NextContiguous | libs/backend/go/kafka/offsets.go:35-48 | The acknowledged prefix is given up whole, and its last record is the one to commit |
| PartitionWorkers.Acknowledger.Decide | libs/backend/go/kafka/acknowledger.go:33-41 | The first gesture is terminal, a second one is refused |
| PartitionWorkers.PartitionWorker.Enqueue | libs/backend/go/kafka/worker.go:61-76 | The locked section of enqueue, with the pause at capacity |
| PartitionWorkers.PartitionWorker.Next | libs/backend/go/kafka/worker.go:120-134 | The locked section of next, with the resume below half the capacity |
| PartitionWorkers.PartitionWorker.Stall | libs/backend/go/kafka/worker.go:223-235 | The worker stalls and pauses, and asks for the pause only once |
| PartitionWorkers.PartitionWorker.PauseForBackoff | libs/backend/go/kafka/worker.go:237-245 | The pause of a backoff, asked for only once |
| PartitionWorkers.PartitionWorker.ResumeAfterBackoff | libs/backend/go/kafka/worker.go:247-257 | The pause is lifted unless stalled or at capacity |
| PartitionWorkers.PartitionWorker.ResumeFetch | libs/backend/go/kafka/worker.go:210-218 | A leaving worker lifts the pause it carried |
| PartitionWorkers.PartitionWorker.MarkRevoked | libs/backend/go/kafka/worker.go:85-89 | The commit gate closes and nothing else changes |
| PartitionWorkers.PartitionWorker.TakePrefix | libs/backend/go/kafka/worker.go:262-276 | A revoked worker takes no prefix but the revocation's final one |
| PartitionWorkers.DrainedPartitionResumesExactlyWhen | libs/backend/go/kafka/worker.go:120-134 | Taking the last queued record lifts the pause exactly when the capacity is at least two |
| PartitionWorkers.CapacityOneStarves | libs/backend/go/kafka/worker.go:61-134 | A capacity of one pauses on the first record and stays paused with nothing queued |
| WorkerRuns.StepKeeps | libs/backend/go/kafka/worker.go:61-276 | Every step of the poll loop, the worker, the rebalance and a cancellation at any moment keeps the worker's invariant |
| WorkerRuns.SinkSeesRecordsInOrder | libs/backend/go/kafka/worker.go:139-193 | The sink sees records in enqueue order, each with attempts 1, 2, ... up to the limit, and the next only after this one was acknowledged |
| WorkerRuns.CommitsAreAcknowledgedPrefixes | libs/backend/go/kafka/worker.go:262-276 | In every run each record under every commit was acknowledged by the sink, no commit is empty, and each covers more than the one before it |
| WorkerRuns.RevokedTakesNoPrefix | libs/backend/go/kafka/worker.go:85-89 | After markRevoked no prefix is taken but the final one, after the worker left, and it covers every acknowledgement |
| WorkerRuns.PauseFollowsLoad | libs/backend/go/kafka/worker.go:58-76 | In every run a full queue keeps the fetch paused, and past a stall or a backoff a pause stands only on half a capacity queued |
| WorkerRuns.StarvesExactlyWhenCapacityIsOne | libs/backend/go/kafka/worker.go:118-134 | Some run leaves a worker waiting on an empty queue with its fetch paused, neither stalled, revoked nor cancelled, exactly when the declared capacity is one |
| WorkerRuns.StarvedForGood | libs/backend/go/kafka/worker.go:118-134 | A worker so starved has no step of its own: only a new record, a revocation or a cancellation can follow |
| WorkerRuns.StalledStaysPaused | libs/backend/go/kafka/worker.go:223-235 | A stalled worker delivers and takes nothing more and stays paused until the revocation |
| ConsumerRegistries.ValidateTimesMeaning | libs/backend/go/kafka/consumer.go:76-93 | Declared times are accepted exactly when processing and grace are positive and together below the rebalance timeout |
| ConsumerRegistries.OneWorkerPerPartition | libs/backend/go/kafka/consumer.go:198-303 | Over every run of assignments, revocations, exits and shutdowns no partition has two running workers before the first assignment that overlaps a shutdown, and that one gives it two |
| ConsumerRegistries.SecondWorkerExactlyWhen | libs/backend/go/kafka/consumer.go:198-303 | A step gives a partition its second running worker exactly when it assigns it while a shutdown still waits for the first |
| ConsumerRegistries.ShutdownMayOverlapAnAssignment | libs/backend/go/kafka/consumer.go:159-169 | For every partition such a run exists: rebalances are allowed before the shutdown's wait |
| ConsumerRegistries.RefusedExactlyWhenStuck | libs/backend/go/kafka/consumer.go:195-211 | A partition is refused exactly when a released worker of it did not leave in time, and stays refused through every step, a shutdown's included |
| ConsumerRegistries.Consumer.Worker | libs/backend/go/kafka/consumer.go:198-211 | First sight creates, a known partition answers its worker, a stuck one none |
| ConsumerRegistries.Consumer.AwaitLeave | libs/backend/go/kafka/consumer.go:305-327 | Under one grace, who ended is left and who did not is stuck, and none is reported stuck before the grace is over |
| ConsumerRegistries.Consumer.Release | libs/backend/go/kafka/consumer.go:255-303 | Released partitions leave the map, workers that stayed are kept aside, and the registry's invariant holds |
| ConsumerRegistries.Consumer.Settle | libs/backend/go/kafka/consumer.go:282-303 | Of the workers taken out exactly those that did not end within the grace are kept aside as stuck |
| ConsumerRegistries.Consumer.StopAll | libs/backend/go/kafka/consumer.go:368-387 | A shutdown no callback overlaps empties the map, keeps aside who stayed, and keeps the registry's invariant |
| ConsumerAdapters.Validate | libs/backend/go/app/consumer.go:139-173 | Accepted exactly when every declaration is present and the subscription is distinct and inside the channel |
| ConsumerAdapters.Consume | libs/backend/go/app/consumer.go:178-289 | Which deliveries reach the handler, the gesture each ends with and what the quarantine keeps |
| ConsumerAdapters.ContainMessage | libs/backend/go/app/consumer.go:369-378 | A message is acknowledged only after it was kept, byte for byte |
| ConsumerAdapters.AcknowledgedExactlyWhen | libs/backend/go/app/consumer.go:234-289 | A delivery is acknowledged exactly when it was handled to an end, kept byte for byte, or of a carried type left out |
| ConsumerAdapters.ReleasedAndKeptExactlyWhen | libs/backend/go/app/consumer.go:270-289 | A delivery is released exactly for a transient failure below the limit, and what is kept carries the reason that applies |
| Dispositions.ClassifyMeaning | libs/backend/go/application/disposition.go:52-104 | A classification made where the failure was known prevails over everything it wraps; without one a cancellation changes nothing, and exactly the conditions that leave nothing kept are retried |
| Inboxes.TxInbox.Register | libs/backend/go/memory/inbox.go:39-70 | The refusals in order, then the reception of what stands under the key |
| Inboxes.TxPending.Complete | libs/backend/go/memory/inbox.go:88-104 | A first reception is completed once, with a terminal status, in the open transaction |
| Inboxes.ReceptionMeaning | libs/backend/go/memory/inbox.go:59-74 | The four receptions, each exactly when, with the expiry inclusive |
| Inboxes.CommandIDInjective | libs/backend/go/memory/inbox.go:48-56 | Tenant and slash-free key are read back from the scoped identifier |
| Inboxes.CommandIDNeedsThePattern | libs/backend/go/ports/idempotency_key.go:11 | Without the pattern two tenants would share an entry |
| MemoryTables.TxTable.Load | libs/backend/go/memory/store.go:104-120 | The row of the caller's tenant, or the refusal that applies, naming the lowest other tenant |
| MemoryTables.TxTable.Miss | libs/backend/go/memory/store.go:125-141 | The lowest tenant holding the identifier, whatever the order of the walk |
| MemoryTables.TxTable.Violation | libs/backend/go/memory/store.go:67-88 | The first declared constraint the write would break, with its rejection only while nothing was written |
| MemoryTables.TxTable.SaveAs | libs/backend/go/memory/tx.go:128-143 | A save succeeds exactly at the stored version and without a broken constraint, and otherwise writes nothing |
| MemoryTables.SaveKeepsUniqueExactlyWhen | libs/backend/go/memory/store.go:67-88 | A write keeps every constraint of a tenant's rows exactly when the check finds none broken |
| UnitsOfWork.RunIsSerial | libs/backend/go/memory/tx.go:54-109 | Over every interleaving of lock, copy, write, commit, abort and reader steps, the store is the serial result of its commits and every reader saw a state between two of them |
| UnitsOfWork.OnlyCommitsChangeTheData | libs/backend/go/memory/tx.go:91-109 | Only a commit that is not armed to fail changes the data, and it adds its whole transaction |
| UnitsOfWork.CommitIsAtomic | libs/backend/go/memory/tx.go:80-109 | A commit installs what the transaction's writes make of the committed state of that instant |
| Reservations.Reservation.Decide | apps/backend/reservations/domain/reserve.go:7-25 | Reserve and Cancel decide over a copy; a refusal leaves the reservation untouched |
| Reservations.DecideOver | libs/backend/go/application/decide.go:61-94 | Load or start, decide, save at the version read and enqueue one entry at the version written; a refusal writes nothing |
| Reservations.ConsumeFirst | apps/backend/reservations/application/consume.go:53-93 | The second axis: processed or rejected is completed beside the effect it stands for |
| Reservations.ReservationStore.ConsumeOrderPlaced | apps/backend/reservations/application/consume.go:17-49 | One transaction: a refused authorization or a failure anywhere, a failed commit included, leaves inbox, rows and outbox as they were, and the disposition is the failure's classification |
| Reservations.CodecsRoundTrip | apps/backend/reservations/application/codecs.go:8-23 | Both operations' answers are read back as they were written |
| Reservations.FirstDecisionWins | libs/backend/go/application/decide.go:61-94 | A decision is accepted exactly when it is the order's first and asks for something; what it writes, and that a refused one writes nothing |
| Reservations.ConsumptionMeaning | apps/backend/reservations/application/consume.go:24-93 | The dispositions of a consumption, each exactly when, with the entry and the books each leaves |
| Reservations.DecisionKeepsBooks | libs/backend/go/application/decide.go:76-94 | Every decision keeps each order at version at most one with the one entry that tells its state, and rewrites nothing decided |
| ReservationsSystem.StepKeeps | libs/backend/go/app/consumer.go:178-289 | Every step of log, workers, adapter, transactions, broker and commands keeps the composed invariant |
| ReservationsSystem.NothingCommittedIsLost | libs/backend/go/kafka/worker.go:139-193 | In every reachable state each record below the committed offset is registered under its content, quarantined byte for byte, or of a carried type left out |
| ReservationsSystem.NoEffectIsAppliedTwice | apps/backend/reservations/application/consume.go:24-93 | In every reachable state each tenant's order has version at most one and exactly that many outbox entries, whatever redeliveries, message IDs, commands and crashes |
| ReservationsSystem.StepOnlyAdds | libs/backend/go/memory/inbox.go:59-69 | No step loses or rewrites a message's entry, a decided order or an outbox entry |
| ReservationsSystem.HandleGrows | apps/backend/reservations/application/consume.go:24-49 | An acknowledging disposition leaves the message registered under its own content, even when the answer came after an uncertain commit |
| ReservationsSystem.CommandGrows | apps/backend/reservations/application/reserve.go:14-32 | A command neither touches a message's entry nor unsettles the books |
| IdempotentCommands.RunIdempotent | libs/backend/go/application/idempotent.go:45-116 | The claim's refusals in order, a key still in flight among them, then run and complete, replay, or mismatch, as the transaction function does |
| IdempotentCommands.CommandStore.Execute | libs/backend/go/application/execute.go:34-76 | A whole command commits its effects and its entry together or leaves the store as it was |
| IdempotentCommands.WaitUntilLeavesTheMargin | libs/backend/go/application/idempotent.go:118-120 | The wait is never in the past and never spends the deadline's margin unless it is already gone |
| IdempotentLaws.SameHashExactlyWhen | libs/backend/go/application/idempotent.go:60-66 | The stored hash matches exactly for the same operation and fields, when the digest tells the two commands apart |
| IdempotentLaws.ReachesExactlyWhen | libs/backend/go/application/idempotent.go:46-71 | What a call needs to reach the entries, and the entry it then meets |
| IdempotentLaws.EntriesAreScoped | libs/backend/go/memory/inbox.go:48-58 | Two commands meet the same entry exactly when their tenant and key are the same |
| IdempotentLaws.EntryAnswers | libs/backend/go/application/idempotent.go:82-104 | An entry in force replays the first outcome to the same command and refuses any other, and the store is untouched |
| IdempotentLaws.EffectsExactlyWhenFirst | libs/backend/go/application/idempotent.go:87-101 | Effects and entry are committed exactly by a first reception that runs and commits; every other call changes nothing |
| IdempotentLaws.EntryHoldsThroughRun | libs/backend/go/application/execute.go:48-67 | While an entry is in force a run leaves what it would leave without the calls on its key, each of which the entry answered |
| IdempotentLaws.OneEffectPerEntry | libs/backend/go/application/idempotent.go:45-116 | After a first call, any number of calls on its tenant and key before the lapse commit no second effect |
| Varints.AppendUvarint | libs/backend/go/application/varint.go:7-13 | The loop appends the groups of the value |
| Varints.AppendVarint | libs/backend/go/application/varint.go:15-21 | Shift and complement on 64 bits are the zigzag of the value |
| Varints.ReadUvarintLoop | libs/backend/go/application/varint.go:23-37 | The loop reads what the function reads and its value fits 64 bits |
| Varints.ReadVarint | libs/backend/go/application/varint.go:39-46 | Halving and complement undo the zigzag of what was read |
| Varints.UvarintRoundTrip | libs/backend/go/application/varint.go:7-37 | Every 64-bit value is read back, with its length, whatever follows it |
| Varints.UvarintPrefixFree | libs/backend/go/application/varint.go:7-37 | No encoding is a prefix of another |
| Fingerprints.Fingerprint.String | libs/backend/go/application/fingerprint.go:19-22 | The bytes stay the encoding of the fields given so far, with this one added |
| Fingerprints.Fingerprint.Int | libs/backend/go/application/fingerprint.go:24-27 | The bytes stay the encoding of the fields given so far, with this one added |
| Fingerprints.Fingerprint.Under | libs/backend/go/application/fingerprint.go:37-40 | The registered operation leads the digested bytes |
| Fingerprints.FieldPrefixFree | libs/backend/go/application/fingerprint.go:42-46 | A field is read back from the front of any bytes |
| Fingerprints.FieldsInjective | libs/backend/go/application/fingerprint.go:15-46 | The bytes determine every typed field, in order and number |
| Fingerprints.UnderInjective | libs/backend/go/application/fingerprint.go:35-40 | Operation and fields are determined together, whatever they hold |
| OutcomeCodecs.Encoder.String | libs/backend/go/application/outcome_codec.go:32-35 | Length then bytes are appended |
| OutcomeCodecs.Decoder.String | libs/backend/go/application/outcome_codec.go:52-64 | The in-place read leaves the value, the rest and the sticky failure of the read function |
| OutcomeCodecs.Decoder.Int | libs/backend/go/application/outcome_codec.go:66-77 | The in-place read leaves the value, the rest and the sticky failure of the read function |
| OutcomeCodecs.Decoder.UInt | libs/backend/go/application/outcome_codec.go:79-90 | The in-place read leaves the value, the rest and the sticky failure of the read function |
| OutcomeCodecs.EncodeOutcome | libs/backend/go/application/outcome_codec.go:94-111 | The record of either branch, details in order |
| OutcomeCodecs.DecodeOutcome | libs/backend/go/application/outcome_codec.go:113-146 | The refusals of version, branch, details, failed read and trailing bytes, or the outcome |
| OutcomeCodecs.OutcomeRoundTrip | libs/backend/go/application/outcome_codec.go:94-146 | Given a round-tripping response codec, decoding inverts encoding exactly for accepted outcomes and rejections of at most 1024 details |
| OutcomeCodecs.IntRoundTrip | libs/backend/go/application/outcome_codec.go:37-77 | Every signed integer is read back, whatever follows |
| OutcomeCodecs.TextRoundTrip | libs/backend/go/application/outcome_codec.go:32-64 | Every string is read back, whatever follows |
| OutcomeCodecs.FailureSticks | libs/backend/go/application/outcome_codec.go:45-90 | After a failed read nothing more is consumed, so the record is refused |
| ExternalProfiles.ValidateKeyAlphabet | libs/backend/go/application/external_profile.go:44-60 | Accepted exactly for two or more distinct visible ASCII symbols |
| ExternalProfiles.ValidateExternalProfile | libs/backend/go/application/external_profile.go:21-42 | Accepted exactly when declared, non-negative and wide enough for 128 bits |
| ExternalProfiles.SymbolBits | libs/backend/go/application/external_profile.go:62-68 | The greatest number of whole bits a symbol carries |
| ExternalProfiles.AlphabetBits | libs/backend/go/application/external_profile.go:44-68 | A valid alphabet carries between one and six bits a symbol |
| OutboundKeys.ReadBits | libs/backend/go/application/outbound_key.go:86-92 | The number a stretch of the digest's bits spells |
| OutboundKeys.DeriveOutboundKey | libs/backend/go/application/outbound_key.go:45-70 | The three refusals in order, each exactly when, a policy without a digest among them; otherwise the key of the intent's digest |
| OutboundKeys.KeyStrength | libs/backend/go/application/outbound_key.go:63-69 | The key carries at least 128 bits and every symbol is among the first 2^bits of the alphabet |
| OutboundKeys.KeysAgreeExactlyWhen | libs/backend/go/application/outbound_key.go:63-92 | Two digests give the same key exactly when they agree on its first length times bits bits |
| OutboundKeys.IntentsAreSingledOut | libs/backend/go/application/outbound_key.go:55-61 | Distinct intents are digested from distinct bytes |
| Revocations.MemoryStore.Revoked | libs/backend/go/authn/revocation_memory.go:41-55 | The session's entry first, then the subject's against the token's age |
| Revocations.MemoryStore.Revoke | libs/backend/go/authn/revocation_memory.go:57-102 | Lapsed entries go, a lapsed revocation is ignored, and the greatest event of a key stays |
| Revocations.MemoryStore.ForgetExpired | libs/backend/go/authn/revocation_memory.go:82-93 | Exactly the entries still live stay |
| Revocations.Feed.Apply | libs/backend/go/authn/revocation_apply.go:157-173 | The outcome and the store after, for the two instants the clock read |
| Revocations.ApplyKeeps | libs/backend/go/authn/revocation_apply.go:157-223 | Applying any event at any instants keeps the index of the raw log of valid events |
| Revocations.AnswersMatchTheRawLog | libs/backend/go/authn/revocation_memory.go:41-111 | After any run, whatever the order and the duplicates, a token is denied exactly when a scan of the raw log denies it |
| Revocations.AppliedExactlyWhen | libs/backend/go/authn/revocation_memory.go:95-102 | An event is new exactly when valid, unexpired, and greater than every logged event of its key |
| Revocations.PollSource | libs/backend/go/authn/sessionpolling.go:178-207 | The reread is complete exactly when the window ends within the page limit and no page up to its end failed, and then every recognized event of it is indexed |
| Revocations.Poll | libs/backend/go/authn/sessionpolling.go:151-169 | Both sources are reread over one window, the second even when the first exceeded its pages or failed; complete exactly when both are |
| Revocations.PollRestoresTheAnswer | libs/backend/go/authn/sessionpolling.go:151-207 | From an empty store, when the two sources together list the provider's events of the window, a complete poll makes the answer for every token, from then on, the scan of the provider's whole log up to the poll's instant |
| Revocations.WindowAnswersForTheLog | libs/backend/go/authn/sessionpolling.go:151-169 | An index of the window answers for the whole log: what the window leaves out denies no token any more |
| ObjectStores.ObjectStore.Put | libs/backend/go/memory/objectstore.go:92-132 | The refusals in order, then a version issued once under the scope's physical key |
| ObjectStores.ObjectStore.Retain | libs/backend/go/memory/objectstore.go:166-199 | The refusals in order, then the new date on the addressed version alone |
| ObjectStores.ObjectStore.SetLegalHold | libs/backend/go/memory/objectstore.go:201-221 | The refusals in order, then the hold on the addressed version alone |
| ObjectStores.ObjectStore.Purge | libs/backend/go/memory/objectstore.go:223-250 | The refusals in order, then the addressed version is gone |
| ObjectRetention.PutIsFoundAgain | libs/backend/go/memory/objectstore.go:92-132 | A stored version has a fresh identifier, the body whose sum was declared, the accepted date and no hold |
| ObjectRetention.RetainedExactlyWhen | libs/backend/go/memory/objectstore.go:166-199 | A new date is taken exactly when the old one lapsed, is extended without downgrade, or is promoted on a date no earlier |
| ObjectRetention.HoldIsSet | libs/backend/go/memory/objectstore.go:201-221 | A hold answered is the hold set, with a reason when put on, and a refused one changes nothing |
| ObjectRetention.RetentionAcceptedExactlyWhen | libs/backend/go/memory/objectstore.go:252-266 | A retention is accepted exactly when dated after now and no later than now plus the declared span, summed without wrapping |
| ObjectRetention.WholeSecondsTruncates | libs/backend/go/memory/objectstore.go:268-273 | The fraction is dropped toward 1970, on both sides of it |
| ObjectRetention.RetainedUntilItsDate | libs/backend/go/memory/objectstore.go:166-250 | Over every run by stores of any scope, a retained version stays with its body until its date, which never moves earlier, and COMPLIANCE never downgrades |
| ObjectRetention.HeldIsNeverPurged | libs/backend/go/memory/objectstore.go:201-250 | The single step: an operation leaves a held version in place, and only a release addressed to it takes the hold off |
| ObjectRetention.HeldThroughRun | libs/backend/go/memory/objectstore.go:201-250 | Over every run by stores of any scope in which no call releases its hold, a held version stays, held, with its body |
| ObjectRetention.PurgedExactlyWhen | libs/backend/go/memory/objectstore.go:223-250 | A version leaves the bucket exactly by a purge addressed to it, not held and past its retention |
| ObjectRetention.PhysicalKeysAreScoped | libs/backend/go/memory/objectstore.go:289-311 | One physical key has one scope, one tenant and one logical key |
| ObjectRetention.NoOtherScopeReaches | libs/backend/go/memory/objectstore.go:275-311 | No call of another tenant or scope changes a version |
| SemVers.ParseRelease | tools/dmpf-conformance/modsync/git.go:117-148 | The loops accept and read what the parsing function does |
| SemVers.ParseInvertsPrint | tools/dmpf-conformance/modsync/git.go:72-148 | Every well-formed version is read back from its print |
| SemVers.PrintInvertsParse | tools/dmpf-conformance/modsync/git.go:72-148 | Every accepted string is the print of the version it parses to |
| SemVers.Compare | tools/dmpf-conformance/modsync/git.go:82-92 | The loop over identifiers compares as the recursive order does |
| SemVers.CompareIsTotalOrder | tools/dmpf-conformance/modsync/git.go:80-107 | A total order on every well-formed version, equal only when the versions are |
| SemVers.AgreesWithPrecedence | tools/dmpf-conformance/modsync/git.go:80-115 | Between versions of one kind whose numeric identifiers an int holds, the precedence of section 11 of Semantic Versioning 2.0.0 |
| SemVers.IdsAgreeExactlyWhen | tools/dmpf-conformance/modsync/git.go:94-115 | Any two accepted identifiers are ordered as section 11 asks exactly outside the pairs the int limit upsets, told by their digits |
| SemVers.VersionsAgreeExactlyWhen | tools/dmpf-conformance/modsync/git.go:80-115 | Two accepted versions of one kind are ordered as section 11 asks exactly when no upset pair decides between their pre-releases |
| SemVers.LeadingZeroPassesExactlyWhenHuge | tools/dmpf-conformance/modsync/git.go:138-145 | A numeric identifier with a leading zero is accepted exactly when no int holds it |
| SemVers.AcceptedExactlyWhen | tools/dmpf-conformance/modsync/git.go:117-148 | A string is accepted exactly when it is spelled as a version whose core an int holds and whose identifiers with a leading zero are all huge |
| SemVers.AcceptedAgainstTheSpecification | tools/dmpf-conformance/modsync/git.go:117-148 | A version of Semantic Versioning 2.0.0 without build metadata is refused exactly for a core number no int holds, and an accepted string is none exactly for a huge numeral with a leading zero |
| SemVers.HugeNumeralsUpsetTheOrder | tools/dmpf-conformance/modsync/git.go:109-115 | Two accepted identifiers the order takes the other way round |
| SemVers.LeadingZeroOfHugeNumeralIsAccepted | tools/dmpf-conformance/modsync/git.go:138-145 | The condition is met: a numeral of twenty-one digits with a leading zero is accepted |
| SemVers.GreatestRelease | tools/dmpf-conformance/modsync/git.go:36-65 | The greatest stable release of the directory, else its greatest pre-release, else v0.1.0 |
| SemVers.GreatestIsUnique | tools/dmpf-conformance/modsync/git.go:36-65 | The answer does not depend on the order or repetition of the tags |
| SemVers.GreatestBySection11ExactlyWhen | tools/dmpf-conformance/modsync/git.go:36-65 | The release answered is greatest by section 11 exactly when it overtakes no release of its kind through an upset pair |
| SemVers.GreatestBySection11 | tools/dmpf-conformance/modsync/git.go:36-65 | Where no identifier of the directory's tags is huge, the release answered is greatest by section 11 |

## Left out

- Telemetry, logging, metrics, spans and the context slots that only mark outcomes: no effect on the modelled state.
- The Kafka client, pgx and real SQL isolation: the broker is "redeliver from the last committed offset", a statement is its row update, and a rebalance callback is one step, since the client serializes callbacks and none runs during a poll.
- Attempt purge: it removes rows, and the numbering and agreement claims are about ledgers it has not touched.
- The outbox relay, its claim and its transitions: the relay that drives them is not part of this model.
- The Redis revocation store and the seen-event map of the poll, which only keeps each event counted once.
- Aliasing: snapshots, copies and detail lists that the code clones on every crossing are values here, so what a stray reference could reach is not expressible.
- Times and offsets are integers; durations and instants wrap as int64 only where the code's arithmetic could overflow (`external_budget`, `idempotent`, `object_store`, `consumer_registry`).
- How long a command waits for its key: whether it is still in flight at the end of the wait is an input, and the memory inbox never waits.
- Digests are parameters. Command replay assumes only that the digest tells apart the two commands compared, since no function into 32 bytes is injective.
- A Run that itself registers in the command inbox, and a commit whose result is unknown to Execute: commands here commit or fail.
- Decoding of envelopes, payloads and Keycloak events: parameters of the adapter and of the poll; a provider's window does not change while it is paged, apart from events dated after it.
- Rows the sweep sees begin during its cycle start after its cutoff, and owners keep the declared limits in `dispatch_timing`: both are assumptions about clocks, stated as hypotheses.
- Attempt limits and queue capacity are positive in worker runs, as the consumer's validation demands.
- `Existing` and `Absent` loaders, the query entry points and the authorization rules, whose refusal is an input: easy members.
- DispatchTiming.CallsNeverOverlap: speaks of callers the deployment keeps within their limits, because a paused process cannot be excluded by the code alone.
