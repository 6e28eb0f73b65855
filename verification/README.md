# Verified models of the queue, waiting room, ledger, forecast and policy services

A Dafny 4.11 model of five parts of this repository and proofs about them. `dafny verify
dfyconfig.toml` checks everything.

**Recoverable queue** (`QueueStore`, `QueueProtocol`, `QueueInvariant`, `QueueSafety`,
`QueueRecovery`, `QueueSolo`, `QueueTiming`, `QueueOrphans`, `QueueContents`, `QueueTurn`, `QueueService`). The Redis keys of one queue are a
value; every Redis command, or MULTI block, is one step. Workers are program counters that crash,
lose replies, race in WATCH loops and scan for stale leases in any interleaving, and a run is any
sequence of events. On top stands the service and its worker as classes that send the same
commands, and a proof that a scan run alone command by command is the scan the class performs.

**Waiting room** (`WaitingRoom`, `WaitingRoomHeartbeat`). Rank-based admission with a capacity that
follows the pod count, session keys with a TTL, a membership set that lags behind them, and the
heartbeats of all pods, whose commands interleave one by one with checks and with each other.

**Ledger** (`Ledger`, `LedgerCache`, `LedgerReader`, `LedgerWriter`, `LedgerOverdraft`). An append-only
ledger, the repository's queries over it, the account cache whose loads ask at the ledger's head, are
installed later and are fed at the reader's position from then on, the polling reader, the gate that
accepts transactions, and the two split services the monolith's cache replaces.

**Forecast service** (`ForecastEngine`, `ForecastRuntime`). Series aggregation and replica
arithmetic over exact rationals, and the per-target validity state behind the gauge KEDA scales on.

**Policy engine** (`ResourceQuantity`, `PolicyEngine`). Quantity parsers and printers over
characters and exact rationals, and the rules that overwrite each other's values.

Clocks, poll results, model output, processing outcomes, request uuids and token checks are
parameters or events.

## Where the code does not keep the plain claim

- *Lease timing.* A scan reads the clock before it lists the processing jobs
  (`apps/sample-fastapi/queue_service.py:182-187`, `:169`). A job that moves in between is leased from the older
  reading and can be recovered before one visibility timeout. `QueueTiming.LeaseEarlyIff` gives the exact
  condition, `NotBeforeTimeout` and `EarlyRecovery` what follows from it, and `EarlyRecoveryReachable` a
  run from the empty queue for every timeout.
- *Cache loads.* A load runs its queries in the request's thread and installs the entry afterwards; the
  reader skips an account that is still loading (`containsKey` is false). An entry asked for and installed with
  the reader caught up each time can still miss a row for good: `LedgerCache.OvertakenLoadMisses`.
  `ExactDrift` and `HistoryAgrees` give the exact conditions.
- *Overdraft.* The reader being caught up at the debit is not enough. An account entry loaded
  between a deposit and its delivery counts the deposit twice from then on (`LedgerOverdraft.DriftOverdraws`), and
  a debit saved while its account, evicted meanwhile, is loading again is missed (`MissedDebitOverdraws`).
  `LedgerWriter.CheckSoundIff` gives the exact condition under which the check is sound, and
  `LedgerOverdraft.NoDebitMissedIff` the exact runs on which no load misses a debit.
- *Heartbeat.* The pods' commands race with checks. `LiveAlwaysActiveIff`, `WaitersAlwaysBeatIff` and
  `BeatsAlwaysWaitIff` of `WaitingRoomHeartbeat` say exactly which runs keep which part of the waiting-room
  invariant; `ForgetActiveRace`, `OverfullRace`, `SweepBeatsRace` and `BrokenSweep` are runs from the empty room that break it,
  and `HeardButSweptRace` is one that sweeps a waiter who is heard (`UnqueueSparesIff`). Capacity, admissibility, order and "no live user waits" survive every interleaving.
- *OOM rule.* The rule's comment calls an OOM kill a failure of the optimization; by itself it scores
  60 of the 70 points needed. `PolicyEngine.OomFailsIff` says when the evaluation fails.

A NULL balance does no harm behind the gate. `findBalance` is NULL for an account with debits and no credits and
is read as zero. That hides a debit only on a ledger with rows written past the gate
(`Ledger.DebitHidden`, `Ledger.NullIsNetIff`; `LedgerCache.ExactDrift`, which allows any rows, carries such
debits). On ledgers the gate builds it never does (`LedgerWriter.NullIsZero`, `LedgerWriter.GateDrift`).

In the table below "helper" marks single steps and small facts that stand beside the main theorems.

## Model

| member | source | states |
|---|---|---|
| QueueStore.DropTotals | apps/sample-fastapi/queue_service.py:119-125 | LREM of a raw job with ZREM of its lease removes the only copy of its id when the job is in processing, and changes no list otherwise |
| QueueStore.RequeueTotals | apps/sample-fastapi/queue_service.py:148-161 | the retry transaction keeps exactly one copy of every id: the job's successor takes the job's place |
| QueueStore.RetriedIs | apps/sample-fastapi/queue_service.py:137-140 | helper: a retried job has the same id and contents, one attempt more, the first 200 characters of the reason, and the time |
| QueueInvariant.PushCore | apps/sample-fastapi/queue_service.py:57-87 | single and bulk enqueues of new ids keep one copy per id, the attempt counts and the push log, and disturb no job another worker holds |
| QueueInvariant.MoveCore | apps/sample-fastapi/queue_service.py:89-107 | the atomic move keeps one copy per id, counts one more reservation for exactly that id, and keeps the FIFO log |
| QueueInvariant.DropCore | apps/sample-fastapi/queue_service.py:116-125 | an acknowledgement or a clean-up of an acknowledged job keeps the whole invariant and every other worker's job held |
| QueueInvariant.RequeueCore | apps/sample-fastapi/queue_service.py:132-161 | a successful EXEC keeps the invariant; the old raw job is superseded for good and the destination follows the attempt count |
| QueueSafety.StepInv | apps/sample-fastapi/queue_service.py:57-209 | every command of every worker, every crash, lost reply, expiry and enqueue keeps the whole protocol invariant |
| QueueSafety.NoLossNoDuplication | apps/sample-fastapi/queue_service.py:89-209 | in every reachable state an enqueued job has exactly one copy until acknowledged, never two, and no copy appears without an enqueue |
| QueueSafety.BoundedDelivery | apps/sample-fastapi/queue_service.py:137-161 | a job is reserved at most max_retries + 1 times; attempts equals reservations when pending or dead and one less when processing; dead jobs have exactly max_retries + 1 |
| QueueSafety.Fifo | apps/sample-fastapi/queue_service.py:57-114 | what was reserved, followed by the pending list, is everything ever pushed to pending, in order, retries included |
| QueueSafety.LateAcknowledge | apps/sample-fastapi/queue_service.py:116-125 | an acknowledgement leaves no copy exactly when the raw job is still in processing or the id has no copy at all |
| QueueContents.ContentsKept | apps/sample-fastapi/queue_service.py:132-163 | over every run whatever is on a list carries the contents its id was enqueued with, and that id was enqueued once |
| QueueContents.CompletedNotProcessed | apps/sample-fastapi/worker.py:116-119 | over every interleaving no worker begins to process a job marked completed until its marker expires |
| QueueContents.LostReplyHarmless | apps/sample-fastapi/worker.py:121-136 | an acknowledgement whose reply is lost is retried, and the retry leaves the queue as if the reply had come |
| QueueContents.SoloTurn | apps/sample-fastapi/worker.py:107-136 | the commands of one undisturbed turn: the oldest job is discarded, acknowledged, retried or dead-lettered as its marker and the work say |
| QueueSafety.WorkFalls | apps/sample-fastapi/queue_service.py:137-161 | between enqueues a natural-number measure falls at every reservation and at every acknowledgement, clean-up or retry that moves a job, and nothing raises it |
| QueueSafety.MovesBounded | apps/sample-fastapi/queue_service.py:137-161 | over every run the moves made plus the moves left never exceed 2 * (max_retries + 1) per enqueued job |
| QueueSafety.FailedExecsBounded | apps/sample-fastapi/queue_service.py:145-163 | over every run and interleaving a worker's refused EXECs are at most 2 * (max_retries + 1) per enqueued job, so every WATCH loop ends |
| QueueRecovery.EnsureAllEffect | apps/sample-fastapi/queue_service.py:165-177 | the lease scan leases exactly the listed jobs without a lease, one timeout from the scan's clock, and renews none |
| QueueRecovery.SweepAllEffect | apps/sample-fastapi/queue_service.py:191-209 | the sweep takes exactly the stale jobs out of processing and the leases, in order, and appends exactly their successors to pending and dead-letter |
| QueueRecovery.SuccessorsAre | apps/sample-fastapi/queue_service.py:191-209 | every successor is a stale job that was in processing and not completed, with its contents and the timeout as reason |
| QueueRecovery.RecoveryContract | apps/sample-fastapi/queue_service.py:179-209 | an undisturbed scan ends with every processing job leased beyond its clock and no lease at or before it; unexpired jobs stay; pending and dead-letter grow by exactly the tally |
| QueueRecovery.StaleListExists | apps/sample-fastapi/queue_service.py:188-190 | in every state there is an answer to the range query: the expired leases, each once, by rising deadline |
| QueueSolo.SoloScan | apps/sample-fastapi/queue_service.py:179-209 | the very commands of one scan, sent by an idle worker with nobody between, do to the store exactly what the scan as a function does and leave the worker idle |
| QueueSolo.SoloRecoveryContract | apps/sample-fastapi/queue_service.py:179-209 | the recovery contract, tally included, holds after the commands of one undisturbed scan from any reachable state |
| QueueTiming.StepTimely | apps/sample-fastapi/queue_service.py:108-114 | every step keeps leases one timeout past the clock reading they were computed from, and stale lists free of jobs leased on time but not yet due |
| QueueTiming.NotBeforeTimeout | apps/sample-fastapi/queue_service.py:188-205 | no scan takes a job, by retry or clean-up, within one visibility timeout of its move, unless a scan leased that job from a reading older than the move |
| QueueTiming.LeaseEarlyIff | apps/sample-fastapi/queue_service.py:165-177 | in every reachable state a lease ends before one timeout after the move if and only if its clock reading is older than the move |
| QueueTiming.EarlyRecovery | apps/sample-fastapi/queue_service.py:183-209 | from any state with such a lease the commands of one undisturbed scan take the job out of processing before its timeout, with nobody having acknowledged it |
| QueueTiming.EarlyLeaseReachable | apps/sample-fastapi/queue_service.py:165-187 | for every positive timeout a run that reaches such a state: the scan reads the clock, the job moves, the scan lists and leases it |
| QueueTiming.EarlyRecoveryReachable | apps/sample-fastapi/queue_service.py:165-209 | the whole run from the empty queue: a scan sends a job on half a timeout after its move, so the plain timing claim is false for every timeout |
| QueueOrphans.OrphanStep | apps/sample-fastapi/queue_service.py:165-209 | whatever any worker does, an orphan's lease stands while it is in processing, and once out the raw job never returns |
| QueueOrphans.OrphanLeased | apps/sample-fastapi/queue_service.py:165-177 | in any interleaving, once the first scan that lists an orphan is through its lease phase the job is out of processing for good or leased for at most one visibility timeout |
| QueueOrphans.OrphanLeasedAlone | apps/sample-fastapi/queue_service.py:165-177 | undisturbed, that scan leaves an unleased orphan in processing with exactly one visibility timeout |
| QueueOrphans.OrphanRecovered | apps/sample-fastapi/queue_service.py:165-209 | whatever happens during and after that scan, the commands of any undisturbed scan begun one visibility timeout later leave the orphan out of processing for good |
| QueueService.Service.Enqueue | apps/sample-fastapi/queue_service.py:57-75 | one new job with zero attempts at the end of pending, nothing else changed |
| QueueService.Service.EnqueueMany | apps/sample-fastapi/queue_service.py:77-87 | all jobs at once and in order at the end of pending; with none the command fails and nothing changes |
| QueueService.Service.Reserve | apps/sample-fastapi/queue_service.py:89-114 | the oldest job moves to the end of processing with a lease from the clock, or nothing when pending is empty |
| QueueService.Service.Acknowledge | apps/sample-fastapi/queue_service.py:116-125 | completion marked, job and lease gone; the result tells whether the job was still in processing and then no copy is left |
| QueueService.Service.IsCompleted | apps/sample-fastapi/queue_service.py:127-130 | whether the id has a live completion marker |
| QueueService.Service.RetryOrDeadLetter | apps/sample-fastapi/queue_service.py:132-163 | whatever commands rivals send between LPOS and EXEC of each attempt, the WATCH loop ends when they do and equals the retry in one step after some of them; the pushed job is told by its fields: same id and contents, one attempt more, cut reason, time |
| QueueService.Service.EnsureProcessingLeases | apps/sample-fastapi/queue_service.py:165-177 | leases exactly the unleased processing jobs and counts them |
| QueueService.Service.StaleLeases | apps/sample-fastapi/queue_service.py:188-190 | the leases at or before now, each once, by rising deadline |
| QueueService.Service.RecoverStale | apps/sample-fastapi/queue_service.py:179-209 | the recovery contract of the method, with the tally |
| QueueService.Service.Dequeue | apps/sample-fastapi/queue_service.py:211-218 | the oldest job leaves every list, processing is as before and the id is marked completed |
| QueueService.ReserveThenAck | apps/sample-fastapi/queue_service.py:89-125 | an acknowledgement undoes a reservation up to the head of pending and the completion marker |
| QueueService.Worker.RecoverStaleJobs | apps/sample-fastapi/worker.py:83-98 | recovery runs exactly when the interval has passed |
| QueueService.Worker.RunOnce | apps/sample-fastapi/worker.py:100-143 | one turn is the due recovery followed by at most one job, and leaves processing as recovery left it; the job is acknowledged, retried with one more attempt or dead-lettered, and a completed one is discarded |
| WaitingRoom.StepInv | app-test/frontend/frontend.py:145-235 | every check and every single heartbeat command of every pod keeps the queue free of duplicates and of live users |
| WaitingRoom.AlwaysInv | app-test/frontend/frontend.py:145-235 | the same after every interleaving of checks and heartbeat commands, failures included |
| WaitingRoom.NewcomerAdmittedIff | app-test/frontend/frontend.py:220-232 | a user neither live nor waiting gets in if and only if nobody waits and a slot is free, and else is the last waiter; nothing else changes |
| WaitingRoom.WaiterAdmittedIff | app-test/frontend/frontend.py:207-219 | a waiter gets in if and only if fewer wait ahead than slots are free, and else keeps its place and is heard |
| WaitingRoom.LiveRenewed | app-test/frontend/frontend.py:194-198 | helper: a live user's session is renewed and nothing else changes |
| WaitingRoom.NoBypass | app-test/frontend/frontend.py:220-232 | over whole runs nobody gets past a standing queue |
| WaitingRoom.SilentIs | app-test/frontend/frontend.py:163-164 | over whole runs the silent are exactly the users not heard for thirty seconds |
| WaitingRoom.StepCapacity | app-test/frontend/frontend.py:201-226 | only an admission enlarges the active set, by one and never beyond pods times slots |
| WaitingRoom.CapacityHolds | app-test/frontend/frontend.py:201-226 | while pods do not drop no interleaving takes the active set above pods times slots |
| WaitingRoom.StepKeepsAdmissible | app-test/frontend/frontend.py:207-216 | no step by others makes an admissible waiter inadmissible while pods do not drop and the waiter is not swept |
| WaitingRoom.AdmissibilityStable | app-test/frontend/frontend.py:155-232 | over whole runs, between the heartbeat commands of all pods: once admissible a waiter stays so and its next check lets it in |
| WaitingRoom.AdmissionSparesOthers | app-test/frontend/frontend.py:209-216 | admitting one waiter keeps those ahead admissible and those behind exactly as admissible as before |
| WaitingRoom.AnyOrderAdmits | app-test/frontend/frontend.py:209-216 | the admissible waiters all get in, in whatever order they return |
| WaitingRoom.NoOvertaking | app-test/frontend/frontend.py:207-232 | over whole runs: of two users who wait throughout, the earlier stays ahead |
| WaitingRoomHeartbeat.LiveAlwaysActiveIff | app-test/frontend/frontend.py:155-159 | live users are active in every state of a run if and only if every SREM of the run comes before any user it names is live again |
| WaitingRoomHeartbeat.LiveWithinCapacity | app-test/frontend/frontend.py:155-226 | while pods do not drop and every SREM is in time, the live users never exceed pods times slots |
| WaitingRoomHeartbeat.WaitersAlwaysBeatIff | app-test/frontend/frontend.py:163-166 | every waiter has a heartbeat in every state of a run if and only if every second ZREM comes before any user it names has queued again |
| WaitingRoomHeartbeat.BeatsAlwaysWaitIff | app-test/frontend/frontend.py:163-169 | every heartbeat has its waiter or is being swept in every state of a run if and only if no pass breaks off between its two ZREMs with work left |
| WaitingRoomHeartbeat.InTimeInv | app-test/frontend/frontend.py:145-235 | along every run that meets these conditions live users are active and not waiting, and the queue and the heartbeat set hold the same users whenever no pod is between its two ZREMs |
| WaitingRoomHeartbeat.UnqueueSparesIff | app-test/frontend/frontend.py:163-165 | helper: the first ZREM throws out no waiter who is heard if and only if no listed waiter has been heard since the listing |
| WaitingRoomHeartbeat.ForgetActiveRace | app-test/frontend/frontend.py:155-159 | a run from the empty room: a user re-admitted between the lookup and the SREM is live but not active |
| WaitingRoomHeartbeat.OverfullRace | app-test/frontend/frontend.py:155-226 | that run continued: three users are live in a room for two |
| WaitingRoomHeartbeat.SweepBeatsRace | app-test/frontend/frontend.py:163-166 | a run from the empty room: a silent user swept and queued again between the two ZREMs waits without a heartbeat, and no later sweep of any pod ever removes it |
| WaitingRoomHeartbeat.BrokenSweep | app-test/frontend/frontend.py:163-169 | a run from the empty room: an error between the two ZREMs leaves a heartbeat without a waiter |
| WaitingRoomHeartbeat.HeardButSweptRace | app-test/frontend/frontend.py:163-165 | a run from the empty room: a listed waiter is heard again and loses its place all the same |
| WaitingRoomHeartbeat.PassAlone | app-test/frontend/frontend.py:154-166 | undisturbed, the commands of a pass do exactly what the pass as a function does |
| WaitingRoomHeartbeat.SweepExact | app-test/frontend/frontend.py:155-166 | after an undisturbed pass the active set is exactly the live sessions and the queue exactly the waiters who were not silent |
| WaitingRoom.Gate.CheckWaitingStatus | app-test/frontend/frontend.py:178-235 | the check with its bypass and outage answers, and for the live, for waiters and for newcomers who gets in, with what session, and who is queued and told which 1-based place |
| WaitingRoom.Gate.HeartbeatPass | app-test/frontend/frontend.py:154-166 | an undisturbed pass is exactly the cleanup and the sweep |
| Ledger.LoadedIsNetPlusHidden | scratch/bank-of-anthos/src/ledgermonolith/src/main/java/anthos/samples/bankofanthos/ledgermonolith/LedgerReaderCache.java:69-73 | a loaded balance is the true net plus the debits a NULL sum hides |
| Ledger.PageIsNewest | scratch/bank-of-anthos/src/ledgermonolith/src/main/java/anthos/samples/bankofanthos/ledgermonolith/TransactionRepository.java:46-52 | with timestamps in row order any answer to the page query is the newest rows, newest first |
| Ledger.NewestIsPage | scratch/bank-of-anthos/src/ledgermonolith/src/main/java/anthos/samples/bankofanthos/ledgermonolith/TransactionRepository.java:46-52 | and the newest rows are an answer |
| LedgerCache.CallbackEntry | scratch/bank-of-anthos/src/ledgermonolith/src/main/java/anthos/samples/bankofanthos/ledgermonolith/LedgerMonolithController.java:127-148 | one callback moves a cached balance by exactly the row's net and records the row once, unless sender is receiver |
| LedgerCache.StepInv | scratch/bank-of-anthos/src/ledgermonolith/src/main/java/anthos/samples/bankofanthos/ledgermonolith/LedgerMonolithController.java:127-179 | append, delivery, either query of a load, its installation or failure, and eviction keep the exact balance of every entry and load |
| LedgerCache.ExactDrift | scratch/bank-of-anthos/src/ledgermonolith/src/main/java/anthos/samples/bankofanthos/ledgermonolith/LedgerReaderCache.java:65-81 | over every run, loads in flight included, a cached balance is what its query saw plus the net delivered since installation: off by rows counted twice, or by rows missed, plus hidden debits; exact if and only if it was exact when installed |
| LedgerCache.OvertakenLoadMisses | scratch/bank-of-anthos/src/ledgermonolith/src/main/java/anthos/samples/bankofanthos/ledgermonolith/LedgerMonolithController.java:132-147 | a run from the empty ledger: a credit delivered between a load's queries and its installation is missed, and stays missing until the entry is evicted |
| LedgerCache.HistoryAgrees | scratch/bank-of-anthos/src/ledgermonolith/src/main/java/anthos/samples/bankofanthos/ledgermonolith/LedgerMonolithController.java:160-179 | a cached history is the rows delivered since installation before the page its query saw, cut at the limit; it is the repository's own page at the reader's position if and only if no row of the account lies between query and installation or deliveries since have filled the page |
| LedgerCache.SelfTransferTwice | scratch/bank-of-anthos/src/ledgermonolith/src/main/java/anthos/samples/bankofanthos/ledgermonolith/TransactionValidator.java:91-95 | helper: without the sender-is-receiver guard the callback would record a row twice |
| LedgerCache.CallbackProjects | app-test/ledger/balancereader/src/main/java/anthos/samples/bankofanthos/balancereader/BalanceReaderController.java:81-98 | helper: one combined callback is the balance callback and the history callback side by side |
| LedgerCache.MonolithRefinesServices | app-test/ledger/transactionhistory/src/main/java/anthos/samples/bankofanthos/transactionhistory/TransactionHistoryController.java:87-119 | for every schedule, loads in flight included, the combined cache projects, step for step, to the balance cache and the history cache |
| LedgerReader.StepMonotone | scratch/bank-of-anthos/src/ledgermonolith/src/main/java/anthos/samples/bankofanthos/ledgermonolith/LedgerReader.java:89-115 | helper: a poll never lowers the position or takes back a callback; a lower remote id or a failed row query stops the reader |
| LedgerReader.NeverBack | scratch/bank-of-anthos/src/ledgermonolith/src/main/java/anthos/samples/bankofanthos/ledgermonolith/LedgerReader.java:89-115 | over any database behaviour; once the remote id is seen below the position no later callback runs |
| LedgerReader.PollCatchesUp | scratch/bank-of-anthos/src/ledgermonolith/src/main/java/anthos/samples/bankofanthos/ledgermonolith/LedgerReader.java:96-115 | a poll whose queries succeed takes a live reader to the newest row it saw, with every row up to there delivered |
| LedgerReader.DeliversExactlyOnce | scratch/bank-of-anthos/src/ledgermonolith/src/main/java/anthos/samples/bankofanthos/ledgermonolith/LedgerReader.java:69-141 | over an append-only ledger the callbacks are exactly the rows after the starting id up to the position, in id order; the starting id is the newest one at the start, or -1 |
| LedgerReader.BatchIsDeliveries | scratch/bank-of-anthos/src/ledgermonolith/src/main/java/anthos/samples/bankofanthos/ledgermonolith/LedgerReader.java:130-141 | a polled batch is as many deliveries of the cache protocol |
| LedgerReader.Poller.ProcessTransaction | scratch/bank-of-anthos/src/ledgermonolith/src/main/java/anthos/samples/bankofanthos/ledgermonolith/LedgerMonolithController.java:127-150 | the callback on the cache field |
| LedgerReader.Poller.PollTransactions | scratch/bank-of-anthos/src/ledgermonolith/src/main/java/anthos/samples/bankofanthos/ledgermonolith/LedgerReader.java:130-141 | hands over the newer rows in order and returns the last id, or the given one when there are none |
| LedgerReader.Poller.PollOnce | scratch/bank-of-anthos/src/ledgermonolith/src/main/java/anthos/samples/bankofanthos/ledgermonolith/LedgerReader.java:96-115 | one iteration of the polling loop, with the cache updated by exactly the rows logged as delivered |
| LedgerWriter.StepEffect | scratch/bank-of-anthos/src/ledgermonolith/src/main/java/anthos/samples/bankofanthos/ledgermonolith/LedgerMonolithController.java:247-272 | whatever interleaves, the ledger grows by exactly the accepted row, which is positive, not to self, not remembered and from the token's account when local |
| LedgerWriter.SavedIff | scratch/bank-of-anthos/src/ledgermonolith/src/main/java/anthos/samples/bankofanthos/ledgermonolith/LedgerMonolithController.java:232-272 | a submission is saved, whatever happens before its Save, if and only if the token verifies, the uuid is not remembered, the numbers are well formed, a local sender is the token's account, account and route do not both coincide, the amount is positive, and a local sender's balance covers it |
| LedgerWriter.BalanceGot | scratch/bank-of-anthos/src/ledgermonolith/src/main/java/anthos/samples/bankofanthos/ledgermonolith/LedgerMonolithController.java:253-258 | that balance is the cached one, that of the load waited for, or -1 when the load fails |
| LedgerWriter.RefusedIff | scratch/bank-of-anthos/src/ledgermonolith/src/main/java/anthos/samples/bankofanthos/ledgermonolith/TransactionValidator.java:70-103 | exactly such submissions get to the balance, and any other is refused for the first of these conditions it fails |
| LedgerWriter.LocalPayment | scratch/bank-of-anthos/src/ledgermonolith/src/main/java/anthos/samples/bankofanthos/ledgermonolith/LedgerMonolithController.java:232-272 | a run from the empty bank in which one local account pays another |
| LedgerWriter.CheckSoundIff | scratch/bank-of-anthos/src/ledgermonolith/src/main/java/anthos/samples/bankofanthos/ledgermonolith/LedgerMonolithController.java:256-265 | no passing debit can overdraw if and only if none passes or the entry's drift is at most the net of the undelivered rows |
| LedgerWriter.CachedDebit | scratch/bank-of-anthos/src/ledgermonolith/src/main/java/anthos/samples/bankofanthos/ledgermonolith/LedgerMonolithController.java:253-269 | a debit that finds its account cached is saved if and only if that balance covers it, whatever happens before the save; judged without positive drift it leaves no less than minus the undelivered debits |
| Ledger.NullIsNetIff | scratch/bank-of-anthos/src/ledgermonolith/src/main/java/anthos/samples/bankofanthos/ledgermonolith/LedgerReaderCache.java:69-73 | on any ledger of positive rows a loaded balance is the true net if and only if the account has a credit or no debit |
| Ledger.DebitHidden | scratch/bank-of-anthos/src/ledgermonolith/src/main/java/anthos/samples/bankofanthos/ledgermonolith/TransactionRepository.java:32-38 | a lone debit row, written past the gate, is read as a balance of zero |
| LedgerWriter.NullIsZero | scratch/bank-of-anthos/src/ledgermonolith/src/main/java/anthos/samples/bankofanthos/ledgermonolith/TransactionRepository.java:32-38 | on every prefix of every ledger the gate builds, however stale its cache and whatever loads are in flight, the NULL balance read as zero is the true net |
| LedgerWriter.GateDrift | scratch/bank-of-anthos/src/ledgermonolith/src/main/java/anthos/samples/bankofanthos/ledgermonolith/LedgerMonolithController.java:127-179 | behind the gate a cached balance is the net its query saw plus the net delivered since installation, exact if and only if the two met at installation |
| LedgerOverdraft.NoDebitMissedIff | scratch/bank-of-anthos/src/ledgermonolith/src/main/java/anthos/samples/bankofanthos/ledgermonolith/LedgerMonolithController.java:256-268 | no load in flight ever misses a debit if and only if no debit of the run is saved while its account, evicted since it was judged, is loading again |
| LedgerOverdraft.LoadUnderstates | scratch/bank-of-anthos/src/ledgermonolith/src/main/java/anthos/samples/bankofanthos/ledgermonolith/LedgerMonolithController.java:256-268 | on such runs a load can only understate: in flight it is at most the net, and installed late it is short by exactly the credits delivered in between |
| LedgerOverdraft.SoundChecksSuffice | scratch/bank-of-anthos/src/ledgermonolith/src/main/java/anthos/samples/bankofanthos/ledgermonolith/LedgerMonolithController.java:253-269 | if every debit judged by a cached balance is so where CheckSoundIff's condition holds and debits are saved in time, every local account is nonnegative on every prefix of every run; debits that wait for a load need no condition |
| LedgerOverdraft.NoOverdraft | scratch/bank-of-anthos/src/ledgermonolith/src/main/java/anthos/samples/bankofanthos/ledgermonolith/LedgerMonolithController.java:253-269 | the same when the reader is caught up at every cached debit and had passed the query of the entry when it was installed |
| LedgerOverdraft.DriftOverdraws | scratch/bank-of-anthos/src/ledgermonolith/src/main/java/anthos/samples/bankofanthos/ledgermonolith/LedgerMonolithController.java:253-269 | a run from the empty bank: a caught-up reader alone is not enough, an entry loaded between deposit and delivery lets up to twice the deposit out |
| LedgerOverdraft.MissedDebitOverdraws | scratch/bank-of-anthos/src/ledgermonolith/src/main/java/anthos/samples/bankofanthos/ledgermonolith/LedgerMonolithController.java:256-268 | a run from the empty bank: a debit saved while its account is loading again is missed, and the next one overdraws |
| LedgerWriter.MoneyConserved | app-test/ledger/ledgerwriter/src/main/java/anthos/samples/bankofanthos/ledgerwriter/LedgerWriterController.java:149-173 | the nets of all local accounts sum to external deposits minus external payments |
| LedgerWriter.OneRowPerUuid | app-test/ledger/ledgerwriter/src/main/java/anthos/samples/bankofanthos/ledgerwriter/LedgerWriterController.java:149-173 | over every run a request uuid yields at most one row plus one per expiry of its memory |
| LedgerWriter.CallAlone | scratch/bank-of-anthos/src/ledgermonolith/src/main/java/anthos/samples/bankofanthos/ledgermonolith/LedgerMonolithController.java:232-272 | undisturbed, the events of a submission do what the call as a function does |
| LedgerWriter.Controller.GetAvailableBalance | scratch/bank-of-anthos/src/ledgermonolith/src/main/java/anthos/samples/bankofanthos/ledgermonolith/LedgerMonolithController.java:298-308 | the cached balance, loaded when absent and -1 when loading fails; the true net when solvent and loaded now, or caught up |
| LedgerWriter.Controller.AddTransaction | scratch/bank-of-anthos/src/ledgermonolith/src/main/java/anthos/samples/bankofanthos/ledgermonolith/LedgerMonolithController.java:232-272 | accepted if and only if all the conditions hold, refused for the first that fails, equal to its events run alone; the ledger changes only on acceptance |
| ForecastEngine.FetchCpuSeries | chronos/chronos_prometheus.py:252-275 | one value per finite time, rising, each the sum over all series; refused without data or with too few points |
| ForecastEngine.OrderIrrelevant | chronos/chronos_prometheus.py:259-267 | over exact rationals neither the times nor the sums depend on the order of the returned series, whatever the reordering |
| ForecastEngine.SameInput | chronos/chronos_prometheus.py:259-269 | so over exact rationals the list of values handed to the model is the same for every order of the series |
| ForecastEngine.ReplicasIsTheTarget | chronos/chronos_prometheus.py:318-332 | the replica count is the one count in [min, max] that covers the demand with none smaller doing so, or the maximum when none does |
| ForecastEngine.ReplicasOtherwise | chronos/chronos_prometheus.py:313-332 | set up otherwise: current count kept below the threshold; unclamped, the least covering count from the minimum on |
| ForecastEngine.ValidateIff | chronos/chronos_prometheus.py:122-138 | settings are valid if and only if the mode is known and the numbers fit together |
| ForecastEngine.FakeReplicasAreKept | chronos/chronos_prometheus.py:300-332 | faked replicas come out as configured, cut to the range, with or without data |
| ForecastRuntime.StepInv | chronos/app.py:185-264 | every run, failure and refresh keeps gauges and state in agreement |
| ForecastRuntime.SignalSafety | chronos/app.py:165-264 | the valid gauge tells validity; a nonzero scaling signal means active mode, a valid state and the latest count |
| ForecastRuntime.ScrapedSignal | chronos/app.py:235-264 | right after a refresh a nonzero signal is within its TTL, in [min, max] and the least covering count unless capped |
| ForecastRuntime.PredictionSignalled | chronos/app.py:185-233 | after any history a successful run of an active target is valid, dated and signals the least count in range covering that very prediction, or the maximum |
| ForecastRuntime.RefreshExact | chronos/app.py:243-264 | a refresh keeps exactly the valid forecasts whose age is within the TTL and takes the signal of all others |
| ForecastRuntime.InvalidUntilSuccess | chronos/app.py:185-264 | an expired or failed target gives no signal until a run succeeds |
| ForecastRuntime.Runtime.constructor | chronos/app.py:60-85 | every named target once with the settings it was first named with, all inactive |
| ForecastRuntime.Runtime.RunOnceFor | chronos/app.py:185-233 | one run changes exactly its target and reports the prediction given, the failure given, or nothing when disabled |
| ForecastRuntime.Runtime.RunAll | chronos/app.py:176-183 | one round gives every target exactly its own run |
| ForecastRuntime.Runtime.RefreshExpiryFor | chronos/app.py:243-264 | one refresh changes exactly its target and answers true if and only if it was valid and its age is within the TTL |
| ForecastRuntime.Runtime.RefreshAllExpiry | chronos/app.py:239-241 | afterwards every nonzero signal is active and fresh |
| ForecastRuntime.Runtime.PredictionResponse | chronos/app.py:284-313 | answers if and only if the target is known, valid and fresh, with the latest forecast |
| ResourceQuantity.CpuReadsBack | finops/app/engine.py:61-65 | reading back a printed CPU value is exact on whole millicores below one core and whole hundredths above, and within half of the last printed digit always |
| ResourceQuantity.MemoryReadsBack | finops/app/engine.py:67-71 | reading back a printed memory value is exact on every whole MiB, the Gi form included, and within half a MiB otherwise |
| ResourceQuantity.ParsePointed | finops/app/engine.py:14-27 | a decimal text is read as its digits say |
| ResourceQuantity.ReadUnit | finops/app/engine.py:29-59 | digits with any unit of letters, or none, are read as the number in that unit |
| ResourceQuantity.Units | finops/app/engine.py:50-59 | what each unit means in MiB |
| ResourceQuantity.FractionRead | finops/app/engine.py:36-42 | a fraction of at least one digit counts |
| ResourceQuantity.ExponentIs | finops/app/engine.py:36-42 | an exponent means its power of ten, or one over it |
| ResourceQuantity.CpuForm | finops/app/engine.py:61-65 | below one core the text is in millicores, from one core on it has a point |
| ResourceQuantity.MemoryForm | finops/app/engine.py:67-71 | Gi exactly for whole GiB from one on, Mi otherwise |
| PolicyEngine.Evaluate | finops/app/engine.py:109-365 | the eight rules applied in order give, in plain numbers, the score, status, risk, rule statuses, values, limits and rounded costs; a positive limit is never exceeded and never raises a value |
| PolicyEngine.EvaluateOptimization | finops/app/engine.py:95-110 | the same from texts to texts: the approved texts read back to the approved values within rounding |
| PolicyEngine.PolicyFloor | finops/app/engine.py:114-239 | over all rule combinations CPU stays above half and memory above two fifths of current before the cap, and CPU at 85 percent or more without a forecast |
| PolicyEngine.VetoKeepsCurrent | finops/app/engine.py:154-310 | helper: an OOM kill, ten restarts or an overall failure give exactly the smaller of current and a positive limit, for both resources |
| PolicyEngine.SavingsBounded | finops/app/engine.py:349-359 | with no cap biting the unrounded saving stays below 60 percent |
| PolicyEngine.OomFailsIff | finops/app/engine.py:155-298 | helper: an OOM kill fails the evaluation if and only if another rule raises a risk too |
| PolicyEngine.OomAlonePasses | finops/app/engine.py:155-298 | helper: an input with an OOM kill that does not fail |
| PolicyEngine.BlindFailsIff | finops/app/engine.py:166-298 | helper: without metrics and forecast the evaluation fails if and only if a cut is too deep or history is missing |

## Left out

- Redis, PostgreSQL, Guava and Prometheus clients: their documented command effects are single steps; a Redis command takes effect at most once.
- The JSON text of a job: a raw list element is the job value itself, and equal texts are equal values.
- `clear()`, metric counters, logging, signals and sleeps of the queue.
- Rival clients in QueueService.Service other than between LPOS and EXEC of a retry; all interleavings are in QueueProtocol.
- One clock reading stamps all failures of one scan in QueueService.Service.RecoverStale, where the service reads the clock for each job.
- Waiting room: interleaving inside one check, SCAN paging, equal arrival times, a negative number of slots, and Redis errors halfway through a check.
- Ledger: a crash between saving a row and remembering its uuid; HTTP, token verification (a parameter), out-of-order id commits, 32-bit narrowing of balances, eviction inside one callback, sharing of one deque object between the cache and a response being written.
- Two submissions at once, in the overdraft and uuid results.
- A callback or a cache operation that throws inside the polling thread.
- ForecastEngine.OrderIrrelevant: over exact rationals; the service adds floats, whose sum can depend on the order in its last digits.
- ForecastEngine.SameInput: over exact rationals, as above.
- Forecast: floats are exact rationals; the model pipeline, the HTTP query, the six- and three-decimal rounding of displayed CPU values, and writing the result file; a failure inside the publishing lock.
- Policy: rule descriptions in prose; infinities, NaN and underscores in float texts; the exponent form Python prints from 10^16 cores on; the printed text may exceed a limit by rounding, only the number is capped.
- finops clients and API, alarm, k6, contacts, user service, Flask pages and UI: input, output and presentation.
