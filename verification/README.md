# Cross-chain transfers: relayer engine, Solana program and byte formats

This project models three parts of the repository and proves what they promise.

**The relayer engine's store and executor.** Listeners deliver workflows, executor processes take
them, complete them, or give them back, and all of them share one store (`lib/README.md:24`,
`lib/README.md:51`). The in-memory store, its watched batches, the workflow operations, the staging
area, the executor, the retrying wrapper and the wallet workers are classes with the source's
fields and methods. Each method is proved against a function on the store's value, and the theorems
are about those functions, over every run of any number of listeners and executors: no key is in
hand twice, no key is lost, attempts are bounded, every run falls quiet, the load bound holds, the
staging area and the workflows never meet, and retried writes have the effect of single ones. Runs
include writes whose request is lost and which are retried late; `Fleet.dfy` joins them with the
backlogs of all processes, and says exactly which late attempt is harmless.

**The Solana token program.** Each instruction is a method that moves tokens through the temporary
account one transfer at a time, and is proved equal to its net effect on the ledger or to an abort
that leaves no trace. Over every sequence of instructions tokens are conserved, custody accounts for
what was sent and redeemed, and a transfer is paid out at most once, to the payload's recipient and
the paying relayer.

**The byte formats.** A posted VAA with a token bridge transfer, the 33-byte recipient payload as
the Solana program and the Injective contract each write it, and Injective's address padding.
Parsing undoes writing for all values, and nothing but what can be written parses.

| file | subject |
|---|---|
| `Lists.dfy` | sequence vocabulary |
| `InMemoryStore.dfy` | the in-memory Redis stand-in and its batches |
| `Storage.dfy` | workflow keys and the operations of `DefaultStorage` |
| `StagingArea.dfy` | `withKey` and the shared counter |
| `Relayer.dfy` | the executor, runs, and their invariant |
| `RelayerRuns.dfy` | theorems about relayer runs |
| `Backlog.dfy` | the backlog, for any operations on any store |
| `RetryingStorage.dfy` | `DefaultStorage` behind the backlog, and retry safety |
| `Fleet.dfy` | relayer runs with a retrying wrapper in every process |
| `Handlers.dfy` | what handlers are given |
| `WalletWorkers.dfy` | per-chain action queues |
| `Amounts.dfy` | decimal truncation and the relayer's share |
| `XChainProgram.dfy` | the Solana instructions |
| `LedgerRuns.dfy` | theorems about sequences of instructions |
| `Bytes.dfy` | integers as bytes |
| `Messages.dfy` | posted VAA, transfer and recipient payload |
| `Addresses.dfy` | address padding |

## What the code does that a reader may not expect

The model follows the code in each of these; most have a lemma of their own.

- `lRem` rebuilds the list in reverse, also when it removes nothing.
- The workflow queue is a stack: it is pushed and popped at the same end (`Relayer.AddThenTake`).
- `sanitize` passes a string where a pattern was meant, so it cuts out one literal occurrence of the
  pattern's text and nothing else (`WorkflowStorage.SanitizeMeaning`).
- `unwatch` and `exec` clear the locks of every client. The dummy plugin's comment says that several
  listeners may change the counter safely; that holds for clients that use nothing but that key
  (`StagingArea.CounterCountsSuccesses`). With others about, an update is lost exactly when the locks
  were cleared and the value changed between watch and commit
  (`StagingArea.CommitIffClearedOrUnchanged`); a delivery in between is enough
  (`StagingArea.DeliveryLosesUpdate`).
- A `withKey` callback that throws leaves its lock behind, and calls on its key fail until, and only
  until, some client's `exec` or `unwatch` (`StagingArea.AbandonedUntilCleared`). A `watch` that
  throws midway leaves the earlier keys locked (`InMemoryStore.WatchFailure`).
- A batch in which a `set` fails still applies all its other operations.
- A requeue of a key without a record throws with the key locked. Behind the retrying wrapper an
  operation whose key is locked, or a requeue without a record, keeps everything after it waiting as
  long as no other client changes that (`RetryingStorage.BacklogMovesIff`).
- A workflow dropped after too many requeues, or taken by a process without its plugin, stays in the
  active list, as does one whose completion or requeue is lost until that is retried
  (`RelayerRuns.HowKeysAreLeftBehind`, `RelayerRuns.LeftBehindUntilRetried`). Executors stall exactly
  when ten or more keys are left behind so (`RelayerRuns.StallsIff`).
- A requeue whose reply was lost is retried whatever happened to the key since. If another process
  took it, the key is handed out twice (`RetryingStorage.LateRetryHandsOutTwice`); a late requeue is
  harmless exactly when nothing has the key in hand (`Relayer.LateRequeueHarmlessIff`). If the key was
  completed meanwhile, the retry queues a completed workflow again, which counts in
  `RelayerRuns.AttemptsBounded`.
- A redeem by a relayer fails exactly when amount times fee overflows a u64
  (`LedgerRuns.RelayedIffProductFits`; `LedgerRuns.RelayedRedeemCanFail` is one that does).
  `InvalidCalculation` is unreachable: the transfer of the share would have failed before.
- Injective's `get_address` does not undo the padding of a 32-byte address that starts with twelve
  zero bytes, nor of one that is neither 20 nor 32 bytes long; the condition is exact
  (`Addresses.AddressRoundTrip`).

## Assumptions

- Each storage call is one atomic step; `withKey` is two, split where it awaits its callback.
- The JSON encoding is injective, and its results are neither empty nor the complete mark.
- In runs, delivered workflows have plugin names without `/` and other than `__stagingArea`. Ids may
  hold any characters, as base64 ids do.
- The backlog's mutex makes each drain one call; what is pushed meanwhile arrives between attempts. In
  `Fleet.dfy` each attempt is an event of its own, between any others.
- The token bridge moves, burns or mints the stated amount, sets the claim, and refuses a native send
  of a wrapped mint. Only this program moves custody. Genesis starts from zero custody.

## Model

| member | source | states |
|---|---|---|
| InMemoryStore.InMemory.constructor | lib/relayer-engine/src/storage/inMemoryStore.ts:7-11 | a new store has no locks, values or lists |
| InMemoryStore.InMemory.Watch | lib/relayer-engine/src/storage/inMemoryStore.ts:26-38 | the loop locks keys one at a time and stops at the first that is locked |
| InMemoryStore.WatchMeaning | lib/relayer-engine/src/storage/inMemoryStore.ts:26-38 | a watch returns exactly when its keys are distinct and none is locked, and then each is locked at the value it has |
| InMemoryStore.WatchFailure | lib/relayer-engine/src/storage/inMemoryStore.ts:30-36 | a watch that throws has locked exactly the longest prefix of its keys that could be watched |
| InMemoryStore.InMemory.Get | lib/relayer-engine/src/storage/inMemoryStore.ts:39-41 | a missing key and an empty string both read as null |
| InMemoryStore.InMemory.Set | lib/relayer-engine/src/storage/inMemoryStore.ts:42-45 | sets one key and nothing else, whatever is locked |
| InMemoryStore.InMemory.Unwatch | lib/relayer-engine/src/storage/inMemoryStore.ts:46-49 | clears the locks of all clients and nothing else |
| InMemoryStore.InMemory.LPush | lib/relayer-engine/src/storage/inMemoryStore.ts:68-74 | pushes at the front of one list, creating it if need be, and returns its new length |
| InMemoryStore.InMemory.LLen | lib/relayer-engine/src/storage/inMemoryStore.ts:80-82 | the length of a list, 0 for a missing one |
| InMemoryStore.InMemory.LRem | lib/relayer-engine/src/storage/inMemoryStore.ts:84-102 | the list becomes the reverse of what is left after removing matches up to the count, and the result says how many went |
| InMemoryStore.RemoveAllMatches | lib/relayer-engine/src/storage/inMemoryStore.ts:86-98 | a count of 0, or a negative one, removes every match and keeps the rest |
| InMemoryStore.RemoveFirstMatches | lib/relayer-engine/src/storage/inMemoryStore.ts:93-99 | a positive count removes all matches up to some position and none after it; up to there are `count` matches unless the list ends first |
| InMemoryStore.RemovedFirst | lib/relayer-engine/src/storage/inMemoryStore.ts:84-101 | `lRem` with a positive count takes that many matches from the front of the named list, fewer only if there are no more, reverses the rest, and leaves other lists alone |
| InMemoryStore.RemovedAll | lib/relayer-engine/src/storage/inMemoryStore.ts:84-101 | `lRem` with count 0 or less takes every match and reverses the rest; a missing list stays missing |
| InMemoryStore.RemovalOfTwo | lib/relayer-engine/src/storage/inMemoryStore.test.ts:53-59 | the list of the repository's own example, after a removal with count 2, is reversed and holds what the example expects |
| InMemoryStore.InMemory.BlMove | lib/relayer-engine/src/storage/inMemoryStore.ts:113-143 | moves one element between the chosen ends of two lists; an empty-string element is taken and dropped |
| InMemoryStore.MoveMeaning | lib/relayer-engine/src/storage/inMemoryStore.ts:127-142 | for each of the four choices of ends, and also within one list, the moved element and what is left put together again are the source, and the destination gains it at the chosen end |
| InMemoryStore.InMemory.Multi | lib/relayer-engine/src/storage/inMemoryStore.ts:23-25 | a new batch on this store is empty |
| InMemoryStore.InMemoryMulti.constructor | lib/relayer-engine/src/storage/inMemoryStore.ts:146-150 | a batch keeps the store and operations it was made with |
| InMemoryStore.InMemoryMulti.LPush | lib/relayer-engine/src/storage/inMemoryStore.ts:152-161 | a new batch with one more push; the batch it came from and the store stay as they are |
| InMemoryStore.InMemoryMulti.LRem | lib/relayer-engine/src/storage/inMemoryStore.ts:152-164 | a new batch with one more removal; the batch it came from and the store stay as they are |
| InMemoryStore.InMemoryMulti.Set | lib/relayer-engine/src/storage/inMemoryStore.ts:152-175 | a new batch with one more write; the batch it came from and the store stay as they are |
| InMemoryStore.InMemoryMulti.Start | lib/relayer-engine/src/storage/inMemoryStore.ts:165-178 | once all operations are started, the list operations and the writes to unlocked keys are done, and each write to a locked key waits with its verdict from the values before the batch |
| InMemoryStore.InMemoryMulti.Exec | lib/relayer-engine/src/storage/inMemoryStore.ts:176-186 | a batch applies all its list operations in order and exactly its writes to keys unchanged since watched, throws exactly when it skipped a write, and leaves no lock either way |
| InMemoryStore.ResumedWrites | lib/relayer-engine/src/storage/inMemoryStore.ts:165-178 | although writes to locked keys act last, the values end as if all fresh writes had acted in order |
| InMemoryStore.DeferredLocked | lib/relayer-engine/src/storage/inMemoryStore.ts:167-171 | a batch throws exactly when one of its waiting writes is stale |
| InMemoryStore.WritesMeaning | lib/relayer-engine/src/storage/inMemoryStore.ts:165-182 | in a batch with distinct keys every fresh write ends with its own value, and every stale or unwritten key as it was |
| InMemoryStore.ExecGrows | lib/relayer-engine/src/storage/inMemoryStore.ts:165-186 | adding an operation to a batch: list operations act even if a write is refused; a write is refused, and makes the batch throw, exactly when its key is locked at another value |
| WorkflowStorage.WorkflowKeyInjective | lib/relayer-engine/src/storage/storage.ts:211-213 | for plugin names without a slash, two workflows share a key exactly when plugin and id agree, whatever the ids hold |
| WorkflowStorage.WorkflowKeyNotStaging | lib/relayer-engine/src/storage/storage.ts:211-222 | no workflow of a well-named plugin is kept under a staging key |
| WorkflowStorage.StagingKeysCollideIff | lib/relayer-engine/src/storage/storage.ts:222-237 | for all plugins and keys: two staging keys are one exactly when sanitized names and keys agree, or one name goes on with a slash where the other's key takes over |
| WorkflowStorage.StagingAreasDisjoint | lib/relayer-engine/src/storage/storage.ts:222-237 | between plugins whose sanitized names hold no slash, staging keys are one exactly when names and keys agree |
| WorkflowStorage.SanitizeMeaning | lib/relayer-engine/src/storage/storage.ts:55-57 | a name changes exactly when it holds the pattern's text literally, and then its first occurrence is cut out |
| WorkflowStorage.StagingKeyForm | lib/relayer-engine/src/storage/storage.ts:222-237 | plugin data is kept under `__stagingArea/`, the sanitized name and the key |
| WorkflowStorage.DefaultStorage.constructor | lib/relayer-engine/src/storage/storage.ts:63-70 | a storage object starts with no requeue counted |
| WorkflowStorage.DefaultStorage.NumActiveWorkflows | lib/relayer-engine/src/storage/storage.ts:73-75 | the length of the active list |
| WorkflowStorage.DefaultStorage.AddWorkflow | lib/relayer-engine/src/storage/storage.ts:82-97 | watch, read and batch together leave a known key alone, and record and queue a new one |
| WorkflowStorage.DefaultStorage.RequeueWorkflow | lib/relayer-engine/src/storage/storage.ts:100-130 | beyond the limit nothing changes; otherwise the counter goes up by one whether or not the store operation throws |
| WorkflowStorage.DefaultStorage.RequeueOperation | lib/relayer-engine/src/storage/storage.ts:111-129 | a missing record throws with the key locked; a complete one becomes a workflow again; the key leaves both lists and is pushed on the queue |
| WorkflowStorage.RequeuedContents | lib/relayer-engine/src/storage/storage.ts:124-128 | after a requeue the key heads the queue and is in neither remainder, and both remainders are reversed |
| WorkflowStorage.RemovedContents | lib/relayer-engine/src/storage/storage.ts:125-147 | removing a key with count 0 takes every occurrence from one list, reverses it, and keeps every other list |
| WorkflowStorage.DefaultStorage.CompleteWorkflow | lib/relayer-engine/src/storage/storage.ts:133-150 | marks the key complete and takes it from the active list; the queue is not looked at |
| WorkflowStorage.DefaultStorage.GetNextWorkflow | lib/relayer-engine/src/storage/storage.ts:154-175 | moves the head of the queue to the end of the active list, and throws after that if the record or its plugin is missing |
| WorkflowStorage.TakeThrowsIff | lib/relayer-engine/src/storage/storage.ts:158-173 | a take moves the head key first, and then hands out its record exactly if that is a workflow of one of the process's plugins, else throws with the key moved |
| WorkflowStorage.RequeueThrows | lib/relayer-engine/src/storage/storage.ts:111-117 | a requeue throws exactly for a locked key or a missing record, and in the second case leaves the lock |
| WorkflowStorage.LifeAdded | lib/relayer-engine/src/storage/storage.test.ts:55-59 | for any workflow added to an empty store: its record with the schedule time, and its key in `__workflowQ`, and nothing else |
| WorkflowStorage.LifeTaken | lib/relayer-engine/src/storage/storage.test.ts:61-68 | then taken: handed out whole, its key in `__activeWorkflows` and the queue empty |
| WorkflowStorage.LifeCompleted | lib/relayer-engine/src/storage/storage.test.ts:70-74 | then completed: the record is `__complete` and both lists are empty |
| StagingArea.StagingAreaKeyLock.constructor | lib/relayer-engine/src/storage/storage.ts:217-223 | a lock is for one plugin on one store |
| StagingArea.StagingAreaKeyLock.GetKeys | lib/relayer-engine/src/storage/storage.ts:225-241 | each requested key is given with the value it has under its staging key |
| StagingArea.StagingAreaKeyLock.Begin | lib/relayer-engine/src/storage/storage.ts:248-255 | the callback gets the values that the keys were locked at, or the watch throws |
| StagingArea.StagingAreaKeyLock.Commit | lib/relayer-engine/src/storage/storage.ts:257-265 | everything the callback returned is written in one batch |
| StagingArea.BeginLocks | lib/relayer-engine/src/storage/storage.ts:248-252 | a call begins exactly when its keys are distinct and unlocked, and then each is locked at its value under its own staging key, and no other lock or value changes |
| StagingArea.CommitWrites | lib/relayer-engine/src/storage/storage.ts:257-265 | a commit of any entries with distinct names leaves each value under its own key unless that is stale, every other value and all lists as they were, and no lock |
| StagingArea.CommitOkIff | lib/relayer-engine/src/storage/storage.ts:257-265 | a commit of any entries succeeds exactly when none of their keys is stale |
| StagingArea.CommitSucceedsIffUnchanged | lib/relayer-engine/src/storage/storage.ts:243-267 | while no other client clears locks, a commit on watched keys succeeds exactly when each key it writes still has the value passed to the callback |
| StagingArea.CommitIffClearedOrUnchanged | lib/relayer-engine/src/storage/storage.ts:243-267 | whatever others do between watch and commit, on a key nobody watches anew the commit succeeds exactly when somebody cleared the locks or the key still has the value passed to the callback |
| StagingArea.CommitIff | lib/relayer-engine/src/storage/storage.ts:243-267 | for anything others do: without a clear the value passed to the callback must be current, and where a later watch took the lock anew, the value the key had then |
| StagingArea.LockLastsUntilCleared | lib/relayer-engine/src/storage/inMemoryStore.ts:26-49 | a held lock keeps its value until some client's exec or unwatch, and is gone from then until somebody watches the key again |
| StagingArea.DisturbedKeepsLocks | lib/relayer-engine/src/storage/inMemoryStore.ts:26-45 | until locks are cleared, other clients never change a lock that is held |
| StagingArea.CounterStepInv | app/plugins/dummy_plugin/src/plugin.ts:91-102 | every begin, commit or failing callback keeps: at most one call holds the lock, the value it saw is current, and the counter is ahead by the number of successes |
| StagingArea.NoLostUpdate | app/plugins/dummy_plugin/src/plugin.ts:89-102 | that invariant holds over every interleaving of any number of clients of one key |
| StagingArea.CounterCountsSuccesses | app/plugins/dummy_plugin/src/plugin.ts:89-102 | the counter has gone up by exactly the number of successful calls, which returned distinct consecutive numbers |
| StagingArea.AbandonedUntilCleared | lib/relayer-engine/src/storage/storage.ts:250-277 | a lock left behind lets a call on its key begin exactly if some client cleared the locks since |
| StagingArea.AbandonedLockBlocks | lib/relayer-engine/src/storage/storage.ts:255-277 | among clients of that key alone, which never clear it, every later call fails and changes nothing |
| StagingArea.DeliveryLosesUpdate | lib/relayer-engine/src/storage/storage.ts:82-97 | for every store and workflow: a delivery during one call's callback lets two successful calls count as one |
| Relayer.Executor.constructor | lib/relayer-engine/src/executor/executorHarness.ts:84-91 | an executor starts with nothing in hand |
| Relayer.Executor.CheckLoad | lib/relayer-engine/src/executor/executorHarness.ts:95-101 | the loop goes on to take exactly when fewer than ten workflows are active |
| Relayer.Executor.TakeNext | lib/relayer-engine/src/executor/executorHarness.ts:103-122 | one take spawns one execution of what was handed out; an empty queue or a throw spawns none |
| Relayer.Executor.Succeed | lib/relayer-engine/src/executor/executorHarness.ts:153-154 | after its handler returns, a workflow is completed and its execution is past that point unless completing threw |
| Relayer.Executor.GiveBack | lib/relayer-engine/src/executor/executorHarness.ts:159-165 | whatever threw, before or after completion, the workflow is requeued or dropped and its execution ends |
| Relayer.Executor.Return | lib/relayer-engine/src/executor/executorHarness.ts:155-168 | an execution past completion ends without touching the store |
| Relayer.AddedMoves | lib/relayer-engine/src/storage/storage.ts:82-97 | from a sound store a delivery queues an unknown key and moves nothing else; redelivery moves nothing |
| Relayer.CompletedMoves | lib/relayer-engine/src/storage/storage.ts:133-150 | completing an active or complete key succeeds, makes that key complete and moves nothing else |
| Relayer.RequeuedMoves | lib/relayer-engine/src/storage/storage.ts:111-129 | requeueing a known key succeeds, queues that key and moves nothing else |
| Relayer.TakenMoves | lib/relayer-engine/src/storage/storage.ts:154-175 | a take makes the head of the queue active, hands out its record exactly if the process has its plugin, and moves nothing else |
| Relayer.AddThenTake | lib/relayer-engine/src/storage/storage.ts:93-162 | a take right after a new delivery hands out that very workflow and leaves the queue as it was before |
| Relayer.TakeSpawns | lib/relayer-engine/src/executor/executorHarness.ts:103-117 | a take spawns one execution, of exactly the workflow recorded for the key at the head of the queue, or none without its plugin or with an empty queue; other executions stay |
| Relayer.SucceedThrowsIff | lib/relayer-engine/src/executor/executorHarness.ts:153-154 | completing throws exactly when the key is locked, and then the execution is still in its handler |
| Relayer.BegunKeepsWorkflows | lib/relayer-engine/src/storage/storage.ts:248-252 | beginning a staging update changes no value and no list, and locks staging keys only |
| Relayer.CommittedKeepsWorkflows | lib/relayer-engine/src/storage/storage.ts:257-265 | committing one changes no list and no value outside the staging area |
| Relayer.TakeNextInv | lib/relayer-engine/src/executor/executorHarness.ts:103-117 | a take never hands out a key that is already in hand |
| Relayer.DeliverInv | lib/relayer-engine/src/storage/storage.ts:82-97 | a delivery keeps the run invariant, whatever is in hand |
| Relayer.SucceedInv | lib/relayer-engine/src/executor/executorHarness.ts:153-154 | completing what is in hand keeps the run invariant |
| Relayer.GiveBackInv | lib/relayer-engine/src/executor/executorHarness.ts:159-165 | giving back keeps the run invariant in both its cases, requeue and drop |
| Relayer.LeaveRequeueInv | lib/relayer-engine/src/storage/redisStore.ts:43-47 | a failed execution whose requeue does not reach the store keeps the run invariant |
| Relayer.LateRequeueHarmlessIff | lib/relayer-engine/src/storage/storage.ts:111-129 | a requeue that comes late keeps the run invariant exactly when no execution has its key, neither in its handler nor past it |
| Relayer.LateCompleteHarmlessIff | lib/relayer-engine/src/storage/storage.ts:138-149 | a completion that comes late keeps it exactly when the key is not queued and not in its handler again |
| Relayer.StepInv | lib/relayer-engine/src/executor/executorHarness.ts:84-170 | every step, lost writes and late retries included, keeps: keys listed once, records matching lists, what is in hand active, no key in hand twice, counters within the limit |
| Relayer.RunInv | lib/relayer-engine/src/executor/executorHarness.ts:84-170 | every run keeps it |
| Handlers.StepCarries | lib/relayer-engine/src/executor/executorHarness.ts:151-165 | every event keeps: recorded and spawned workflows are ones that were brought in, and a handler runs on the very record of its key |
| Handlers.HandlersGetDeliveries | lib/relayer-engine/src/executor/executorHarness.ts:151-153 | in every run, what a handler runs on is a delivered workflow, with id, plugin and data as delivered and the time of that delivery, and is what the store records for it |
| Handlers.HandlersGetPushes | lib/relayer-engine/src/executor/executorHarness.ts:151-153 | the same with retrying wrappers in every process, whatever is lost and retried |
| RelayerRuns.StepMoves | lib/relayer-engine/src/executor/executorHarness.ts:93-170 | each event moves at most the one key it is about, and to the place its outcome calls for |
| RelayerRuns.GiveBackRequeuesIff | lib/relayer-engine/src/storage/storage.ts:103-129 | after a failed execution its key is queued if and only if its process has requeued it fewer than 3 times; else nothing in the store changes; the execution ends either way |
| RelayerRuns.SucceedCompletes | lib/relayer-engine/src/executor/executorHarness.ts:153-158 | a handler that returns leaves its key marked `__complete` and in neither list |
| RelayerRuns.FinishedReturns | lib/relayer-engine/src/executor/executorHarness.ts:155-168 | an execution past completion can always return, and no other execution or the store notices |
| RelayerRuns.StagingUpdateActs | lib/relayer-engine/src/storage/storage.ts:243-267 | in a run, a plugin's update of a free key locks it, writes its value and lets go, and no process notices |
| RelayerRuns.NeverInHandTwice | lib/relayer-engine/src/executor/executorHarness.ts:93-170 | in every run no key is in hand in two executions, each key is at most once in queue and active list together, and what is in hand is active |
| RelayerRuns.KnownIffDelivered | lib/relayer-engine/src/storage/storage.ts:82-97 | in every run the keys that have a place are exactly those ever delivered |
| RelayerRuns.Conservation | lib/relayer-engine/src/storage/storage.ts:85-173 | in every run a delivered key is queued, active or complete and only one of these, and its record is the complete mark exactly when it is in neither list; other keys have no record |
| RelayerRuns.KeySeparation | lib/relayer-engine/src/storage/storage.ts:211-265 | no staging call changes a list or a workflow record, and no workflow event changes a staging value |
| RelayerRuns.StagingNeverInterferes | lib/relayer-engine/src/storage/storage.ts:243-265 | every run treats processes, lists and records just as the same run without its staging calls |
| RelayerRuns.StepRequeuesLeft | lib/relayer-engine/src/storage/storage.ts:103-109 | only a failure that is not dropped uses up a requeue, one, and only of its own key; retries use up none |
| RelayerRuns.RunHandouts | lib/relayer-engine/src/storage/storage.ts:100-175 | in every run the handouts of a key, plus requeues left in a backlog, less retries that revive it, are exactly what it had coming before less what it has coming after |
| RelayerRuns.AttemptsBounded | lib/relayer-engine/src/storage/storage.ts:28-109 | with N executor processes a key that is not retried is handed out at most 1 + 3N times, however long the run; each retried requeue that finds it outside the queue allows one more, and each requeue left in a backlog one less |
| RelayerRuns.AttemptsReached | lib/relayer-engine/src/storage/storage.ts:104-109 | the bound is exact: for every workflow and N processes with its plugin, some run hands it out 1 + 3N times |
| RelayerRuns.OtherHands | lib/relayer-engine/src/executor/executorHarness.ts:151-169 | an event leaves what is in hand of every other key as it is |
| RelayerRuns.StepRank | lib/relayer-engine/src/executor/executorHarness.ts:151-168 | every take, completion, requeue, drop and return strictly lowers the rank of its key, a late requeue raises it by at most 3, and no event changes any other rank |
| RelayerRuns.RunProgress | lib/relayer-engine/src/executor/executorHarness.ts:93-170 | the steps of progress in a run are at most the fall of the total rank of its keys and 3 for each late requeue |
| RelayerRuns.RunsFallQuiet | lib/relayer-engine/src/executor/executorHarness.ts:93-170 | a run that delivers m keys to N processes makes at most m(12N + 4) steps of progress, and 3 for each late requeue |
| RelayerRuns.StepLoad | lib/relayer-engine/src/executor/executorHarness.ts:95-103 | every step keeps the active list plus the processes between check and take within 9 + N |
| RelayerRuns.LoadBounded | lib/relayer-engine/src/executor/executorHarness.ts:35-107 | with N executors the active list never exceeds 9 + N keys |
| RelayerRuns.HowKeysAreLeftBehind | lib/relayer-engine/src/storage/storage.ts:104-173 | an event leaves a key behind if and only if it is a take by a process without the plugin, or ends an execution in its handler without the store being told |
| RelayerRuns.LeftBehindUntilRetried | lib/relayer-engine/src/storage/storage.ts:104-107 | a key left behind stays so through an event if and only if that is no retry of an operation on it |
| RelayerRuns.LeftBehindForever | lib/relayer-engine/src/storage/storage.ts:104-107 | a key left behind stays so in every run that does not retry it, redelivered or not |
| RelayerRuns.TenLeftBehindStall | lib/relayer-engine/src/executor/executorHarness.ts:98-101 | with ten keys left behind and not retried, only takes that were already checked for still happen, in any run |
| RelayerRuns.CanGoOn | lib/relayer-engine/src/executor/executorHarness.ts:93-107 | with fewer than ten left behind, completing executions and one check lets any given process take from the same queue |
| RelayerRuns.StallsIff | lib/relayer-engine/src/executor/executorHarness.ts:93-107 | between takes, no run without retries ever takes again if and only if ten or more keys are left behind |
| Backlog.DrainConserves | lib/relayer-engine/src/storage/redisStore.ts:39-52 | one drain: the backlog and what arrives during it are what is done followed by what stays, in order |
| Backlog.BacklogConservation | lib/relayer-engine/src/storage/redisStore.ts:26-52 | over every history of pushes and drains, operations pushed are those that succeeded followed by the backlog, in push order, so none is lost and none succeeds twice |
| Backlog.KeptByHistory | lib/relayer-engine/src/storage/redisStore.ts:26-52 | whatever each single attempt keeps, between store and number of successes, holds after every history |
| RetryingStorage.DefaultRedisWrapper.constructor | lib/relayer-engine/src/storage/redisStore.ts:15-18 | a wrapper starts with an empty backlog |
| RetryingStorage.DefaultRedisWrapper.Push | lib/relayer-engine/src/storage/redisStore.ts:26-27 | a new operation goes behind all that wait |
| RetryingStorage.DefaultRedisWrapper.ExecuteIsolated | lib/relayer-engine/src/storage/redisStore.ts:43 | an attempt has its operation's whole effect unless the request is lost, and throws if the operation does or either message is lost |
| RetryingStorage.DefaultRedisWrapper.ExecuteBacklog | lib/relayer-engine/src/storage/redisStore.ts:39-52 | the indexed loop over a growing backlog does the operations in order up to the first that throws, and keeps that and all after it |
| RetryingStorage.OneAttempt | lib/relayer-engine/src/storage/redisStore.ts:41-49 | an attempt at a known head takes it off the backlog exactly when answered; after a lost reply it has taken effect and still waits at the head, after a lost request neither store nor backlog has changed |
| RetryingStorage.Idempotent | lib/relayer-engine/src/storage/storage.ts:82-150 | repeating an add, requeue or complete that took effect succeeds and changes nothing but list order |
| RetryingStorage.Congruent | lib/relayer-engine/src/storage/storage.ts:82-150 | on stores alike up to list order and schedule time, an operation that would succeed on one succeeds on the other, with like results |
| RetryingStorage.AttemptPending | lib/relayer-engine/src/storage/redisStore.ts:41-49 | each attempt at the next operation ends either not yet done, or with the effect of having run it once |
| RetryingStorage.HistoryRetries | lib/relayer-engine/src/storage/redisStore.ts:26-52 | after every history, with any losses, the operations that succeeded took effect once in order, and the next one at most once |
| RetryingStorage.RetrySafety | lib/relayer-engine/src/storage/redisStore.ts:26-52 | every history that empties the backlog, with any losses and retries, ends with the records and the queue and active membership of running each operation once |
| RetryingStorage.DrainEmptiesIffAllKnown | lib/relayer-engine/src/storage/redisStore.ts:39-52 | after any history of losses, one undisturbed drain empties the backlog exactly when every operation pushed finds what it needs in its turn |
| RetryingStorage.UndisturbedDrains | lib/relayer-engine/src/storage/redisStore.ts:41-50 | from any point of retrying, attempts that get through do every operation that waits |
| RetryingStorage.UnknownHeadBlocks | lib/relayer-engine/src/storage/storage.ts:112-116 | with a head whose key is locked, or a requeue without a record, no history of the wrapper completes an operation or changes a value or list |
| RetryingStorage.BacklogMovesIff | lib/relayer-engine/src/storage/redisStore.ts:41-49 | some history of the wrapper completes another operation exactly when the head's key is not locked and, for a requeue, has a record |
| RetryingStorage.LateRetryHandsOutTwice | lib/relayer-engine/src/storage/redisStore.ts:41-49 | for every active key: if another process takes it between a requeue whose reply was lost and the retry, it is handed out twice |
| Fleet.FleetStepRuns | lib/relayer-engine/src/storage/redisStore.ts:26-52 | with a backlog in every process, each push, harmless attempt or other event is one event of a relayer run or none, and keeps the joint invariant |
| Fleet.TryIsDrain | lib/relayer-engine/src/storage/redisStore.ts:41-49 | an attempt does to the store and its backlog just what one turn of that wrapper's drain does, and nothing to other backlogs |
| Fleet.PushWaits | lib/relayer-engine/src/storage/redisStore.ts:26-27 | a push puts its operation last in its own process's backlog, and does nothing to the store |
| Fleet.FleetRuns | lib/relayer-engine/src/storage/redisStore.ts:26-52 | every joint run in which attempts are harmless is a relayer run, so all that holds over those holds with backlogs and losses |
| Fleet.NeverInHandTwiceWithRetries | lib/relayer-engine/src/executor/executorHarness.ts:93-170 | in every such run no key is in hand twice or listed twice, and what is in hand is active |
| Fleet.TrySafeIffHarmless | lib/relayer-engine/src/storage/redisStore.ts:41-49 | after every such run, an attempt that reaches the store keeps the invariant if and only if it is harmless |
| Fleet.FreshRequeueHarmless | lib/relayer-engine/src/storage/redisStore.ts:26-29 | a requeue tried as soon as it is pushed is harmless, and amounts to giving the workflow back at once |
| Fleet.DeliverySurvivesLoss | lib/relayer-engine/src/storage/redisStore.ts:39-50 | from every such state, a delivery whose request is lost once and its reply once has its key queued if it was new, and leaves no trace in the backlog |
| Fleet.CompletionSurvivesLoss | lib/relayer-engine/src/storage/redisStore.ts:39-50 | a completion whose request is lost, and whose execution returned without it, completes its key when retried |
| Fleet.RequeueSurvivesLoss | lib/relayer-engine/src/storage/redisStore.ts:39-50 | a requeue whose reply is lost leaves its key queued, once, after the retry |
| WalletWorkers.WalletPool.constructor | lib/relayer-engine/src/executor/executorHarness.ts:199-213 | each configured chain, and no other, has an empty queue and one idle worker for each of its wallets |
| WalletWorkers.WalletPool.Execute | lib/relayer-engine/src/executor/executorHarness.ts:178-191 | an action is rejected at once if its chain has no queue, and waits behind all others of its chain if it has |
| WalletWorkers.WalletPool.Poll | lib/relayer-engine/src/executor/executorHarness.ts:236-247 | a worker starts the oldest waiting action of its own chain, or nothing |
| WalletWorkers.WalletPool.Settle | lib/relayer-engine/src/executor/executorHarness.ts:243-254 | the action in flight is settled, by result or rejection, and the worker is free again |
| WalletWorkers.StepInOrder | lib/relayer-engine/src/executor/executorHarness.ts:185-240 | every event keeps: a chain's enqueued actions are its started ones followed by its queue |
| WalletWorkers.StepAccounted | lib/relayer-engine/src/executor/executorHarness.ts:172-261 | every event keeps: what was started is in flight or settled, each once, on a worker of its own chain |
| WalletWorkers.ActionConservation | lib/relayer-engine/src/executor/executorHarness.ts:172-261 | in every run an enqueued action is in exactly one place, once, waiting, in flight or settled; actions of a chain start in the order of enqueueing; none settles twice |
| WalletWorkers.WaitingGetsSettled | lib/relayer-engine/src/executor/executorHarness.ts:232-254 | any one worker of a chain, by itself, settles its action in flight and then the waiting ones up to any given one, in order |
| WalletWorkers.ExecuteGetsSettled | lib/relayer-engine/src/executor/executorHarness.ts:178-254 | an action for a chain with a worker waits last and gets settled after all before it; one for a chain without a queue is refused and waits nowhere |
| Amounts.AdjustmentFits | solana/modules/wormhole-anchor-sdk/src/token_bridge/utils.rs:21-27 | the adjustment fits a u64 exactly for mints with at most 27 decimals |
| Amounts.UnitMeaning | solana/modules/wormhole-anchor-sdk/src/token_bridge/utils.rs:1-27 | a mint with d decimals, 8 or more, has 10^d native units to 10^8 bridged ones; one with fewer bridges unit for unit |
| Amounts.TruncationDropsDigits | solana/modules/wormhole-anchor-sdk/src/token_bridge/utils.rs:17-19 | truncation takes off exactly the digits after the eighth decimal, and panics exactly beyond 27 decimals |
| Amounts.ConversionMeaning | solana/modules/wormhole-anchor-sdk/src/token_bridge/utils.rs:4-13 | normalizing divides and denormalizing multiplies by 10^(d-8), with exactly the inputs on which each panics |
| Amounts.TruncationValues | solana/modules/wormhole-anchor-sdk/src/token_bridge/utils.rs:17-27 | with nine decimals 15 becomes 10 and 9 becomes 0, with eight 15 stays |
| Amounts.TruncationMeaning | solana/modules/wormhole-anchor-sdk/src/token_bridge/utils.rs:4-19 | for every u64 amount and up to 27 decimals truncation does not overflow, loses less than one unit, is idempotent, and normalizing then denormalizing gives exactly the truncated amount |
| Amounts.RelayerShare | solana/programs/xchain_token/src/state/redeemer_config.rs:47-49 | with fee below precision the share panics exactly when the product overflows, is the exact floor, and is below any positive amount |
| Amounts.SplittingLosesLittle | solana/programs/xchain_token/src/state/redeemer_config.rs:47-49 | splitting an amount in n parts never raises the total share and lowers it by at most n - 1 |
| XChainProgram.Program.constructor | solana/programs/xchain_token/src/lib.rs:25-25 | before initialization there is no configuration, no registered contract and no claim |
| XChainProgram.Program.Initialize | solana/programs/xchain_token/src/lib.rs:25-81 | the configuration is set once, and only with a fee below its precision |
| XChainProgram.Program.RegisterForeignContract | solana/programs/xchain_token/src/lib.rs:94-114 | registers an address for a chain, neither zero nor for chain 0 or Solana, or leaves no trace |
| XChainProgram.Program.UpdateRelayerFee | solana/programs/xchain_token/src/lib.rs:116-132 | changes fee and precision together, keeping the fee below, or leaves no trace |
| XChainProgram.Program.SendNativeTokensWithPayload | solana/programs/xchain_token/src/lib.rs:134-262 | the steps through the temporary account amount to moving the truncated amount from sender to custody with that account closed again; each failure has its error and leaves no trace |
| XChainProgram.Program.SendWrappedTokensWithPayload | solana/programs/xchain_token/src/lib.rs:404-520 | the steps amount to burning the amount from the sender with the temporary account closed again; each failure has its error and leaves no trace |
| XChainProgram.Program.PayFromTmp | solana/programs/xchain_token/src/lib.rs:328-401 | a full temporary account is paid to relayer and recipient and closed with nothing in it |
| XChainProgram.Program.RedeemNativeTransferWithPayload | solana/programs/xchain_token/src/lib.rs:264-402 | the steps amount to paying recipient and relayer out of custody and claiming the transfer; each failure has its error and leaves no trace |
| XChainProgram.Program.RedeemWrappedTransferWithPayload | solana/programs/xchain_token/src/lib.rs:522-657 | the steps amount to minting to recipient and relayer and claiming the transfer; each failure has its error and leaves no trace |
| LedgerRuns.InstructionMoves | solana/programs/xchain_token/src/lib.rs:144-656 | every instruction changes each mint's total, supply and custody by exactly what it sends and pays out, in whole units for native mints |
| LedgerRuns.InstructionInv | solana/programs/xchain_token/src/lib.rs:25-657 | every instruction, completed or aborted, keeps the ledger invariant |
| LedgerRuns.SendNativeCompletesIff | solana/programs/xchain_token/src/lib.rs:134-161 | a native send completes exactly when its accounts are there, the target chain is neither 0 nor Solana, the recipient is not zero, and what is left without the digits after the eighth is positive and held; else the first of these that fails gives the error |
| LedgerRuns.SendNativeEffect | solana/programs/xchain_token/src/lib.rs:163-250 | it then moves exactly that from the payer to custody, and logs it for the registered contract of the chain with the given recipient |
| LedgerRuns.SendWrappedCompletesIff | solana/programs/xchain_token/src/lib.rs:404-418 | a wrapped send completes exactly so for the whole amount, when supply covers it too |
| LedgerRuns.SendWrappedEffect | solana/programs/xchain_token/src/lib.rs:430-508 | it then burns exactly the amount from the payer, and logs it for the registered contract of the chain with the given recipient |
| LedgerRuns.RedeemNativeCompletesIff | solana/programs/xchain_token/src/context.rs:383-490 | a native redeem completes exactly when it is of an unclaimed Solana token transfer from the registered contract through its endpoint, to this program on Solana and the payload's recipient, whose amount fits, is in custody, and leaves a payer for somebody else able to be paid |
| LedgerRuns.RedeemWrappedCompletesIff | solana/programs/xchain_token/src/context.rs:688-817 | a wrapped redeem completes exactly so for tokens of other chains, when the supply has room |
| LedgerRuns.RedeemNativeRefusals | solana/programs/xchain_token/src/lib.rs:320-361 | with everything else in order, exactly when a native redeem panics, lacks custody, or finds that the relayer has no account |
| LedgerRuns.RedeemWrappedRefusals | solana/programs/xchain_token/src/lib.rs:557-616 | with everything else in order, exactly when a wrapped redeem panics, finds no room in the supply, or finds that the relayer has no account |
| LedgerRuns.RedeemLogs | solana/programs/xchain_token/src/lib.rs:264-402 | a completed redeem claims just its transfer's chain, emitter and sequence, logs one payout to the payer as relayer, and changes supply only for wrapped tokens |
| LedgerRuns.ConfigurationStored | solana/programs/xchain_token/src/lib.rs:25-132 | each instruction on the configuration completes exactly under its owner and range checks, and stores the fee, precision, address and endpoint it was given |
| LedgerRuns.TokensConserved | solana/programs/xchain_token/src/lib.rs:144-656 | after every sequence of instructions the temporary account is gone, native totals are unchanged, wrapped supply has moved by redeemed less sent, and native custody is sent less redeemed and a multiple of the unit |
| LedgerRuns.ConfigurationSound | solana/programs/xchain_token/src/lib.rs:30-128 | after every sequence of instructions the fee is below its precision, and every registered contract is non-zero and for a chain other than 0 and Solana |
| LedgerRuns.BalancesFit | solana/programs/xchain_token/src/lib.rs:134-657 | no balance ever exceeds a u64, though no instruction checks for it when crediting |
| LedgerRuns.RedeemJustified | solana/programs/xchain_token/src/context.rs:399-472 | a redeem that completes is of an unclaimed transfer from the registered contract of another chain, which is not zero, to this program on Solana, in the transfer's own mint and amount |
| LedgerRuns.PayoutAdded | solana/programs/xchain_token/src/lib.rs:275-278 | a redeem adds one payout, and payouts stay exactly the claimed transfers |
| LedgerRuns.PayoutMade | solana/programs/xchain_token/src/context.rs:399-406 | every payout of a run was made by one of its instructions, a redeem of just that transfer, from the contract registered for its chain at that moment |
| LedgerRuns.RedeemedAtMostOnce | solana/programs/xchain_token/src/lib.rs:275-278 | in every sequence of instructions a transfer is paid out once if claimed and never otherwise, and every payout was made by a redeem of a transfer from a contract registered then |
| LedgerRuns.RedeemPays | solana/programs/xchain_token/src/lib.rs:328-390 | a redeem credits only the payload's recipient and the paying relayer, the relayer with the floor of his fee and none for his own transfer, and a transfer passes just one of the native and wrapped guards |
| LedgerRuns.RelayedIffProductFits | solana/programs/xchain_token/src/lib.rs:328-374 | a relayer can redeem what the recipient could exactly when amount times fee fits a u64 |
| LedgerRuns.RelayedRedeemCanFail | solana/programs/xchain_token/src/state/redeemer_config.rs:47-49 | a transfer of 2^63 at a fee of two thirds: the recipient can redeem it and a relayer gets a panic |
| LedgerRuns.DustStaysWithSender | solana/programs/xchain_token/src/lib.rs:141-182 | a native send takes less than one unit under the amount asked, logs just what it takes, and the other side's amount converts back to just that |
| Bytes.BeReads | solana/modules/wormhole-anchor-sdk/src/token_bridge/message.rs:24-70 | reading back the last n big-endian bytes of an integer gives it modulo 256^n |
| Bytes.LeIsReversedBe | solana/modules/wormhole-anchor-sdk/src/wormhole/accounts.rs:279-292 | the header's little-endian integers are big-endian ones read backwards |
| Bytes.BeShift | injective/contracts/src/utils.rs:48-48 | shifting a big-endian integer right by whole bytes reads what is left without the last bytes |
| Messages.PayloadsAgree | injective/contracts/src/state.rs:68-86 | bytes written by the Solana program are read on Injective as the same recipient, and back exactly for identifier 1 |
| Messages.PayloadFailures | solana/programs/xchain_token/src/message.rs:16-39 | which bytes each reader refuses and on which it panics: another first byte than 1 only on Solana, fewer than 33 bytes on both |
| Messages.ReadersAgreeIff | solana/programs/xchain_token/src/message.rs:16-39 | on any bytes the two readers agree exactly when there are 33 and the first is the identifier, and each reader's result writes back as the bytes it read |
| Messages.TransferReads | solana/modules/wormhole-anchor-sdk/src/token_bridge/message.rs:24-70 | every transfer is recovered from its 133 bytes |
| Messages.TransferWrites | solana/modules/wormhole-anchor-sdk/src/token_bridge/message.rs:24-70 | every 133 bytes that parse are the bytes of what they parsed to |
| Messages.MetaReads | solana/modules/wormhole-anchor-sdk/src/wormhole/message.rs:3-31 | every header is recovered from its 88 bytes |
| Messages.MetaWrites | solana/modules/wormhole-anchor-sdk/src/wormhole/message.rs:3-31 | every 88 bytes are the bytes of the header they parse to |
| Messages.BodyReads | solana/modules/wormhole-anchor-sdk/src/token_bridge/accounts.rs:253-260 | transfer and recipient are recovered from the payload, whatever follows them |
| Messages.PostedReads | solana/modules/wormhole-anchor-sdk/src/wormhole/accounts.rs:279-331 | parsing recovers every header field, the transfer and the recipient, for all values and all three discriminators |
| Messages.PostedWrites | solana/modules/wormhole-anchor-sdk/src/wormhole/accounts.rs:279-331 | an account that parses is the bytes of what it parsed to, so nothing else is accepted |
| Messages.MessageRoundTrip | solana/modules/wormhole-anchor-sdk/src/wormhole/accounts.rs:279-331 | a message with any 256-bit amount parses to its fields, the amount modulo 2^64 |
| Messages.OffsetsAgree | solana/modules/wormhole-anchor-sdk/src/wormhole/constants.rs:7-18 | in every account that parses, each field stands at the offset declared for it |
| Messages.TransferOffsets | solana/modules/wormhole-anchor-sdk/src/token_bridge/message.rs:24-70 | in every account that parses, the transfer's fields and the recipient stand at fixed offsets after the bytes 3 and 1, integers big-endian |
| Messages.BodyFailures | solana/modules/wormhole-anchor-sdk/src/token_bridge/accounts.rs:253-260 | exactly which payloads are refused and which panic, the transfer being looked at before the message |
| Messages.PostedFailures | solana/modules/wormhole-anchor-sdk/src/wormhole/accounts.rs:279-331 | exactly which accounts are refused and which panic, by discriminator, stated size and payload |
| Messages.MagicMeaning | solana/modules/wormhole-anchor-sdk/src/wormhole/accounts.rs:312-331 | an account is accepted only if it starts with the text vaa, msg or msu |
| Addresses.ShiftedReadZero | injective/contracts/src/utils.rs:37-48 | the shifted 128-bit read is zero exactly when the first twelve bytes are |
| Addresses.AddressRead | injective/contracts/src/utils.rs:45-52 | any 32 bytes read as their last 20 exactly when the first twelve are zero, else as all 32; fewer panic |
| Addresses.PaddingMeaning | injective/contracts/src/utils.rs:73-78 | padding puts zeros in front up to 32 bytes, and panics exactly on longer addresses |
| Addresses.AddressRoundTrip | injective/contracts/src/utils.rs:45-78 | reading a padded address gives it back exactly for 20-byte addresses and for 32-byte ones whose first twelve bytes are not all zero |

## Left out

- InMemoryStore.InMemory.BlMove: does not model the wait for an element; the list is looked at once.
- InMemoryStore.InMemoryMulti.Exec: does not model that other callers may run between the operations' promises; a batch is one step.
- WorkflowStorage.DefaultStorage.RequeueWorkflow: the counter is an object's field here and a module-wide map in the source, one for each process.
- StagingArea.CounterCountsSuccesses: is about clients that use nothing but the counter's key; StagingArea.CommitIff says what holds with others about.
- RelayerRuns.NeverInHandTwice: is about runs in which late retries are harmless, as is Fleet.NeverInHandTwiceWithRetries; beyond them it is false, and Fleet.TrySafeIffHarmless gives the exact condition for each attempt.
- RelayerRuns.AttemptsBounded: does not model a process that restarts and forgets its requeue counter.
- Relayer.StepInv: requires well-named plugins for deliveries; a plugin named `__stagingArea`, or one with a slash in its name, can share keys with others.
- RetryingStorage.RetrySafety: starts from a store in which no operation's own key is locked, as every store of a relayer run is (Relayer.RunInv), and is about one wrapper; many at once are in Fleet.FleetRuns.
- Relayer.Executor.Succeed: is the write that reaches the store; the wrapper that returns without it is in `Fleet.dfy`.
- RetryingStorage.DefaultRedisWrapper.ExecuteBacklog: stops where its script of attempts ends, as if the connection stayed down; a drain that never ends is not modelled.
- XChainProgram.Program.SendNativeTokensWithPayload: does not say which account constraint failed; all give `ConstraintViolated`, and every failing token or bridge call gives `TokenError`.
- XChainProgram.Program.SendWrappedTokensWithPayload: does not say which account constraint failed, as above.
- XChainProgram.Program.RedeemNativeTransferWithPayload: does not say which account constraint failed; parsing of the posted account is in `Messages.dfy` and not joined to the ledger, where keys and addresses are numbers.
- XChainProgram.Program.RedeemWrappedTransferWithPayload: leaves out the same.
- Messages.PostedReads: readers that copy a slice into a local array, and writers that append to a stream, are functions on byte sequences here.
- Sleeps, timers, metrics, logging and configuration loading; the endless loops are runs of events.
- Real Redis connections and the meaning of `exec(true)` there; hashes, `rPop` and `lIndex` of the in-memory store.
- `handleStorageStartupConfig`: it reads the active list as a hash, which nothing writes.
- Keys named like members of JavaScript's object prototype, and values that `JSON.stringify` cannot encode.
- Signatures, derived addresses, rent, delegates and approvals on Solana, closing a native SOL account, who may call fee updates, and the outbound message beyond its log entry.
- Bridge users other than this program, which would also move custody.
- The Injective contract's message building and queries, its other readers and string helpers; Algorand; the EVM and Solana clients; scripts.
