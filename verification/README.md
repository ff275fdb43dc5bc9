# A verified model of the storage version migrator

The migrator rewrites every object of a resource so that the API server stores it in the current
storage version. This project models its three controllers around one abstract API server, and
proves that what they promise holds over every run: with other clients writing at the same time,
calls that fail or whose answers are lost, expired list tokens, lost saves, crashes and any
scheduling.

## Structure

| file | models |
|---|---|
| `ApiServer.dfy` | the objects of one resource: every past revision, optimistic-concurrency writes, lists in chunks over a snapshot |
| `Errors.dfy` | error classes and the decision to retry (`pkg/migrator/errors.go`) |
| `ItemMigration.dfy`, `ItemMigrator.dfy` | `migrateOneItem` and `try`, as an automaton over calls and as the loop it is |
| `WorkerPool.dfy` | `migrateList` and `worker`: feeder, workers, closer and collector over two unbuffered channels |
| `Runner.dfy`, `RunTermination.dfy`, `RunMigrator.dfy` | `Run`, `save` and `load`, as a machine and as loops; completeness, resumption, termination |
| `Migrations.dfy`, `Lifecycle.dfy`, `KubeMigrator.dfy`, `ControllerRuns.dfy` | migration objects, `updateStatus`, `processOne`, `process`, and the controller's runs over all migrations |
| `Naming.dfy`, `StorageStates.dfy`, `DiscoveryPass.dfy`, `TriggerSteps.dfy`, `Trigger.dfy` | the two routines of the trigger, its loop, and the `StorageState` they keep |
| `EndToEnd.dfy`, `TrustIsNeeded.dfy` | all of it at once: the trigger, the migration controller and other clients, interleaved call by call; and what the end-to-end claim needs |
| `HandlerRuns.dfy`, `SelectLoop.dfy`, `LoopRuns.dfy` | the handlers and the loop of the trigger, and `processOne`, as runs of that whole |
| `Discover.dfy` | `FindMigratableResources` |

Methods of the source that change state in place are methods of classes here (`Client`,
`ProgressTracker`, `Migrator`, `Controller`, `MigrationTrigger`), each proved equal to a function
of the old state; the theorems are about these functions. A script decides what surrounds each
call: what others do before it, and whether it is answered, fails without effect, or takes effect
while its answer is lost. A script that ends early models the death of the process; the theorems
are for all scripts.

Revisions are positions in the history of the server, and an object's key is the rank of its
namespace and name in the order in which the server lists. A write that the server accepts gives
the object a fresh revision and encodes it in the active version. An object *lags* if it is
stored in another version.

## What is assumed

- The server behaves as the Kubernetes API Conventions (section "Concurrency Control and
  Consistency") and the Kubernetes API Concepts (section "Retrieving large results sets in
  chunks") say: a continue token goes on from its key in its snapshot, and a token that comes
  with an expiry error goes on from the same key in the latest state.
- On calls about a single object, only the server itself reports NotFound; a fault in between does
  not. (`Errors.Fault`)
- The end-to-end claim holds in a `Mode` in which the trigger can rely on seven things: its two
  routines are serial; the storage version changes only as a discovery begins; the state can be
  read; a stale state can be deleted; the cache shows every migration when a pass selects those
  to delete; the deletions succeed; and a pass gets as far as updating the state. `TruthNeedsTrust`
  proves that it holds over all runs exactly under these seven: for each there is a run in which
  everything else can be relied on and the claim fails. The failures concerned are those that
  `pkg/trigger/discovery_handler.go:191-217` only logs, an update that gives up after six attempts
  (`pkg/trigger/controller.go:36-41`) or is cut off, and a cache that is behind
  (`pkg/trigger/discovery_handler.go:85-88`). A migration that another client deletes before the
  pass does makes the deletion of the pass fail. That the routines are serial is proved of the
  select loop in `SelectLoop`.
- What is assumed in every mode: discovered hashes are not empty, names of migrations are never
  reused, and nobody else writes known conditions or storage states.
- Contracts of the trigger that need an up-to-date cache say `UpToDate`. The runs of the migration
  controller are over any cache; which of its picks are safe is proved (`Prudent`).
- `EndToEnd` uses the default concurrency of one worker (`pkg/migrator/core.go:43`); everything
  about `Run` alone is for every concurrency of at least one.

## Where the code and its comments differ

- `pkg/trigger/migration_handler.go:74-76` says that the migration controller has tried its best
  before it marks a migration as failed, and list and item errors are indeed retried. But the GET
  of `load` (`pkg/migrator/core.go:88-91`) is made once: one transient fault of it ends `Run`, and
  the migration is recorded as failed for good (`TransientLoadFailsMigration`). The same goes for an
  expiry error without a continue token. `RunFailsForAReason` proves that a run fails for a cause
  that a retry could remove exactly in these two cases.
- `pkg/controller/kubemigrator.go:116-119` says that `Run` returns an error if the migration object
  is deleted. It does not: `pkg/migrator/core.go:137-140` only logs a failed save. The model follows
  the code, and `SavesNeverEndARun` states it.
- `pkg/initializer/discover.go:59-62` lists the exclusion of resources that cannot be listed and
  updated after that of resources with one group version. The code applies it first, so that a
  resource with two group versions of which one cannot be updated is left out. It counts the
  surviving entries of a name, so a name listed twice in one group version counts twice.
- `updateStatus` returns `m` and an error in one statement (`pkg/controller/kubemigrator.go:149`),
  in which the closure reassigns `m`; the language leaves open which `m` is read. The model returns
  the refreshed one. What is proved of the final update holds for any object in hand that was read
  from the server.
- `pkg/migrator/core.go:153-156` and `pkg/migrator/core.go:187-191` listen for a cancelled context.
  `CancellationIsIdle` proves that these branches are never taken.

## Model

| member | source | states |
|---|---|---|
| Errors.CanRetry | pkg/migrator/errors.go:57-93 | of all errors, exactly two kinds stop a migration: an unsupported method, and an error that calls itself permanent and belongs to no transient class |
| ApiServer.ApplyAllIsSound | pkg/migrator/core.go:71-85 | the writes of other clients never make an object lag, never touch a lagging object without updating it, and keep revisions truthful |
| ApiServer.RewriteKeepsContents | pkg/migrator/core.go:232-247 | a PUT of content and revision that were read together changes no content |
| ApiServer.PageCovers | pkg/migrator/core.go:93-98 | a page listed at a safe cursor holds faithful copies without repetition, and every lagging object is on it or after its next cursor; after the last page none is left |
| ItemMigration.PutIsSound | pkg/migrator/core.go:243-247 | a PUT with whatever outcome keeps all contents, and after nil or NotFound the object does not lag |
| ItemMigration.ItemCallIsSound | pkg/migrator/core.go:205-254 | every call of the loop keeps its invariant, including the reuse of the stale list item after a PUT that failed without a conflict |
| ItemMigration.ItemRunIsSound | pkg/migrator/core.go:196-230 | wherever it is cut off or ends, erasing the migrator's writes leaves exactly the contents that the other writers produce, and its end means what it says |
| ItemMigration.RetryBound | pkg/migrator/core.go:205-230 | b faults and concurrent writes to the object cost at most 2b + 2 tries |
| ItemMigration.RetryBoundIsTight | pkg/migrator/core.go:205-247 | for every out-of-date item and every b there are b faults that cost exactly 2b + 2 tries |
| ItemMigration.TriesAreBounded | pkg/migrator/core.go:205-254 | the measure behind the bound, from any state of the loop |
| ItemMigration.ItemRunReturns | pkg/migrator/core.go:205-230 | with as many calls as its troubles call for, the loop returns |
| ItemMigration.CallEndsExactly | pkg/migrator/core.go:205-247 | the loop ends with an error exactly at a fault that cannot be retried, and with that error; with nil exactly when the server stored the object sent or has none; and it asks for a GET exactly after a failed GET or a conflict |
| ItemMigration.ItemIsMigrated | pkg/migrator/core.go:196-230 | with faults that can be retried and calls enough, the object ends up current or gone, with the contents that the others gave it |
| ItemMigrator.Client.Try | pkg/migrator/core.go:235-254 | one try makes the automaton's calls; it asks for a GET next exactly if its GET failed or its PUT met a conflict |
| ItemMigrator.Client.MigrateOneItem | pkg/migrator/core.go:196-230 | the loop is the automaton; nil means that the object no longer lags, an error that it must not be retried; contents are those of the other writers |
| WorkerPool.LaunchIsOrderly | pkg/migrator/core.go:144-173 | the protocol starts orderly with any positive number of workers |
| WorkerPool.PoolStepIsOrderly | pkg/migrator/core.go:144-194 | every move of every goroutine keeps it: each fed item is in exactly one place, errors are never lost or doubled, channels are closed once and in order, nothing is sent on a closed channel |
| WorkerPool.ReturnIsExact | pkg/migrator/core.go:175-179 | on return each item was handled exactly once, the collected errors are exactly the multiset of the items' errors, and every worker has ended |
| WorkerPool.CancellationIsIdle | pkg/migrator/core.go:151-157 | the branches on a done context are never enabled |
| WorkerPool.NeverStuck | pkg/migrator/core.go:144-194 | before the return some goroutine can always move |
| WorkerPool.PoolStepIsTruthful | pkg/migrator/core.go:182-194 | every move keeps all copies in the workers' hands faithful and the record of finished items true, whatever others write |
| WorkerPool.NilMeansMigrated | pkg/migrator/core.go:175-179 | an empty error list means that no object of the page lags |
| WorkerPool.ErrorsAreFinal | pkg/migrator/core.go:211-228 | every collected error is one that cannot be retried |
| WorkerPool.PoolDescends | pkg/migrator/core.go:144-194 | every move lowers a measure, except for what faults and the writes of others add |
| Runner.StepIsSafe | pkg/migrator/core.go:87-142 | every step keeps both cursors, the running and the saved one, behind all lagging objects |
| Runner.SavesNeverEndARun | pkg/migrator/core.go:117-140 | no failure of a save ends the run, not even when the migration object is gone |
| Runner.ExecIsSafe | pkg/migrator/core.go:87-142 | wherever a run is cut off, its state is safe and the contents are those of the other writers alone |
| Runner.RunIsComplete | pkg/migrator/core.go:87-142 | a run from the empty token that returns nil has migrated every object |
| Runner.RunFailsForAReason | pkg/migrator/core.go:87-142 | a run fails for a cause that a retry could remove if and only if its last step was a failed GET in load, or an expiry without a token; no other transient error ends it |
| Runner.TransientLoadEndsRun | pkg/migrator/core.go:88-91 | in any state, one transient fault of the GET in load ends the run with that fault |
| Runner.TokenlessExpiryEndsRun | pkg/migrator/core.go:112-116 | an expiry without a token ends the run |
| Runner.ListErrorsEndRunExactlyIf | pkg/migrator/core.go:99-111 | a list error ends the run if and only if the resource does not exist or cannot be listed, or the error calls itself permanent and is no network trouble; on any other the run lists again from the same token |
| Runner.ExpiryGoesOn | pkg/migrator/core.go:112-123 | an expiry with a token goes on from the same cursor over the latest state, and saves it |
| Runner.ListServesAChunk | pkg/migrator/core.go:93-98 | a list asks for five hundred objects, and all that it is served are migrated |
| Runner.RunStoresItsCursor | pkg/migrator/core.go:117-140 | if the calls of its saves go through, the run never lists at a token that is not stored |
| Runner.GentleRunSucceeds | pkg/migrator/core.go:87-142 | a run in which load succeeds, expiries bring tokens and all other errors can be retried does not fail: if it returns, it returns nil with every object current |
| Runner.GoodSaveStores | pkg/migrator/progress.go:46-56 | a save whose calls go through stores the token and nothing else, and returns nil |
| Runner.SaveSurvivesConflicts | pkg/migrator/progress.go:46-56 | fewer conflicts than attempts do not keep a save from storing the token, and as many do |
| Runner.SaveSurvivesFour | pkg/migrator/progress.go:46-56 | the attempts are five: any four conflicts are survived |
| Runner.ResumptionIsSafe | pkg/migrator/core.go:112-140 | over any sequence of invocations cut off anywhere, with lost and failed saves: nothing at or before the saved cursor lags, and a nil return means full migration |
| RunTermination.ListDescends | pkg/migrator/core.go:93-98 | migrating a page and saving its cursor is paid for by the keys that the page uses up |
| RunTermination.ExpiryKeepsKeys | pkg/migrator/core.go:257-267 | the token of an expiry error never has more keys ahead than the expired one |
| RunTermination.StepDescends | pkg/migrator/core.go:92-141 | every step lowers a measure over the keys left, the page at hand and the save, except for what trouble adds |
| RunTermination.RunTerminates | pkg/migrator/core.go:92-141 | the steps of a run are bounded by the keys of the store and the amount of trouble, and an unfinished run can always move |
| RunTermination.GentleRunMigratesAll | pkg/migrator/core.go:87-142 | given an explicit number of steps, a run in which nothing lasting goes wrong returns nil and has migrated every object |
| RunMigrator.ProgressTracker.Save | pkg/migrator/progress.go:46-56 | the retry loop is the function of which it is proved that it stores the token; nil means that it is stored, and the run goes on in any case |
| RunMigrator.ProgressTracker.Load | pkg/migrator/progress.go:58-64 | the token of the stored object, or the error |
| RunMigrator.Migrator.MigrateList | pkg/migrator/core.go:144-180 | under every schedule, the pool from its launch to its return |
| RunMigrator.Migrator.Run | pkg/migrator/core.go:87-142 | the method is the machine; from a safe state its saved cursor stays safe, nil means that every object is current, and list and item errors end it only if no retry removes them |
| Lifecycle.RewriteTwice | pkg/controller/kubemigrator.go:150-170 | rewriting the conditions with a and then b is rewriting them with b |
| Lifecycle.RewriteDecidesStatus | pkg/controller/indexer.go:39-51 | the rewritten conditions put the migration in the class of the new condition alone |
| Migrations.OneMoreCondition | pkg/controller/indexer.go:39-51 | only conditions with status True count, completion counts most, and no further condition undoes it |
| Lifecycle.StatusRunConverges | pkg/controller/kubemigrator.go:142-181 | however the attempts end, the saved token is untouched and no foreign condition is lost, doubled or reordered; on success exactly one known condition follows them, with the time of the successful attempt |
| Lifecycle.SecondAttemptSucceeds | pkg/controller/kubemigrator.go:171-179 | without faults an outdated object costs one conflict and one refresh, and the second attempt succeeds |
| Lifecycle.StatusSurvivesFailures | pkg/controller/kubemigrator.go:142-181 | fewer failed attempts than there are do not keep the condition from being recorded; if all fail, the update times out |
| Lifecycle.StatusSurvivesFive | pkg/controller/kubemigrator.go:143-148 | the attempts are six: any five failures are survived |
| Lifecycle.StatusRunIntroduces | pkg/controller/kubemigrator.go:149-180 | no known condition but the requested one ever becomes true |
| Lifecycle.ExecMovesOnlyToken | pkg/migrator/progress.go:46-56 | over a whole run, saves change nothing of the migration object but its token |
| Lifecycle.JudgedKeepsToken | pkg/controller/kubemigrator.go:120-136 | the last saved token survives the final status update, although that starts from an object read before the run |
| Lifecycle.ProcessOneIsHonest | pkg/controller/kubemigrator.go:94-136 | Succeeded is newly recorded only after a run that returned nil, Failed only after one that did not, and the saved cursor stays safe, whatever is cut off or fails |
| Lifecycle.TransientLoadFailsMigration | pkg/controller/kubemigrator.go:112-136 | one transient fault in load, among calls that all succeed, leaves the migration recorded as failed and completed |
| Lifecycle.CalmCallRecords | pkg/controller/kubemigrator.go:94-136 | without faults, a call that the process survives runs the migration and records its verdict |
| Lifecycle.UnmarkedRunsDoNotStart | pkg/controller/kubemigrator.go:109-113 | if all six attempts to mark the migration as running fail, nothing is migrated |
| Lifecycle.ResourceIsKept | pkg/controller/kubemigrator.go:94-136 | no call changes what a migration is a migration of |
| Lifecycle.CompletedStaysCompleted | pkg/controller/kubemigrator.go:102-108 | a completed migration is not run again and stays completed |
| KubeMigrator.Controller.NewConditions | pkg/controller/kubemigrator.go:150-169 | the loop computes the rewritten conditions |
| KubeMigrator.Controller.UpdateStatus | pkg/controller/kubemigrator.go:142-181 | the retry loop is the function of which convergence is proved |
| KubeMigrator.Controller.ProcessOne | pkg/controller/kubemigrator.go:94-136 | the whole sequence is the function of which honesty is proved; a run that returned nil leaves every object current |
| ControllerRuns.Process | pkg/controller/kubemigrator.go:66-92 | of what the cache shows, running migrations come first; nothing happens only if none is incomplete |
| ControllerRuns.PickIsSafeExactlyIfPrudent | pkg/controller/kubemigrator.go:66-92 | a pick keeps at most one migration running, however its calls end, if and only if no other migration is running on the server or there is nothing to run |
| ControllerRuns.UpToDatePickIsPrudent | pkg/controller/kubemigrator.go:71-79 | with an up-to-date cache every pick is such |
| ControllerRuns.OutdatedCacheRunsTwo | pkg/controller/kubemigrator.go:71-92 | from any two pending migrations, a lost answer and a cache that is behind lead to two running ones |
| ControllerRuns.EventIsSafe | pkg/controller/kubemigrator.go:66-136 | every call of process, creation, deletion and write keeps all saved cursors safe, each for the objects of its own resource, and at most one migration running if the pick is prudent |
| ControllerRuns.HistoryIsSafe | pkg/controller/kubemigrator.go:66-136 | over every history, with any cache, every migration can be resumed safely; over every history of prudent picks at most one is running |
| ControllerRuns.CompletionIsForGood | pkg/controller/kubemigrator.go:102-108 | over every history a completed migration stays completed while it exists, and its name never comes back |
| ControllerRuns.EachCallCompletesOne | pkg/controller/kubemigrator.go:66-136 | a call that recorded its verdict lowers the number of incomplete migrations by exactly one |
| ControllerRuns.CalmCallReturns | pkg/controller/kubemigrator.go:94-136 | without faults, a call with an explicit number of moves, in the keys of the store and the writes of others, returns with its verdict recorded |
| ControllerRuns.CalmCallSucceeds | pkg/controller/kubemigrator.go:94-136 | if moreover the lists are served, the migration is recorded as succeeded and every object is current |
| ControllerRuns.SomeCallReturns | pkg/controller/kubemigrator.go:94-136 | for every incomplete migration there is such a call |
| ControllerRuns.CallsDrainTheBoard | pkg/controller/kubemigrator.go:66-136 | n such calls leave exactly n fewer incomplete migrations, until none remain |
| Naming.NamesAgree | pkg/trigger/migration_handler.go:33-40 | for resource names without dots, equal state names, equal index keys and equal group and resource are the same |
| Naming.DotsConfuseNames | pkg/controller/indexer.go:57-68 | every dotted resource name in a group shares both its names with another resource |
| Naming.NamesAreSharedExactlyIfDotted | pkg/controller/indexer.go:57-68 | a resource in a group shares both its names with another one if and only if its resource name, or its group before the last character, holds a dot |
| StorageStates.UpdateHappensOnce | pkg/trigger/discovery_handler.go:143-179 | whatever attempts fail or are lost, the state is the initial one, the created blank one or the result of a single update; on success the last |
| StorageStates.MarkHappensOnce | pkg/trigger/migration_handler.go:42-66 | a mark changes nothing or collapses the hashes to the current one; on success the latter; a missing state is no error |
| StorageStates.UpdateSurvivesMisses | pkg/trigger/discovery_handler.go:143-179 | an update is stored, once, if fewer attempts fail than it has, at whichever call and with or without effect; if all fail, it gives up |
| StorageStates.MarkSurvivesMisses | pkg/trigger/migration_handler.go:42-66 | a mark collapses the hashes to the current one and changes nothing else, if fewer attempts fail than it has; if all fail, it gives up |
| StorageStates.FiveMissesAreSurvived | pkg/trigger/controller.go:36-41 | the attempts are six: updates and marks survive any five failures |
| StorageStates.HashesAreTheRecord | pkg/trigger/discovery_handler.go:163-170 | over every history the persisted hashes are a base followed by exactly the changes since; the base is the current hash if a success was marked last, and Unknown if the state was created |
| StorageStates.MigratedMeansMarked | pkg/trigger/discovery_handler.go:219-224 | a resource counts as migrated if and only if a success was marked after the last creation and change; the last hash is the current one unless nothing is known |
| StorageStates.PunctualStateIsKept | pkg/trigger/discovery_handler.go:181-207 | with gaps of at most two periods a state is never deleted, its hashes only grow at their end, and heartbeats never decrease |
| StorageStates.GapStartsOver | pkg/trigger/discovery_handler.go:181-207 | after a longer gap a pass leaves just Unknown and the discovered hash; after no other |
| StorageStates.RecordableIsWellKept | pkg/trigger/discovery_handler.go:163-170 | a state that some history leaves ends with the current hash unless nothing is known |
| DiscoveryPass.PassAlwaysAllows | pkg/trigger/discovery_handler.go:185-218 | under any faults and with any cache a pass changes the state only as a single update or a restart allows, and launches at most one migration, under a fresh name |
| DiscoveryPass.PassIsSound | pkg/trigger/discovery_handler.go:185-218 | with an up-to-date cache other resources' migrations are left alone whatever fails, and without faults a pass has its full effect |
| DiscoveryPass.FailedOpeningGivesUp | pkg/trigger/discovery_handler.go:191-207 | a pass that cannot read the state, or cannot delete a stale one, ends there |
| DiscoveryPass.FailedRelaunchStillUpdates | pkg/trigger/discovery_handler.go:209-217 | a relaunch stops at its first error, deleting and launching nothing more, and the state is updated all the same |
| Trigger.MigrationTrigger.UpdateStorageState | pkg/trigger/discovery_handler.go:143-179 | the retry loop is the function of which a single effect is proved, and touches no other state |
| Trigger.MigrationTrigger.MarkStorageStateSucceeded | pkg/trigger/migration_handler.go:42-66 | the same for the mark |
| Trigger.MigrationTrigger.ProcessQueue | pkg/trigger/migration_handler.go:68-104 | only a migration that the server shows as succeeded leads to a mark, of the state of its own resource, and such a migration always does unless it cannot be read |
| Trigger.MigrationTrigger.CleanMigrations | pkg/trigger/discovery_handler.go:84-105 | with an up-to-date cache exactly the resource's migrations are deleted, or some of them up to the first error |
| Trigger.MigrationTrigger.RelaunchMigration | pkg/trigger/discovery_handler.go:121-127 | on success exactly one fresh migration of the resource exists, and those of others are untouched whatever happens |
| Trigger.MigrationTrigger.ProcessDiscoveryResource | pkg/trigger/discovery_handler.go:185-218 | under all faults the method is the function `PassRun`; the state is changed only as a single update or a restart allows, and without faults the pass has its full effect |
| Trigger.MigrationTrigger.ProcessNext | pkg/trigger/discovery_handler.go:57-72 | one resource of a pass: under all faults one step of the function, and without faults all that a pass is for |
| Trigger.MigrationTrigger.ProcessDiscovery | pkg/trigger/discovery_handler.go:57-72 | a step for every listed resource, in order; without faults every one carries the discovered hash and the time, has one new migration if it was not in order and keeps its migrations if it was, and is not stuck, while all other resources are left alone |
| TriggerSteps.MustRelaunchExactlyIf | pkg/trigger/discovery_handler.go:196-200 | a pass relaunches if and only if the state is missing, older than two periods, of another hash, or neither migrated nor under way |
| TriggerSteps.CalmPassSteps | pkg/trigger/discovery_handler.go:185-218 | the same of the steps of a whole pass |
| TriggerSteps.SuccessIsMarked | pkg/trigger/migration_handler.go:42-104 | an item that names a succeeded migration leaves just the current hash persisted, whatever five attempts at the mark fail |
| TriggerSteps.QuietLoopWorks | pkg/trigger/controller.go:167-187 | through any sequence of turns without faults, every tick discovers all that it lists and every item of a succeeded migration marks its resource |
| Trigger.MigrationTrigger.Run | pkg/trigger/controller.go:167-187 | the turns of the loop are the handlers of its stimuli, in order; without faults each does its work; through all faults every storage state stays one that some history of updates and marks leaves |
| TriggerSteps.PassUnsticks | pkg/trigger/discovery_handler.go:185-242 | after the full effect the resource is migrated or a migration is pending or running; after a relaunch exactly one exists |
| TriggerSteps.OthersAreUntouched | pkg/trigger/discovery_handler.go:84-105 | a pass over one resource cannot make another stuck, nor its cache outdated |
| HandlerRuns.PassIsARun | pkg/trigger/discovery_handler.go:185-218 | whatever faults it meets, wherever it is cut off and whatever its cache shows, a pass of the handler is one of the end-to-end runs |
| HandlerRuns.PassAsTheHandlerDoes | pkg/trigger/discovery_handler.go:185-218 | a pass without faults and with an up-to-date cache is a run in every mode, with the very migrations and state that the handler leaves |
| HandlerRuns.MarkIsARun | pkg/trigger/migration_handler.go:42-66 | so is every way in which a mark can go |
| HandlerRuns.CallIsARun | pkg/controller/kubemigrator.go:94-136 | so is every call of processOne, whatever faults it meets and wherever it is cut off |
| SelectLoop.LoopIsSerial | pkg/trigger/controller.go:167-187 | every order in which the select loop can make its calls is serial |
| LoopRuns.LoopRunsInOrder | pkg/trigger/controller.go:167-187 | the turns that the method takes over a resource, whatever faults they meet, leave what some end-to-end run leaves, in an order of which the loop is proved serial |
| SelectLoop.LoopIsTrue | pkg/trigger/controller.go:145-187 | the end-to-end claim holds of the loop without assuming that it is serial |
| EndToEnd.EventKeeps | pkg/trigger/controller.go:136-187 | every single call of every party keeps the end-to-end invariant |
| EndToEnd.TrustedRunsAreTrue | pkg/trigger/controller.go:145-187 | in every state of every trusted run between passes: without Unknown the persisted hashes name every version in the store, and a succeeded migration means that all objects are current |
| TrustIsNeeded.InterleavingBreaksTruth | pkg/trigger/controller.go:145-166 | the interleaving 2, b, c, d, 3 ends with a state that denies an object stored in the old version |
| TrustIsNeeded.SilentUpgradeBreaksTruth | pkg/trigger/controller.go:145-166 | a version that changes between discoveries goes unrecorded |
| TrustIsNeeded.FailedGetBreaksTruth | pkg/trigger/discovery_handler.go:191-195 | a failed read of the state ends the pass, and the new version goes unrecorded |
| TrustIsNeeded.FailedDropBreaksTruth | pkg/trigger/discovery_handler.go:202-207 | a stale state that cannot be deleted ends the pass, with the same effect |
| TrustIsNeeded.StaleCacheBreaksTruth | pkg/trigger/discovery_handler.go:84-90 | a success that the cache misses survives the change of the version and is no longer true |
| TrustIsNeeded.FailedCleanBreaksTruth | pkg/trigger/discovery_handler.go:209-217 | a failed deletion that is only logged leaves an old success that is no longer true |
| TrustIsNeeded.FailedUpdateBreaksTruth | pkg/trigger/discovery_handler.go:143-179 | an update that gives up leaves hashes that miss the new version |
| TrustIsNeeded.TruthNeedsTrust | pkg/trigger/controller.go:145-187 | the claim holds over all runs if and only if the trigger can rely on all seven things |
| Discover.FindCustomGroups | pkg/initializer/discover.go:127-137 | exactly the groups of the definitions, or the error |
| Discover.FindAggregatedGroups | pkg/initializer/discover.go:139-151 | exactly the groups behind which a service stands, or the error |
| Discover.CollectGroupVersions | pkg/initializer/discover.go:84-114 | the nested loops collect, for every name, its surviving group versions in discovery order |
| Discover.FindMigratableResources | pkg/initializer/discover.go:71-125 | one entry for each name with two or more surviving entries, with the first surviving group version, and nothing else; the first error that occurs otherwise |
| Discover.MigratableNamesAreExact | pkg/initializer/discover.go:84-121 | the names in the result are exactly those that count at two positions: no subresource, not "events", listed and updated, in a group that is neither custom nor aggregated |
| Discover.TwoSurvivors | pkg/initializer/discover.go:84-121 | a name has two survivors if and only if it survives at two different positions, in one list or in two |
| Discover.FirstSurvivor | pkg/initializer/discover.go:84-114 | the first survivor is that of the first list in which the name survives; there is none exactly if it survives nowhere |
| Discover.MigratableIsUnique | pkg/initializer/discover.go:116-124 | up to order the result is determined, whatever the order in which the map is visited |
| Discover.ParseInverts | pkg/initializer/discover.go:86 | a group version is parsed as it is printed, the core group included |

## Left out

- RunTermination.RunTerminates: counts steps that the scheduler lets happen; that it keeps choosing goroutines that can move is a hypothesis (`Productive`) where a run is said to return.
- EndToEnd.TrustedRunsAreTrue: an attempt at the storage state, its Get and its update, is one step.
- HandlerRuns.CallIsARun: changes that others make to the migration object during the call are separate steps of `EndToEnd` and not part of the call.
- LoopRuns.LoopRunsInOrder: ticks that list one resource; what others do between and within the turns are separate steps of `EndToEnd`.
- ControllerRuns.HistoryIsSafe: the storage version does not change during a history; what its change does to saved cursors is part of `EndToEnd`.
- Trigger.MigrationTrigger.UpdateStorageState: a single writer is assumed, so the resource version of the state object and conflicts on it are not modelled; they would be errors like the others.
- StorageStates.MigratedMeansMarked: a state that was created but never updated and then marked holds one empty hash; the second clause therefore speaks of states with a current hash.
- Namespaces and names: an object is known by its rank in the list order. Errors of the metadata accessors on malformed items and lists are not modelled.
- Sleeps, delays that the server suggests and the durations of backoffs: only the numbers of attempts and the arithmetic of heartbeats are.
- The text of error messages recorded in conditions, beyond which kind of error it was.
- The work queue: items are picked in any order, and its rate limits and deduplication are not modelled.
- The flattening of discovery documents and partial discovery in `processDiscovery` (`pkg/trigger/discovery_handler.go:37-71`): a pass begins with the resources as a list, each group and resource once.
- The detection of network errors inside `interpret`: its outcome is part of an error value.
- `initializeCRD` and `migrationCRD`: API calls around a constant schema.
- Several replicas of a controller, manual edits of a migration's known conditions or of a storage state, and the deletion of storage states by others: outside the design.
- Generated clients, informers and listers, commands, manifests, metrics and logs.
