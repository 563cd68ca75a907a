# Verification of the durable-job protocol

This project models better-graphile-worker, a library that runs durable jobs on top of
Graphile Worker's PostgreSQL tables, and proves what its protocol promises. `dafny verify
dfyconfig.toml` checks everything.

The core is the wait/settle/continue protocol of `src/private-jobs.ts` over whole runs: every
exported function is one transaction, hence one event, except `sweepWaits`, whose three
statements commit one by one and are three events. They interleave freely with one another and
with Graphile's claim, failure update, completion and keyed add. Beside it stand the
in-process state machines that the protocol relies on: how one run ends, how the lifecycle
supervises runners, how progress and step checkpoints are written, how batches are joined back
to their rows and how idempotency keys are claimed, and which values count as JSON.

| file | models |
|---|---|
| `Tables.dfy` | the rows, and the meaning of every statement as a function from tables to tables |
| `PrivateJobs.dfy` | the same transactions as methods that update a database object in place |
| `Protocol.dfy` | runs: tables, attempts in memory, a clock and history, one event at a time |
| `Invariants.dfy`, `Rows.dfy` | what every event keeps |
| `Waits.dfy`, `Chains.dfy`, `Attempts.dfy`, `Suspensions.dfy`, `Wakeups.dfy`, `Lookup.dfy` | the theorems about all runs |
| `Results.dfy` | what a run reports, records and stores, and that readers find it later |
| `RowLocks.dfy` | a suspending wait and its children's reports, split at their row locks |
| `Exceptions.dfy` | for each case where a promise ends, a run from the empty tables into it |
| `Example.dfy` | how such runs are stepped, and one of them: a wait suspends, loses its child and is swept |
| `Maintenance.dfy` | when a worker counts as dead |
| `Endings.dfy`, `TaskRuns.dfy` | one run of a handler: the chain of endings, the timeout, the decision |
| `Lifecycle.dfy`, `Supervision.dfy` | start, stop, runOnce and restarts with backoff |
| `BatchJoin.dfy`, `Idempotency.dfy` | enqueueing in batches and under idempotency keys |
| `Progress.dfy`, `Steps.dfy` | the coalescing progress writer and memoized steps |
| `Validation.dfy` | the walk that accepts JSON values |

Where the source mutates state, a class mutates the same state: each method's postcondition
equates the object's new view with a specification function of its old one, and the lemmas
about runs speak of those functions. Most of these methods are one step long; the table below
lists the ones that loop, recurse or combine several steps. Code between two awaits of the
original cannot be interrupted, so in the in-process machines it is one event.

Graphile's backoff is an arbitrary monotone function of the attempts with values at least zero.
Times are integers in milliseconds. `now()` is the clock of the transaction's event.

## Where the promises end

Several promises hold only under a condition; the project states it exactly and gives an input
on the other side.

- A swept wait never fails a child chain that can still run (`Chains.SweepSparesTheLiving`),
  except when the wait was opened on a job, found by its idempotency key, that had continued
  before (`Chains.OpensOnNewest` says when, `Exceptions.SweepFailsARunningChain` shows it).
  README.md:406 says that a child that continues reports from its continuation; this one does
  not, because its wait row was inserted after the hand-over.
- A finished wait keeps its parent due (`Wakeups.NoLostWakeup`), group by group, except for a
  group that had already finished, unconsumed, when its parent asked for a retry or a run of it
  first suspended, until the parent is claimed (`Wakeups.ExcusedIff`). That suspension aims at
  its own deadline from infinity and forgets the earlier wakeup (`Wakeups.ForgottenWakeup`,
  `Exceptions.SecondWaitForgetsTheFirst`); the next sweep after the failure update wakes it.
- A suspended run gives its attempt back (`Suspensions.SuspensionsGiveTheAttemptBack`), unless
  a keyed add took the job's key between claim and suspension. README.md:213 says that such a
  job has no attempt left to be retried with; suspending returns one, so that the job and its
  replacement can both run (`Exceptions.SuspensionRevivesARobbedJob`). `Suspensions.KeysGoToAdds`
  says which events take a key.
- A job whose handler threw a permanent error is not run again (README.md:312,
  `Results.ExhaustedJobsNeverRun`), unless a wait that the handler had started beside it suspends
  the run after its settlement and returns an attempt (`Results.SpentUnlessSuspended`,
  `Exceptions.LateWaitsReviveExhaustedJobs`).
- A scheduled retry is never earlier than asked (`Attempts.RetryIsDueAsRequested`,
  `Suspensions.RetriesAreNeverEarly`), unless a report or a sweep finishes a group that the job
  left open, or the handler enters another wait after all; `Wakeups.ReportsWakeExactly` and `Wakeups.SweepsWakeExactly` say exactly when,
  `Exceptions.ReportCutsARetryShort` shows it.
- Exactly one of group row and checkpoint remembers an entered wait in every run
  (`Waits.WaitsAreRememberedOnce`), unless `ctx.step.run` is given the id of an open wait
  (`Waits.GroupOrCheckpoint`, `Exceptions.OverwritingIsReachable`).
- A committed ending decides its run when it was requested before the handler's result was
  settled (`Endings.EndingsDecide`). A handler that calls its context after it returned or threw
  can commit an ending next to the other outcome; `Endings.EscapesIff` says exactly when this is
  possible, `Endings.LateWaitsEscape` shows a failed run that suspends, and a run decided by its
  timeout is never such a run (`Endings.TimeoutsNeverRace`).
- The batch join needs equal unkeyed specs to agree on task and lane; without that some insertion
  order hands a spec another task's job (`BatchJoin.SafeExactlyWhenSeparable`).
- src/lifecycle.ts:7 documents that failed restarts double the wait up to `maxDelay`; the code
  stops after thirty doublings, so a delay of 1 ms stays below a limit above 2^30 ms
  (`Lifecycle.WaitsReachTheLimit`).

## Model

| member | source | states |
|---|---|---|
| `Waits.RemainingIsConserved` | src/private-jobs.ts:102-114 | in every reachable state a group's `remaining` is its number of rows without a result, even when one child fills several rows or groups; zero means every row has one |
| `Waits.FinishedWaitsAreComplete` | src/private-jobs.ts:493-526 | finishing at zero checkpoints one present result per child, in input order |
| `Results.EntriesEnd` | src/private-jobs.ts:396-460 | an entry finishes exactly when its group is open and every row has a result or the deadline passed, and is rejected exactly without the lock or without a row for every child |
| `Results.RejectedChangesNothing` | src/private-jobs.ts:476-484 | a rejected entry leaves every table as it was |
| `Results.FinishedEntriesStore` | src/private-jobs.ts:493-526 | the checkpoint a wait returns is the one its job's row stores beside the others: each row's child and result in order, or after the deadline exactly the open rows' children in order; only the group goes |
| `Results.FinishedWaitsAreRemembered` | src/private-jobs.ts:493-526 | in every later state the row still holds the checkpoint that the wait returned, unless a step is run under its id |
| `Results.CheckpointsStay` | src/private-jobs.ts:188-204 | no event but such a step changes a stored checkpoint while its job's row lives |
| `Waits.TimeoutNamesTheUnfinished` | src/private-jobs.ts:501-511 | a timed-out wait names exactly the children without a result |
| `Waits.GroupsStep` | src/private-jobs.ts:134-153 | no event rewrites a stored result or reorders rows; an open row at most follows its child's continuation; only an owner's first entry opens a group |
| `Waits.ResultsKeepTheirPlace` | src/private-jobs.ts:436-460 | over any later run a row keeps its place and its result, and its child stays in one chain |
| `Results.SettlementsReport` | src/private-jobs.ts:102-114 | every open row that names the settling job gets exactly the report its run was asked to make, if the run was claimed with the mark, and no other row changes |
| `Results.DecidedRunsSettle` | src/worker.ts:473-507 | a run without an ending may settle once it was decided, and only once |
| `Results.ResultsWereReported` | src/private-jobs.ts:102-114 | over every run each result a wait holds was reported by its child's own settlement, or written by a sweep that found the child lost, with the sweep's error |
| `Results.SettlementsRecord` | src/private-jobs.ts:84-101 | the outcome is completed exactly for a success, failed with the report's message else, with the job's own counts and times; no other outcome changes |
| `Results.SettlementsAct` | src/private-jobs.ts:115-132 | the row is deleted, left without attempts, or kept, as asked |
| `Results.SettlementsWake` | src/private-jobs.ts:134-153 | another job is brought forward exactly when one of its groups waited for nobody but the settling job |
| `Results.StepsStoreTheirOutput` | src/private-jobs.ts:188-204 | a step's output is stored under its own id, beside all other checkpoints |
| `Results.ProgressShowsTheValue` | src/private-jobs.ts:206-219 | the row's progress is the value written, and the rest of the row stays |
| `Results.AddsInsertTheSpec` | README.md:213 | an enqueue inserts the row its spec describes, and of the others only a locked holder of its key loses the key with its remaining attempts |
| `Results.SpentUnlessSuspended` | src/private-jobs.ts:462-475 | a row without attempts left stays so at every event, if and only if it is not the first suspension of the run that holds it |
| `Results.ExhaustedJobsNeverRun` | src/private-jobs.ts:115-120 | after an exhausting settlement no state reached without such a suspension can claim the job |
| `Waits.GoneStaysGone` | src/private-jobs.ts:513-524 | a finished wait's group never comes back, so its children are not enqueued again |
| `Waits.ChildrenAreEnqueuedOnce` | src/private-jobs.ts:407-460 | over all runs, crashes and replays, children of one job and wait id are enqueued at most once |
| `Waits.EnqueuesAreCounted` | src/private-jobs.ts:407-435 | the count behind that theorem grows exactly when an owner's entry finds neither group nor checkpoint and its enqueue yields a row per child |
| `Waits.CheckpointedWaitsStayOut` | src/steps.ts:172-196 | a wait whose checkpoint the run has loaded never reaches the backend |
| `Waits.GroupOrCheckpoint` | src/private-jobs.ts:513-524 | an event keeps exactly one of group row and checkpoint for every wait that enqueued its children, while its job's row lives, if and only if it is not a step under an open wait's id |
| `Waits.WaitsAreRememberedOnce` | src/private-jobs.ts:407-526 | in every run without such a step, every reachable state remembers each wait that enqueued its children, while its job's row lives, by exactly one of group row and checkpoint |
| `Waits.ChildrenOpenInOrder` | src/private-jobs.ts:407-460 | a wait opens with one unresolved row per input, in input order, and its timeout counted from now: row i names the job input i's key had recorded, or the new row that holds input i's spec field by field and the mark; new rows have increasing ids |
| `Chains.OneRunnableIncarnation` | src/private-jobs.ts:258-337 | in every reachable state at most one job of a chain of continuations has attempts left; it is the newest and carries the chain's input |
| `Chains.ContinuationKeepsTheJob` | src/private-jobs.ts:258-337 | the continuation starts afresh with the job's identity, steps and latest progress and the trace of the run that asked for it, and the continued row can never run again |
| `Chains.ContinuationsCommit` | src/private-jobs.ts:258-337 | an owner's continuation ends its run, extends its job's chain and enqueues that successor |
| `Chains.ChainKeepsInput` | src/private-jobs.ts:280-315 | every continuation, however long the chain, carries the first input |
| `Chains.WaitsFollow` | src/private-jobs.ts:316-321 | unresolved waits on the continued job, and no other rows, move to its continuation |
| `Chains.OpenWaitsNameTheNewest` | src/private-jobs.ts:316-321 | in every reachable state an unresolved row names the newest job of its child's chain, and that job is marked as waited on, unless the child was stale when the wait opened |
| `Chains.SweepSparesTheLiving` | src/private-jobs.ts:536-561 | a row that a sweep resolves belongs to a chain that no later state can run again, unless its child was stale when the wait opened |
| `Chains.OpensOnNewest` | src/private-jobs.ts:436-460 | a wait opens on the newest jobs of its children's chains if and only if no deduplicated child had continued |
| `Rows.LibraryIsTame` | src/private-jobs.ts:21-29 | no transaction of this library locks or unlocks a row, raises its budget, revives a deleted or an unlocked exhausted one, or drops its checkpoints |
| `Rows.SettlementsFreeOneLane` | src/private-jobs.ts:115-132 | deleting a settled row frees its lane exactly if the settling pool holds it, and no other lane |
| `Invariants.ChildIds` | src/private-jobs.ts:407-435 | the i-th id of an enqueue is its i-th child's: the row inserted with that child's spec, at increasing ids, or the job its key had recorded |
| `Attempts.ExecutionsAreBounded` | src/private-jobs.ts:344-366 | in every run, claims that did not end suspended are at most the inserted attempts, crashes, sweeps and reclaims included, and attempts never exceed the budget |
| `Attempts.Fencing` | src/private-jobs.ts:21-29 | once an attempt lost its lock none of its writes changes any table, in any later state, also after its own pool relocks the job |
| `Suspensions.SuspensionsGiveTheAttemptBack` | src/private-jobs.ts:462-475 | in every reachable state a suspended run holds its job at the attempts from before its claim, if and only if no add took the job's key since while it had attempts left |
| `Suspensions.SleepersAreDueAsAimed` | src/private-jobs.ts:462-475 | in every reachable state the failure update makes a suspended job with attempts left due exactly at the earliest deadline of its run's waits, brought forward by reports, or one backoff from now if later |
| `Suspensions.RetriesAreNeverEarly` | src/private-jobs.ts:32-57 | in every run a retry is not claimed before the requested time unless a report finished one of the job's groups, a sweep brought the job forward beside a finished one, or it suspended since; a lock reclaimed without a failure update may be early by at most that backoff |
| `Suspensions.KeysGoToAdds` | README.md:213 | a job with attempts left loses its key exactly when an event adds a job with that key: a producer's, a wait's child, or a continuation |
| `Attempts.RetryIsDueAsRequested` | src/private-jobs.ts:32-57 | a scheduled retry is due at the later of the requested time and the default backoff |
| `Wakeups.NoLostWakeup` | src/private-jobs.ts:134-153 | in every reachable state the parent of a finished group, if that group is not excused, is due by its last report, or at most one backoff after the failure update |
| `Wakeups.ExcusedIff` | src/private-jobs.ts:462-475 | over all events exactly when a group is excused: it was finished when its parent scheduled a retry or first suspended, and the parent was not claimed since |
| `Wakeups.ForgottenWakeup` | src/private-jobs.ts:462-475 | a run's first suspension leaves its row due exactly when its own deadline is near, whatever woke it before |
| `Wakeups.SweepsWakeTheFinished` | src/private-jobs.ts:563-571 | after a sweep's second statement no finished group has an unlocked parent with attempts left that is not due |
| `Wakeups.UndisturbedSweepsLeaveNothing` | src/private-jobs.ts:536-577 | three statements with no commit between them leave no such group, those just resolved included, and none with an absent parent |
| `Wakeups.SweepsDropTheOrphans` | src/private-jobs.ts:572-576 | a sweep's third statement drops exactly the groups whose parent has no row |
| `Wakeups.SweepsResolveTheLost` | src/private-jobs.ts:542-561 | a sweep's first statement resolves exactly the unresolved rows whose child is gone, or unlocked without attempts left, each with the error for its case, but for rows another transaction holds |
| `Wakeups.ReportsWakeExactly` | src/private-jobs.ts:134-153 | a settlement changes another row exactly when it reports the last children of one of that job's groups, and then only to no later than now |
| `Wakeups.SweepsWakeExactly` | src/private-jobs.ts:542-571 | the time each statement of a sweep leaves on any row, locked, exhausted or asleep, and that it changes nothing else of it |
| `RowLocks.NoInterleavingLosesAWakeup` | src/private-jobs.ts:396-475 | for every interleaving of a suspending wait and its children's reports at their row locks, with aborts and retries: checkpointed, or due by the last report |
| `RowLocks.InterleavingsAreSerial` | src/private-jobs.ts:134-153 | each lock-level move commits nothing or exactly one indivisible wait or report on the rows of that moment |
| `RowLocks.WaitsAreTheProtocols` | src/private-jobs.ts:396-475 | that indivisible wait is what the protocol's transaction does to the parent's and the group's row |
| `RowLocks.ReportsAreTheProtocols` | src/private-jobs.ts:134-153 | that indivisible report is what the protocol's statement does to them, for any number of rows it resolves; finishing another group of the parent wakes it too |
| `RowLocks.TheFilterLosesAWakeup` | docs/internals/overview.md:66 | with a `run_at` condition read from the report's snapshot, a concrete interleaving leaves a finished wait asleep |
| `Invariants.Reachable` | src/private-jobs.ts:68-577 | every event of the protocol keeps the invariant on jobs, chains, groups, enqueues and wakeups |
| `Exceptions.SweepFailsARunningChain` | src/private-jobs.ts:542-559 | a run from the empty tables in which a sweep fails a wait whose child's continuation can run |
| `Exceptions.SecondWaitForgetsTheFirst` | src/private-jobs.ts:462-475 | for every backoff a run after which a parent with a finished group sleeps until the year 9999 or later, and a sweep wakes it |
| `Exceptions.ReportCutsARetryShort` | src/private-jobs.ts:134-153 | for every backoff a run in which a leftover group's report makes a scheduled retry due at once, before the requested time |
| `Exceptions.SuspensionRevivesARobbedJob` | README.md:213 | a run in which a job whose key went to another suspends with attempts left and can run beside its replacement |
| `Exceptions.LateWaitsReviveExhaustedJobs` | src/private-jobs.ts:462-475 | a run in which a late wait returns an attempt to a job that its settlement had exhausted |
| `Exceptions.OverwritingIsReachable` | src/private-jobs.ts:188-204 | a run after which a step under the id of an open wait makes both group and checkpoint remember it |
| `Example.SweepResolvesTheWait` | src/private-jobs.ts:542-561 | a run from the empty tables in which a job suspends at a wait, its child is deleted and a sweep resolves the row |
| `Lookup.LookupNeverMisses` | src/job-outcomes.ts:110-151 | with outcomes on and within retention, a job that completed or continued is never reported as not found, whatever commits between the two reads, and the answer is the right one |
| `Lookup.QueryAnswers` | src/job-outcomes.ts:110-195 | which answer each state of row, open waits and outcome gives; a waiting job names exactly the children of its open rows |
| `Lookup.SettledJobsAnswer` | src/job-outcomes.ts:110-195 | a job settled and deleted with its outcome is found by every later lookup within retention, completed or failed as it was settled |
| `Lookup.OutcomesStay` | src/job-outcomes.ts:72-86 | within retention no event changes or removes the outcome of a job that is gone |
| `Lookup.PrunesTheOld` | src/job-outcomes.ts:72-86 | pruning deletes exactly the outcomes older than the retention, but for locked ones |
| `Maintenance.TwoBeatsMayFail` | src/maintenance.ts:25-83 | under every accepted setting a sweep releases no worker whose latest heartbeat is within three intervals, and never the sweeper |
| `Maintenance.RecoveryIsChecked` | src/maintenance.ts:25-40 | which settings are accepted, with which times |
| `Maintenance.BeatsProtect` | src/maintenance.ts:49-83 | whatever happens after a worker's heartbeat, no sweep takes its jobs before `staleAfter` has passed |
| `Maintenance.SweepsReleaseTheDead` | src/private-jobs.ts:344-366 | a sweep unlocks exactly the rows of pools whose heartbeat is too old, one backoff away, with the attempt spent and the error recorded, and frees their lanes and heartbeats; every other row stays |
| `PrivateJobs.Database.Enqueue` | src/private-jobs.ts:407-435 | the prepared children in order, each new or recorded by its key |
| `PrivateJobs.Database.EnterWait` | src/private-jobs.ts:383-486 | the wait's three ends: rejected and rolled back, checkpointed, or suspended |
| `Endings.OneEndingPerRun` | src/worker.ts:154-173 | for every interleaving a run never both continues and suspends, continues at most once and gives its attempt back at most once |
| `Endings.EndingsDecide` | src/worker.ts:448-507 | an ending requested before the result was settled decides the run against throws and timeouts; the run then neither settles, exhausts nor retries |
| `Endings.EndedRunsStayEnded` | src/worker.ts:480-495 | an outcome that names an ending names the committed one and is never revised |
| `Endings.EscapesIff` | src/worker.ts:448-479 | a run decided without an ending can still commit one if and only if its timeout has not fired or an ending from before it is open or queued |
| `Endings.LateWaitsEscape` | src/worker.ts:448-479 | a run that fails with no ending and then suspends at a wait its handler had left unawaited |
| `Endings.TimeoutsNeverRace` | src/worker.ts:110-141 | a run decided by its timeout commits no ending, then or later |
| `Endings.FailureEffectsAreOne` | src/worker.ts:557-616 | a failed run settles its row or schedules a retry, never both |
| `Endings.FailedRunsAct` | src/worker.ts:557-616 | exactly when a failed run schedules its retry, exhausts, deletes or keeps its row, or leaves everything to Graphile |
| `Endings.FinishedRunsAct` | src/worker.ts:480-507 | a completion is settled when anybody asks for it and fails the run when it cannot be; a run that ended otherwise writes nothing more |
| `Endings.OutcomesFollowTheHandler` | src/worker.ts:423-507 | in every run a completion means that the handler returned, and a failure carries the error thrown first or an unrecorded completion |
| `Endings.CallsAnswer` | src/worker.ts:177-330 | a run takes one continuation and any waits, until its timeout |
| `Endings.ResultsDecide` | src/worker.ts:423-507 | a handler that settles on an idle chain is decided by its result |
| `Endings.EndingsEnd` | src/worker.ts:154-173 | a continuation or wait asked for on an idle chain commits and decides the run, whatever the handler then does |
| `Lifecycle.AtMostOneUnit` | src/lifecycle.ts:128-211 | for every interleaving at most one of a starting runner, a live runner and a runOnce operation exists |
| `Lifecycle.NothingLivesThroughRelease` | src/lifecycle.ts:166-201 | release runs only while nothing lives, late restarts included |
| `Lifecycle.StopLeavesNothing` | src/lifecycle.ts:166-201 | stop ends only through its release, and then every runner has ended and no run, operation or listener is left |
| `Lifecycle.StoppedRunsStaySilent` | src/lifecycle.ts:93-127 | a stopped run opens no runner and calls no callback |
| `Lifecycle.ListenersNeverLeak` | src/lifecycle.ts:128-165 | signal listeners are installed at most once, and only while a start or run goes on |
| `Lifecycle.CallbacksFollowThePolicy` | src/lifecycle.ts:65-127 | callbacks follow (Stopped RestartFailed* Restarted)*, with the policy's delays; a streak restarts only after a runner lived the longest wait |
| `Lifecycle.FailuresRestart` | src/lifecycle.ts:65-91 | in every reachable state a supervisor whose runner ended waits for a restart, from now on for the delay it just reported, if and only if the runner failed, the run goes on and restarts are on; else the run is over, without listener if nobody stopped it |
| `Lifecycle.CrashesRestart` | src/lifecycle.ts:65-91 | a live supervised runner that crashes is waited for, and one that ends cleanly, or under a stop, ends its run |
| `Lifecycle.FailedRestartsWait` | src/lifecycle.ts:92-126 | a restart that fails is reported and waited for one attempt further, unless stopped |
| `Lifecycle.RestartsAreSupervised` | src/lifecycle.ts:111-122 | a restart that succeeds is supervised from now on, or stopped if stop came first |
| `Lifecycle.WaitsAreWaitedOut` | src/lifecycle.ts:53-63 | no event ends a wait before its time but a stop |
| `Lifecycle.WaitsEndInRestarts` | src/lifecycle.ts:108-111 | a wait that is over opens exactly one runner, or none if stopped |
| `Lifecycle.StartsRun` | src/lifecycle.ts:128-151 | a start on an idle lifecycle leads to one live runner, supervised as a new run |
| `Lifecycle.FailedStartsRelease` | src/lifecycle.ts:152-161 | a start that fails ends its runner, removes its listeners and releases |
| `Lifecycle.OnlyIdleBegins` | src/lifecycle.ts:128-133 | start and runOnce begin exactly on an idle lifecycle |
| `Lifecycle.StopsStopTheRun` | src/lifecycle.ts:166-181 | a stop marks the run, removes the listeners and stops the run's runner, or goes on to the release without a run |
| `Lifecycle.StopsCanEnd` | src/lifecycle.ts:166-201 | from every reachable state a stop in progress can end once what it waits for settles, without a further call |
| `Lifecycle.StreaksNeverSpeedUp` | src/lifecycle.ts:99-107 | within a streak waits never get shorter, across restarts that succeed too |
| `Lifecycle.DelaysGrowWithinLimits` | src/lifecycle.ts:103-107 | delays lie between the two limits and grow with the attempt |
| `Lifecycle.WaitsDouble` | src/lifecycle.ts:103-107 | waits double from `delay` up to `maxDelay`, at most thirty times |
| `Lifecycle.WaitsReachTheLimit` | src/lifecycle.ts:103-107 | exactly which accepted policies ever wait `maxDelay` |
| `Lifecycle.PoliciesAreOrdered` | src/lifecycle.ts:12-19 | which options are refused, and which delays the others give, defaults included |
| `BatchJoin.JoinIsABijection` | src/enqueue-sql.ts:48-105 | for any insertion order and any keys hitting existing rows, every spec gets exactly one row and every row one spec, in spec order, with key, content, task and lane |
| `BatchJoin.SafeExactlyWhenSeparable` | src/enqueue-sql.ts:216-235 | every insertion order respects task and lane if and only if equal keyless content implies equal target |
| `BatchJoin.MatchIsInjective` | src/enqueue-sql.ts:68-88 | the one text column tells keys, ranks and contents apart |
| `BatchJoin.SomeoneHasRank` | src/enqueue-sql.ts:70-74 | row numbers of a partition have no gaps |
| `BatchJoin.AssertDistinguishable` | src/enqueue-sql.ts:216-235 | the loop accepts exactly the batches whose equal unkeyed specs agree on their target |
| `BatchJoin.ResolveMany` | src/create-job.ts:353-406 | the loop accepts exactly the batches with distinct keys and one supported mode, and names the first item that breaks this |
| `BatchJoin.BatchKeepsItsModes` | src/create-job.ts:161-171 | on the item-by-item path each keyed item of an accepted batch gets the mode it asked for, and an item without key is enqueued as it is |
| `Idempotency.TableRefinesFirstClaim` | src/enqueue-sql.ts:165-213 | over any batches and prunes at ordered times the table gives every answer that a scan of all earlier answers gives |
| `Idempotency.FirstClaimWins` | src/enqueue-sql.ts:175-190 | an enqueue within the TTL of an earlier one with its queue and key returns that one's job and enqueues none, repeats in one batch included |
| `Idempotency.DeduplicatedOnlyByAClaim` | src/enqueue-sql.ts:186-190 | nothing else is ever deduplicated |
| `Idempotency.PruningChangesNothing` | src/enqueue-sql.ts:237-248 | pruning, whenever and however partial, changes no answer |
| `Idempotency.PrunesTheExpired` | src/enqueue-sql.ts:237-248 | pruning deletes exactly the expired keys, but for locked ones |
| `Idempotency.AnswersKeepOrder` | src/enqueue-sql.ts:121-145 | a batch answers its items one for one in their order |
| `Idempotency.KeyTable.AddJobs` | src/enqueue-sql.ts:165-213 | the loop, against the specification of one transaction |
| `Progress.ResolvedMeansStored` | src/progress.ts:106-117 | when flush or close(true) resolves, the row holds `get()` and nothing is in flight |
| `Progress.WritesKeepOrder` | src/progress.ts:57-75 | persisted values are accepted ones, each once, in order |
| `Progress.OneWriteAtATime` | src/progress.ts:57-75 | one write in flight and at most one behind it |
| `Progress.SetsAreThrottled` | src/progress.ts:88-105 | a write queued by set or its timer comes at least 1000 ms after the one queued before it, whoever queued that |
| `Progress.NoValueIsForgotten` | src/progress.ts:88-105 | while open, an unstored value is being written, queued, timed, or its write failed |
| `Progress.SetsAreKept` | src/progress.ts:92-105 | `get()` returns the value last set, and its write is queued or timed |
| `Progress.OnlySetsChangeTheValue` | src/progress.ts:88-117 | nothing else changes it |
| `Progress.SetsAnswer` | src/progress.ts:76-91 | set is refused when closed, and throws the failure of an earlier write once |
| `Progress.QueuedWritesStore` | src/progress.ts:57-75 | a queued write stores the current value, or is remembered as failed and its value as unstored |
| `Progress.CallsQueueWrites` | src/progress.ts:106-117 | flush, close(true) and a timer that is due queue the write of an unstored value |
| `Progress.CloseLeavesNothing` | src/progress.ts:111-117 | after close no timer and no write is left |
| `Progress.ClosedStaysQuiet` | src/progress.ts:82-117 | a closed writer with nothing left accepts and writes nothing, and queues a write if and only if it is closed once more to persist an unstored value |
| `Progress.ClosedRunsStayQuiet` | src/progress.ts:82-117 | without such a second close nothing is accepted or written in any later run |
| `Steps.OneExecutionAtATime` | src/steps.ts:118-155 | for every overlap of calls an attempt never runs one step's function twice at once |
| `Steps.StoredStepsNeverRunAgain` | src/steps.ts:118-155 | once stored, a checkpoint never changes and its function never starts again, in this attempt or any replay |
| `Steps.RepliesAgree` | src/steps.ts:118-155 | all calls of one id that return, across attempts, return the one stored value |
| `Steps.OutputsAreStoredAndReturned` | src/steps.ts:130-152 | over all attempts the row, the cache and every reply for an id hold the value that its function returned, or its wait finished with, when it last ran |
| `Steps.LatestHappened` | src/steps.ts:130-152 | there is such an event, while that id was executing |
| `Steps.StepsRunToTheirReply` | src/steps.ts:118-155 | from every reachable state of an owning attempt a step that is neither stored nor running runs once, stores its output and returns it |
| `Steps.EndedAttemptsStartNothing` | src/steps.ts:118-129 | an attempt that ended starts no function |
| `Steps.LostLocksStoreNothing` | src/steps.ts:227-246 | an attempt that lost its lock stores nothing |
| `Steps.CacheIsNeverAhead` | src/steps.ts:220-247 | the cache holds only what the row holds, and lags by works that have just committed |
| `Steps.FailuresAreNotCached` | src/steps.ts:130-152 | a failed function or write leaves no trace and the next call runs anew |
| `Steps.ReplaysAnswerFromTheRow` | src/steps.ts:125-129 | a replay answers a stored step at once with its first value |
| `Steps.EntriesRoundTrip` | src/steps.ts:208-210 | undefined, null and every JSON value come back as themselves |
| `Steps.CacheRoundTrips` | src/payload.ts:114-126 | a replay loads exactly the stored checkpoints |
| `Steps.LoadsWhatEntriesMean` | src/payload.ts:114-126 | which entries of any row are loaded, and as which values |
| `Steps.ExtractStepCache` | src/payload.ts:114-126 | the loading loop skips foreign entries and normalizes void ones |
| `Validation.AcceptsExactlyJson` | src/validation.ts:30-69 | on every finite graph the walk ends, and accepts exactly when no path repeats a node, every node is plain and without symbols, and every leaf is a JSON primitive |
| `Validation.SharingIsNotACycle` | src/validation.ts:52-66 | a shared node passes, a node that holds itself does not |
| `Validation.ErrorsNameAFault` | src/validation.ts:40-66 | the error thrown is true of the end of some path: a value JSON cannot hold, a node met again, a class instance, or symbol keys |
| `Validation.Walk.VisitValue` | src/validation.ts:33-67 | the recursive loop finds the first error in order and restores its ancestors |

## Left out

- SQL text, drivers, pools, LISTEN/NOTIFY, schema quoting and migrations: statements are modelled by what they do to rows.
- Deadlocks and connection loss abort whole transactions and change nothing; a lost COMMIT acknowledgement is not modelled.
- Deadlock freedom and progress of Graphile's fetch: only safety is claimed.
- Graphile's own writes are events without a fence: its completion deletes by id and its failure update matches the pool, so `Attempts.Fencing` covers this library's writes only, and lane exclusion is not claimed.
- `PrivateJobs.Database.AddJob`: a keyed add that replaces an unlocked job in place is not modelled, because producers re-adding a sleeping parent's or waited child's key are excluded; such a spec adds nothing in `Protocol`.
- Administrative and external edits: `retryJobs`, `failJobs`, manual row edits; a deleted child appears as Graphile's removal.
- Two locks of one job in the same millisecond, and clocks running backwards.
- Gaps in the id sequence after a rollback; ids of committed rows are consecutive.
- Payloads without an envelope of version 2, trace parsing and cron metadata beyond its removal on continuation.
- `Endings` leaves hooks, logging and the progress writes around the decision out, and treats a failing hook as none; whether the executor then throws to Graphile or returns is Graphile's failure update or completion in `Protocol`.
- `Lifecycle` assumes that callbacks and `release` do not throw and that a rejected start leaves no runner behind; the caller's shutdown timeout only ends the caller's own promise.
- `Progress` assumes that each call is awaited before the next, `close` included: concurrent callers could consume one another's stored failure.
- `Steps` has one attempt at a time; codecs, serialization errors and events are values already decided when a step's function settles.
- `BatchJoin`: specs are canonical, and the JSON text of a content is any injective text that begins with a bracket; a job key's other effects on an existing row are not described.
- `Idempotency` serializes producers of one key, as its row lock does, at non-decreasing transaction times; the id `add_job` returns is arbitrary.
- Schema parsing, JSON text, floating-point rounding and negative zero.
- Type-level machinery, CLI, hooks, logging, metrics, OpenTelemetry, Prisma, the shutdown probe, queue-name checks, pool assignment, statistics and duration parsing: plumbing or easy.
