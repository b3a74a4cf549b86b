# Verified model of git-events-runner

The project models the stateful protocols of git-events-runner in Dafny and proves what they promise.
`dafny verify dfyconfig.toml` checks all of it.

**Jobs queue.** `JobWatch` is the handler of job watch events, which keeps the running counter by
differences. `RunQueue` is one pass over the queue, with its panics. `JobsProtocol` puts producers, the
watch handler, the two event loops, the passes, the API server and the runtime configuration together as
a step system: every read of the counter, the queue and the configuration, every update of the gauges,
every request and every answer is a step of its own. The watch handler and the two loops are branches of
one task: it polls them in a fixed order at first, changes between them at await points only, and ends
when a pass panics. The steps of all others interleave freely. `JobsSafety` proves what each step keeps,
`JobsPass` that a pass which nobody disturbs does what the method does, and `JobsTheorems` what follows
for every run: items are conserved and handled in order, no wake-up is lost, the process comes to rest
only when everything is handled or a panic has ended the task, and the overshoot over the limit is
bounded. `JobLabels` covers the labels that a finished job is counted under.

**Triggers.** `TriggerTypes` holds the merged status and the comparison of hashes. `TriggerHistory`
interleaves any number of tasks of one trigger, where a cache read returns any earlier version of the
trigger and patches may be lost, and says which hashes can be suppressed under which edits of the spec.
`TriggerRun` covers sequential runs: the loop over the sources, its independence of their order, and the
sequence of enqueued hashes over many runs. `GlobHash` is the hash over the selected files.

**Schedules and leadership.** `Scheduling` is the reconciliation of schedule triggers with failing
calls, `SchedulingRuns` interleaves reconciles and cleanups of all triggers, and `Leadership` puts the
main loop and the generations of leader controllers on top.

**Secret cache.** `SecretsCache` is one lookup, `SecretsCacheRuns` any number of callers over an API that
changes underneath.

**Text formats.** `ClonerArgs` prints and parses the arguments of the cloner, `PathKeys` extracts and
displays the keys of the rate limits.

Code that changes state is a class with methods (`Watcher`, `JobsQueue`, `TriggerTask`, `Controller`,
`Cache`, `Hasher`), each proved against functions on values; the step systems use the same functions. A
run is a sequence of labels: `Run(start, labels)` gives the state it leads to, and a theorem about
`Run(Init(..), labels) == Some(s)` holds for every reachable state.

Where the code falls short of what one would expect, a lemma gives the run that shows it, beside the
exact condition under which the promise holds: a status change after a job has finished drives the
counter down (`DriftWitness`, `GaugeConversionIffCovered`), and then the next pass panics and the queue
starves (`DriftStarves`, `DeadExactlyOnDrift`); a raise of the limit from 0 before the config loop
subscribes may be missed, but no other change (`EarlyConfigChangeIsMissed`, `NoLostWakeup`); switching
`files` on or off can suppress a hash that was never acted on (`CommitLostIff`, `MissingHashLostIff`);
taking a schedule change back after a failed reconcile is ignored (`RevertAfterFailureIsIgnored`,
`FailureHarmsIff`, `SuccessMeansSyncIff`); and a failed fetch of a secret is forgotten
(`FailedFetchIsForgotten`, `MonotoneReads`). The documentation (docs/resources/triggers.md:14) says that
adding or removing files means that a source has changed; the code hashes contents only, so a rename
that keeps the order is not seen (`RenameIsNotSeen`, `EqualHashIffEqualContents`).

## Model

| member | source | states |
|---|---|---|
| `JobWatch.Watcher.HandleEvent` | src/jobs.rs:278-328 | a changed status that shows success or failure, and an unfinished job that goes away, are counted off; a new job is counted on; the counter is a word that wraps at 2^64, and an error item changes nothing |
| `JobWatch.Watcher.FetchSub` | src/jobs.rs:297-299 | subtracting from an atomic `usize` wraps below zero |
| `JobWatch.Watcher.HandleStream` | src/jobs.rs:275-328 | over a whole stream, the wrapped counter ends as the mathematical one, wrapped once at the end |
| `JobWatch.DriftStep` | src/jobs.rs:287-324 | one event moves the counter and the number of unfinished jobs equally, except for the two kinds of drifting events |
| `JobWatch.DriftLaw` | src/jobs.rs:287-324 | for every stream: counter = unfinished entries + jobs first seen finished - status changes after finishing |
| `JobWatch.GaugeConversionIffCovered` | src/jobs.rs:151-154 | the conversion of the counter for the gauge succeeds if and only if the changes after finishing are covered by unfinished jobs and late arrivals |
| `JobWatch.ExactWithoutDrift` | src/jobs.rs:287-324 | without drifting events the counter is exactly the number of unfinished jobs |
| `JobWatch.DriftWitness` | src/jobs.rs:288-308 | three events of one job that take the counter below zero and the gauge out of range |
| `RunQueue.JobsQueue.RunQueue` | src/jobs.rs:376-432 | a pass terminates, never waits for an item, pops nothing above the limit, and otherwise handles exactly the greedy prefix of the snapshot up to the first panic of the gauges (src/jobs.rs:151-159) or the clock (src/jobs.rs:239-245, 403), which loses the item in hand, whatever arrives meanwhile |
| `RunQueue.FatesOnTimes` | src/jobs.rs:239-245 | in every outcome, an item is dropped if and only if it is past its own timeout, or past the configured one if it has none; otherwise the answer of the API decides |
| `RunQueue.EndingOnTimes` | src/jobs.rs:151-159 | a pass ends with a panic exactly where a deadline or a waiting time overflows the clock, or the counter or the limit overflows its gauge |
| `RunQueue.CapacityUsed` | src/jobs.rs:391-431 | created jobs alone use capacity; without a panic the pass uses up the items or the capacity |
| `RunQueue.GreedyIsUnique` | src/jobs.rs:394-431 | snapshot, capacity and environment determine how far a pass goes and how it ends |
| `RunQueue.GreedyWithinCapacity` | src/jobs.rs:401-424 | however it ends, a pass creates no more jobs than the free capacity, and drops every item that tests as expired; without a panic it is greedy |
| `JobsSafety.PassItems` | src/jobs.rs:394-431 | a pass step takes the first item in hand or gives the item in hand the fate its expiry test demands |
| `JobsSafety.ActiveBehind` | src/jobs.rs:287-324 | the handler is behind the server by no more active jobs than it has not seen at all |
| `JobsTheorems.AlwaysSafe` | src/jobs.rs:255-474 | in every reachable state: the lock has one owner; items are conserved in order; what a pass has read still holds or something pending leads to another pass; a limit not read yet is announced or was missed, and missed only while no job is counted; the task has ended only for a cause; the statuses plus the undelivered events are the jobs on the server; jobs made and capacity left add up; jobs come from items; fates, snapshot and capacity account for each other |
| `JobsTheorems.EveryItemHasOnePlace` | src/jobs.rs:394-431 | every sent item is waiting, in hand (of a pass, or lost with the task at a panic of the clock), or taken with one fate, in the order of sending; no create is attempted for an item that tested as expired, and nothing else is dropped as expired |
| `JobsTheorems.JobsComeFromItems` | src/jobs.rs:401-424 | every job on the server was created for an item taken from the queue that did not test as expired, and only jobs that exist are reported as created |
| `JobsTheorems.PassesAreGreedy` | src/jobs.rs:380-431 | under any interleaving an ending pass has been greedy over its snapshot with the capacity it has read, the same meaning that the method has |
| `JobsTheorems.NoLostWakeup` | src/jobs.rs:331-366 | when the task lives, nothing is under way and every created job was seen, then the queue is empty, or the counter has reached the limit read last, or uncovered drift of 2^63 has wrapped it; it falls short of the current limit if and only if items wait, the limit read last is 0 and no job is counted, and then the change came before the subscription |
| `JobsTheorems.RestsExactlyWhenDoneOrDead` | src/jobs.rs:331-432 | the process has no step left if and only if all events, items in hand and announcements are handled, or a panic has ended the task, which has a cause |
| `JobsTheorems.WorkIsConserved` | src/jobs.rs:331-432 | left alone, the process comes to rest within a number of steps bounded by its open work, whatever steps it takes; then a panic with a cause has ended the task, or it knows every job on the server and no item waits below the limit read last (drift of 2^63 apart) |
| `JobsTheorems.DeadExactlyOnDrift` | src/jobs.rs:151-159 | at rest, with representable limits and a working clock, the task has ended if and only if the status changes after finishing are not covered by unfinished jobs and late arrivals |
| `JobsTheorems.PanicsExactly` | src/jobs.rs:384-425 | a live task ends exactly at an update of the gauges that cannot take the counter or the limit of that moment, or at an expiry test that the clock cannot handle |
| `JobsTheorems.EveryWatchItemWakes` | src/jobs.rs:326-328 | each item of the watch stream, an error item included, is followed by an event for the queue before the task does anything else |
| `JobsTheorems.DriftStarves` | src/jobs.rs:288-391 | for every limit, a run in which one job finishes and changes once more, the next pass panics, and an item waits forever with no job active |
| `JobsTheorems.EarlyConfigChangeIsMissed` | src/jobs.rs:345-366 | for every raise from the limit 0, a run within the order of the first poll in which the raise comes before the subscription and an item keeps waiting |
| `JobsTheorems.BoundedOvershoot` | src/jobs.rs:380-415 | after every create the active jobs are at most the limit plus the jobs unobserved when the counter was read, its drift, and the lost answers of the pass |
| `JobsTheorems.NeverAboveLimit` | src/jobs.rs:373-432 | with a fixed limit, truthful answers and passes that find an exact counter and nothing unobserved, the active jobs never exceed the limit |
| `JobsPass.UndisturbedPass` | src/jobs.rs:376-432 | a pass of the step system that nobody disturbs has the outcome of the method: the same fates, the same items left, the same ending, for every clock and all answers, lost ones included |
| `JobLabels.LabelJob` | src/resources/action.rs:239-251 | who decides on each label of an enqueued job: the identity (src/jobs.rs:441-443) over the additional labels over the six facts, name by name |
| `JobLabels.EnqueuedJobsAreCounted` | src/jobs.rs:161-183 | an enqueued job carries this identity and is counted without a panic; under its true facts if and only if the additional labels keep them |
| `TriggerHistory.AlwaysInv` | src/resources/trigger.rs:743-935 | over any edits of the spec, every recorded commit was enqueued or could pass under an earlier spec that compares files, every recorded file hash was enqueued, and a missing one too or an earlier spec did not watch files |
| `TriggerHistory.NewHashIsNeverSuppressed` | src/resources/trigger.rs:854-858 | under any interleaving, edits, stale reads, failed actions and lost patches, a hash that was never enqueued for its source leads to an execution: a file hash always, a commit or a missing file hash unless an earlier spec has compared otherwise |
| `TriggerHistory.CommitLostIff` | src/resources/trigger.rs:181-193 | over given specs, a commit that was never enqueued can be suppressed if and only if one of them compares the files of the source and a later one its commit |
| `TriggerHistory.MissingHashLostIff` | src/resources/trigger.rs:181-193 | over given specs, a file hash that cannot be calculated, and never was acted on, can be suppressed if and only if one of them does not watch files and a later one compares the files of the source |
| `TriggerHistory.UndisturbedRun` | src/resources/trigger.rs:734-948 | a task that nobody disturbs leaves the trigger just as a run of the sequential task does, whatever the sources show |
| `TriggerRun.TriggerTask.UpdateTriggerStatus` | src/resources/trigger.rs:644-701 | what is given wins, what is not given is kept, sources that the spec does not name go; a first status has defaults instead |
| `TriggerRun.TriggerTask.Check` | src/resources/trigger.rs:767-935 | the watched files decide, or the commit without them; a source that was seen is recorded with commit, file hash and time of change, unless its execution fails |
| `TriggerRun.TriggerTask.CheckSources` | src/resources/trigger.rs:760-941 | the loop handles every source of the set once, in some order |
| `TriggerRun.TriggerTask.RunOnce` | src/resources/trigger.rs:734-948 | the final status, and what is executed and enqueued, are determined source by source, whatever the order; a scheduled run checks every source of the spec, a run for one source only this one |
| `TriggerRun.RunOnSource` | src/resources/trigger.rs:767-935 | whether a run acts on a source, enqueues it, and what it records for it, on the values that it observes |
| `TriggerRun.CheckAllMeaning` | src/resources/trigger.rs:767-941 | the loop over any order of distinct sources has the source-by-source meaning |
| `TriggerRun.OrderDoesNotMatter` | src/resources/trigger.rs:760-767 | two orders of one set record the same, execute and enqueue the same actions, each at most once |
| `TriggerRun.SourcesAreIndependent` | src/resources/trigger.rs:743-941 | over any number of runs, what is recorded for a source depends on the observations of this source alone |
| `TriggerRun.LoggedIffHashesGrow` | src/resources/trigger.rs:743-941 | in every run the task enqueues for a source if and only if the hashes enqueued for it grow, and then by the hash that the run has found |
| `TriggerRun.LogCountsHashes` | src/resources/trigger.rs:743-941 | over many runs the log of the task has a source as often as hashes were enqueued for it |
| `TriggerRun.FailedIsRetried` | src/resources/trigger.rs:901-935 | after a failed execution the same hash is tried again; after any other checked run recorded = observed and the same hash is not |
| `TriggerRun.EnqueuedOncePerChange` | src/resources/trigger.rs:854-935 | over many runs no hash is enqueued twice in a row, and the last enqueued one is the recorded one |
| `TriggerRun.EveryChangeIsEnqueued` | src/resources/trigger.rs:854-935 | if no execution fails, the enqueued hashes are exactly the observed ones without immediate repetitions |
| `GlobHash.GetFileGlobHash` | src/resources/trigger.rs:1002-1020 | the digest of the digests of the files in path order; an error if and only if a file cannot be read |
| `GlobHash.CalcBufferHash` | src/resources/trigger.rs:996-1000 | the digest of one buffer |
| `GlobHash.ListingIsUnique` | src/resources/trigger.rs:1005-1008 | the sorted listing of a selection is unique, so directory order does not matter |
| `GlobHash.SameHashMeansSameContents` | src/resources/trigger.rs:1010-1019 | equal results for different content sequences yield a collision of the digest among the digested inputs |
| `GlobHash.EqualHashIffEqualContents` | src/resources/trigger.rs:1002-1020 | readable selections get equal results if and only if their contents in path order are equal, up to a collision of the digest among the digested inputs |
| `GlobHash.SameContentsIff` | src/resources/trigger.rs:1010-1019 | contents in path order are equal if and only if the two listings agree on them position by position, whatever the names |
| `GlobHash.RenameIsNotSeen` | src/resources/trigger.rs:1010-1019 | two selections with differently named files and one result |
| `GlobHash.AnyChangeIsSeen` | src/resources/trigger.rs:1002-1020 | editing, adding or removing one selected file changes the content sequence |
| `Scheduling.Controller.RunReconcile` | src/resources/trigger.rs:439-515 | the maps, the scheduler and the result of a reconcile, with any of its calls failing |
| `Scheduling.Controller.RunCleanup` | src/resources/trigger.rs:524-549 | the recorded schedule and the task of the trigger go, the task is cancelled, and nothing else changes |
| `Scheduling.CleanupForgets` | src/resources/trigger.rs:533-546 | after a cleanup nothing is recorded and nothing runs for the trigger |
| `Scheduling.ReconcileAfterCleanup` | src/resources/trigger.rs:443-514 | a reconcile after a cleanup never takes the early return: the trigger runs again if and only if its schedule is valid and the task can be added |
| `Scheduling.AtMostOneTask` | src/resources/trigger.rs:447-486 | in agreement, the tasks that run a trigger are exactly the one recorded for it |
| `Scheduling.BodyKeepsAgreement` | src/resources/trigger.rs:444-511 | a reconcile keeps the maps and the scheduler in agreement wherever it fails |
| `Scheduling.ReconcileIsIdempotent` | src/resources/trigger.rs:443-443 | after a successful reconcile the same spec changes nothing |
| `Scheduling.RevertAfterFailureIsIgnored` | src/resources/trigger.rs:483-511 | a failed reconcile followed by taking the change back leaves the unwanted schedule running and reports success |
| `SchedulingRuns.AlwaysInv` | src/resources/trigger.rs:439-549 | agreement in every interleaving, and a trigger is consistent with its recorded schedule if and only if no reconcile has done harm since |
| `SchedulingRuns.UninterruptedReconcile` | src/resources/trigger.rs:439-515 | the steps of a reconcile that nobody interrupts do what the controller does |
| `SchedulingRuns.UninterruptedCleanup` | src/resources/trigger.rs:524-549 | the steps of a cleanup that nobody interrupts do what the controller does |
| `SchedulingRuns.FailureHarmsIff` | src/resources/trigger.rs:447-511 | a failed reconcile leaves the trigger consistent if and only if it has added no task and no valid schedule was recorded, that is, there was no task to cancel |
| `SchedulingRuns.SuccessMeansSyncIff` | src/resources/trigger.rs:443-514 | in every reachable state, a successful reconcile leaves the trigger in sync with its spec if and only if another schedule was recorded or no reconcile has done harm since |
| `SchedulingRuns.SchedulerAgrees` | src/resources/trigger.rs:443-546 | each trigger has at most one running task, the recorded one; the live tasks are the recorded ones and those cancelled in vain; the `unwrap` in the cleanup does not fail |
| `SchedulingRuns.NothingRunsAfterCleanup` | src/resources/trigger.rs:533-546 | a finished cleanup leaves no task and no recorded schedule |
| `SchedulingRuns.StaysConverged` | src/resources/trigger.rs:443-514 | what runs is what is recorded (a task exactly for a valid schedule, built from it) if and only if no reconcile has done harm since; reconciling with the recorded schedule changes nothing |
| `Leadership.AlwaysInv` | src/bin/git-events-runner.rs:117-171 | only the generation that is still to be joined can be alive |
| `Leadership.OneGeneration` | src/bin/git-events-runner.rs:117-171 | at most one generation is alive, started as a leader; none when another one starts or once the lease is dropped; none starts after a shutdown was requested |
| `Leadership.ShutdownIsFinal` | src/bin/git-events-runner.rs:117-155 | once a signal has come or the lease channel has failed, no generation starts and the loop ends at its next turn; without that it never ends |
| `Leadership.JoinsAfterStop` | src/bin/git-events-runner.rs:157-166 | a generation is joined only after the stop was sent to it |
| `Leadership.HandOver` | src/bin/git-events-runner.rs:117-166 | a run in which the leadership is lost and gained again, and the controllers come back in a new generation |
| `Leadership.OneTaskPerTrigger` | src/controller.rs:216-264 | over all generations each trigger has at most one live task in the process, and none once the lease is dropped |
| `SecretsCache.Cache.GetKeyValue` | src/cache.rs:353-398 | a lookup answers from a live entry that has the key, and otherwise asks the API and stores the reply, until the timeout, only if the value could be taken from it; each failure has its error |
| `Wrappers.JoinKeyIdentifies` | src/cache.rs:354 | string keys stand for (namespace, name) pairs, since a namespace has no slash |
| `Wrappers.JoinKeyNeedsSlashFreeNamespaces` | src/cache.rs:354 | with slashes in namespaces two secrets could share a key |
| `SecretsCacheRuns.EntryOfSecret` | src/cache.rs:354-360 | the entry found under the string key of a secret is data of this secret |
| `SecretsCacheRuns.AlwaysInv` | src/cache.rs:353-398 | every entry and every answer is data of its secret at an API version that was current when it was read |
| `SecretsCacheRuns.BoundedStaleness` | src/cache.rs:360-397 | every value given out is the decoded value of exactly the requested key at the version of the API that was current when it was read; a cached one was read less than the timeout plus the duration of that fetch before |
| `SecretsCacheRuns.MonotoneReads` | src/cache.rs:358-397 | of two answers about a secret the later one is older only if it comes from the cache after a failed fetch; that pair goes back if and only if nothing was stored in between and the served reply was read before the failed fetch |
| `SecretsCacheRuns.FailedFetchIsForgotten` | src/cache.rs:383-397 | a run in which a failed fetch has seen a newer version than the cached value served after it |
| `ClonerArgs.GetGitrepoClonerArgs` | src/resources/action.rs:418-451 | the printed arguments |
| `ClonerArgs.CollectPrinted` | src/bin/gitrepo-cloner.rs:16-49 | the option values and flags that are collected from printed arguments |
| `ClonerArgs.RoundTrip` | src/bin/gitrepo-cloner.rs:108-134 | parsing printed arguments succeeds if and only if no value looks like an option, and gives back kind, names, reference and flags |
| `ClonerArgs.ConversionsNeverPanic` | src/bin/gitrepo-cloner.rs:108-134 | for any arguments that parse, exactly one reference is given, so both conversions succeed and agree with it |
| `ClonerArgs.ParsedIsGiven` | src/bin/gitrepo-cloner.rs:16-49 | every value of a parsed command line stands behind its option in the arguments |
| `ClonerArgs.ParsedIsAll` | src/bin/gitrepo-cloner.rs:16-49 | a parsed command line leaves no argument over, and none is given twice |
| `PathKeys.Format` | src/web.rs:180-198 | the displayed form of a key |
| `PathKeys.SplitThenJoin` | src/web.rs:229-229 | splitting a path loses nothing and leaves no slash in a part |
| `PathKeys.TriggerPaths` | src/web.rs:228-238 | the trigger extractor gives a namespace and a trigger if and only if the path reads so, with anything behind them |
| `PathKeys.SourcePaths` | src/web.rs:239-250 | the source extractor gives an explicit source if and only if the path has it as its third part |
| `PathKeys.ExtractorsAgree` | src/web.rs:225-263 | both extractors accept the same paths and agree on namespace and trigger; the global limit has one key for all paths |
| `PathKeys.TriggerKeyRoundTrip` | src/web.rs:228-238 | a key comes back from its displayed form if and only if it is one that the trigger extractor can produce |
| `PathKeys.SourceKeyRoundTrip` | src/web.rs:239-261 | the same for the source extractor, with and without an explicit source |
| `PathKeys.DisplayIsInjective` | src/web.rs:180-198 | different trigger and source keys are displayed differently |

## Left out

- JobsTheorems.BoundedOvershoot: assumes that fewer than 2^64 jobs are counted, so that the word read is not below the counter.
- SchedulingRuns.SchedulerAgrees: a task whose cancellation fails is kept apart and may stay alive, as in the code.
- Leadership.OneGeneration: the loop may run forever, so it is a step system and not a method; that the inner wait ends is not claimed.
- Relists of the watcher, and jobs without a status in the step system: the stream delivers every apply and delete. The handler itself also covers objects without a status.
- A finished job is never shown as unfinished again by the server in the step system; other status changes after finishing are allowed.
- Kubernetes client, admission of patches, finalizers: their results are nondeterministic.
- Recovery of the last run time and the delay of a schedule (src/resources/trigger.rs:457-470, 557-587): schedules are valid or not by an arbitrary predicate.
- Fetching of repositories, TLS and credentials: a source is observed or not.
- The digest (section 6.2 of FIPS 180-4), UTF-8 decoding, glob matching, cron and duration parsing: parameters.
- The error that an enqueue reports when the task has ended: its item is in the channel all the same and keeps waiting, as in the step system.
- Shutdown, which drops the task at an await point: the runs end before it.
- Jobs with the identity label but without the other labels, made or edited by others: the watch handler panics on them (src/jobs.rs:168-176).
- Short options, attached values, help and version of the cloner: the printed arguments do not use them.
- HTTP handlers, authorization, metrics other than the counter and the labels, rate-limit periods, CRD schemas and configuration files: short branches or plumbing.
