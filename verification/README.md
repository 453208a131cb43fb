# command-api, verified

command-api runs pre-configured scripts as supervised asynchronous tasks. This project models the
concurrent protocols at its centre and proves what they keep under every interleaving, every run
and every injected failure.

| file | models |
|---|---|
| `TaskModel.dfy` | statuses, stop reasons, terminations, snapshots, log lines |
| `Supervisor.dfy` | `start_task`, `run_task`, `stop_process`, `wait_for_force_kill`, `force_stop_process` as a state machine |
| `SupervisorInvariant.dfy` | its inductive invariant, and what one step may change |
| `SupervisorRuns.dfy` | concrete runs, put together step by step, that reach the states some theorems speak of |
| `SupervisorStory.dfy` | a run told as events, and what must follow from them |
| `SupervisorTheorems.dfy` | what every run of the supervisor guarantees |
| `SupervisorProgress.dfy` | the supervisor is never stuck |
| `SupervisorOutcomes.dfy` | every way to stop a task works |
| `TimedStop.dfy` | when a stop forces the process tree, in a timed model without faults |
| `OutputCapture.dfy` | the reader loops that share one byte budget |
| `Paging.dfy` | reading output by offset, while it grows and after the end |
| `EventLog.dfy` | the append-only log, crash recovery, restart, expiry, the task store |
| `Service.dfy` | admission, supervisors, cleanup and the drain of one generation, composed |
| `Drain.dfy` | when a wait succeeds, what a failed wait had seen, whether a drain can succeed |
| `Cleanup.dfy` | what leaves the task map, and when |
| `Refusals.dfy` | what a refused request leaves behind in a whole run |
| `Restart.dfy` | a drained generation, its disk, and the generation that opens it |
| `Generations.dfy` | management requests, external shutdown and the generation loop |
| `Cooldown.dfy` | the table of addresses in cooldown against the full history of failures |
| `TokenCache.dfy` | the set-once fingerprint cache in front of PBKDF2 |

## How the model is built

The protocols whose point is interleaving (supervisor, readers, pager, service, generations, token
verification) are step machines: a state, the actions that are ready in it, and the state after an
action. Every await point and every atomic operation of the source is a separate action, a
`select!` is a free choice among the ready branches, and the operation behind every `?` may fail. A run is
any sequence of ready actions. Theorems quantify over all initial states and all runs; the proofs
go through one inductive invariant per machine. `Service` and `Paging` embed the supervisor machine
itself, so their results speak about the same supervisor. `TaskStore`, `CooldownTable` and
`TokenVerifier` are classes whose methods update their fields in place.

The stop channel is one cell that senders overwrite. `notify_waiters` stores no permit, so a
notification between the load and the wait is lost. `captured_bytes` wraps at 2^64. The cast of the
retention from u64 to i64 is written out.

## What turned out not to hold

- After an unrequested exit the result of `wait_empty` is only looked at for a timeout
  (src/process/mod.rs:170), so an error of the query is ignored: a task can be published as Succeeded
  with its permits released although nobody saw its process tree empty.
  `SupervisorTheorems.IgnoredQueryErrorReleasesPermits` gives the run;
  `SupervisorTheorems.PermitsOutliveTree` proves that, unless `run_task` fails before it publishes,
  this is the only way.
- A UTF-16 client reaches the end of a finished output if and only if an even number of bytes lies
  before it and its limits, each rounded down to even, add up to that; so from offset 0 an output of
  odd size never reports `eof` (src/store.rs:196-212). `Paging.EndReachedIff`. It stands still exactly
  with limits of one byte. `Paging.StandsStillIff`.
- `eof` can come before the last bytes: when the first persist of `run_task` fails, the worker runs
  on and nobody joins its readers. `Paging.EofCanBeEarly` gives the run; `Paging.EofIsFinalIff` says
  exactly when `eof` is final.
- A retention of 2^63 seconds or more turns negative and expires tasks at once; tasks are safe from
  early expiry if and only if the retention fits in an i64. `EventLog.NoEarlyExpiryIffFits`.
- A failure can make the cooldown table forget another address in its cooldown: if and only if the
  pruned table is full and the entry evicted is another one (`Cooldown.CompleteIff`), and needlessly,
  with room left, if and only if the failing address was tracked already
  (`Cooldown.LossIsNeedlessIff`; an instance is `Cooldown.RepeatedFailureEvictsOther`).
- `output_truncated` is lost at a restart, and nothing else. `EventLog.RestartIsTransparent`;
  `EventLog.TruncationIsLost` gives the run.
- The service can give up its drain with nothing left to wait for: when the last task finishes and
  notifies after the second wait has looked at `active_count` and before it listens
  (src/store.rs:157-160). `Drain.LostWakeupBails` gives the run; `Drain.DrainSucceedsIff` proves that
  the drain can succeed from every state but these.
- A request that ends up refused may have made others be refused for the permit it held meanwhile.
  `Refusals.RefusedLeavesNoTraceIff` proves that this is the only trace it can leave;
  `Refusals.RefusalCanDisturb` gives the run.

## Model

| member | source | states |
|---|---|---|
| `SupervisorInvariant.StepKeepsSafe` | src/process/mod.rs:47-353 | every step of clients, readers, clock, process tree or supervisor, failing or not, keeps the invariant, moves the snapshot only forward, appends only whole snapshots to the log, gives permits back only once |
| `SupervisorInvariant.RunKeepsSafe` | src/process/mod.rs:47-353 | the invariant holds after every run, and between its ends the snapshot has only moved forward |
| `SupervisorTheorems.StatusOnlyMovesForward` | src/process/mod.rs:55-70 | between any two moments of any run the status moves forward along Starting, Running, Stopping, terminal; a terminal snapshot is never replaced; `finished_at` is set exactly on terminal snapshots; identity, creation and start of the task never change |
| `SupervisorTheorems.FinalStatusAgrees` | src/process/mod.rs:168-228 | the status and the termination that `run_task` publishes determine each other in both directions, also after an escalation in the middle of a graceful stop and also if the last persist fails; Killed implies forced; any other terminal status is the Failed of a supervisor error |
| `SupervisorTheorems.PublishedRecordIsTrue` | src/process/mod.rs:118-228 | the published exit code is the worker's, `started_at` is set, `forced` and `graceful_attempted` are recorded exactly when those signals were sent; TimedOut only after the deadline has passed |
| `SupervisorStory.TerminationFollowsStory` | src/process/mod.rs:126-208 | the recorded termination is the one the events call for: the first decision fixes the reason, a kill read during grace overrides it, force is recorded exactly for a kill, a grace period that ran out, or a tree that outlived the deadline |
| `SupervisorStory.ReasonWasSent` | src/process/mod.rs:126-166 | every reason acted on or recorded, but Timeout, was requested in this run, reported by a failing reader, or is a kill sent before the supervisor subscribed |
| `SupervisorStory.TimeoutWasDue` | src/process/mod.rs:125-138 | Timeout is acted on at least the configured execution time after the status Running was persisted |
| `SupervisorStory.StampsFollowStory` | src/process/mod.rs:118-123 | `started_at` and `finished_at` are the stamps of the steps that started the task and made it terminal |
| `SupervisorTheorems.DecisionIsObeyed` | src/process/mod.rs:126-166 | a decision of the main loop (worker exit, deadline, the value just read) is the one published later, at most overridden by a kill or a late timeout |
| `SupervisorTheorems.KillIsObeyed` | src/process/mod.rs:264-304 | after a read of ForceKilled during a graceful stop, a published task is Killed, forced, after a graceful attempt |
| `SupervisorProgress.CanAlwaysFinish` | src/process/mod.rs:47-353 | from every state of every run the supervisor can reach its end without a further fault, request or timer, and publishes if nothing has failed so far |
| `SupervisorOutcomes.EveryExitWorks` | src/process/mod.rs:193-228 | for every configuration and exit status there is a run that publishes that exit |
| `SupervisorOutcomes.EveryStopWorks` | src/process/mod.rs:126-208 | for every configuration and every reason but a reader's failure there is a run that ends with that reason and its status, without force unless asked for |
| `SupervisorOutcomes.GraceCanRunOut` | src/process/mod.rs:264-304 | and one in which the grace period runs out and the stop is forced |
| `SupervisorOutcomes.KillInGraceWorks` | src/process/mod.rs:264-300 | and one in which a kill overrides it during the grace period |
| `SupervisorOutcomes.LateTimeoutWorks` | src/process/mod.rs:168-191 | and one in which the tree outlives the worker beyond the deadline |
| `SupervisorTheorems.NoLoggingFailureAtTheEnd` | src/process/mod.rs:193-208 | once all readers are joined, no stop reason is LoggingFailure |
| `SupervisorTheorems.ReaderFailureEndsFailed` | src/process/mod.rs:393-407 | a failed reader ends the task as Failed whatever stop reasons raced with it; the final choice never sees LoggingFailure |
| `SupervisorTheorems.NeverPolledAgain` | src/process/mod.rs:264-304 | the worker-exit and force-request futures are never polled after completing, `expect` never meets None, the tree is signalled and forced at most once each |
| `SupervisorTheorems.PermitsOutliveTree` | src/process/mod.rs:168-213 | a terminal task holds no permit; unless `run_task` fails before it publishes, permits released with the tree not seen empty means exactly that the late query of the tree failed |
| `SupervisorTheorems.IgnoredQueryErrorReleasesPermits` | src/process/mod.rs:168-191 | the run in which that happens |
| `SupervisorTheorems.LogEndsWithMemory` | src/store.rs:319-341 | the log is a forward-only history of the task, and ends in what memory holds when the supervisor has finished and no persist failed |
| `TimedStop.RunIsTimely` | src/process/mod.rs:232-353 | the timing invariant of one call of `stop_process` along every urgent run |
| `TimedStop.StopProcessIsPrompt` | src/process/mod.rs:241-304 | the tree is forced at most once, by the end of the grace period and not later, earlier only because ForceKilled was read; never forced means worker exit and empty tree were seen; an initial ForceKilled forces at once and skips the graceful step |
| `TimedStop.KillIsPrompt` | src/process/mod.rs:264-300 | a kill read during the grace period forces the tree at the time of that read, once |
| `OutputCapture.StepKeepsInv` | src/process/mod.rs:420-435 | each atomic operation of any reader keeps the accounting between granted budget, files, counters and the truncation mark |
| `OutputCapture.FilesStayWithinBudget` | src/process/mod.rs:411-437 | at every moment of every interleaving, also after I/O errors, the files total at most min(limit, captured) and each is a prefix of its stream |
| `OutputCapture.CaptureIsExact` | src/process/mod.rs:411-437 | when every reader has ended, the files hold exactly min(limit, bytes read) bytes, counters are file lengths, truncated if and only if more than the limit was read |
| `OutputCapture.EveryInterleavingIsExact` | src/process/mod.rs:411-437 | the same for every interleaving of any number of readers |
| `OutputCapture.CaptureStreams` | src/process/mod.rs:411-437 | the loops under an arbitrary scheduler and arbitrary chunk sizes terminate with exactly that result |
| `Paging.ReadLength` | src/store.rs:192-201 | never past the limit or the end, even for UTF-16, and short of both only for one odd byte |
| `Paging.OutputChunk` | src/store.rs:172-217 | exactly when a chunk is returned, its bytes as a slice of the file, its next offset, `eof`, and each refusal |
| `Paging.CollectedIsPrefix` | src/store.rs:192-212 | over any chain of calls interleaved with appends and supervisor steps, the collected bytes are exactly the file up to the offset |
| `Paging.EofIsFinal` | src/store.rs:192-212 | on runs without supervisor error, and whenever `run_task` published, `eof` means that the collected bytes are the complete output, now and after any continuation |
| `Paging.EofIsFinalIff` | src/store.rs:192-212 | on all runs: after `eof`, the collected bytes are the whole file after every continuation if and only if the client stands at its end and no reader can write to it any more |
| `Paging.EofComesIff` | src/store.rs:192-212 | on a terminal task whose file nobody writes any more, `eof` can still come if and only if what is left is whole code units |
| `Paging.EofCanBeEarly` | src/process/mod.rs:118-123 | the run in which the first persist fails after the worker was spawned and a client is told `eof` while bytes are still to come |
| `Paging.PagingIsExact` | src/store.rs:192-212 | from any offset with any limits, a chain of calls on a finished file stands exactly where its limits, rounded down to whole code units, carry it, or at the last whole code unit |
| `Paging.EndReachedIff` | src/store.rs:192-212 | the end is reached if and only if the rest is whole code units and the rounded limits cover it |
| `Paging.PagingReachesEnd` | src/store.rs:192-212 | as many calls as bytes, with limits of at least one code unit, reach the last whole code unit |
| `Paging.StandsStillIff` | src/store.rs:196-199 | a UTF-16 client with a code unit to read stands still exactly when all its limits are below two |
| `Paging.FetchChain` | src/store.rs:172-217 | the loop over `OutputChunk` with arbitrary legal limits, mixed freely: exact data, next offset and `eof` |
| `Paging.FetchAll` | src/store.rs:172-217 | a client loop over `OutputChunk` with limits of its choice terminates with the whole file (UTF-16: its even part) |
| `EventLog.LastRecordIsLatest` | src/store.rs:405-420 | the reference reading of a log is its last parsable line |
| `EventLog.LatestIsUnique` | src/store.rs:405-420 | there is only one such line |
| `EventLog.ReadLatestSnapshot` | src/store.rs:405-420 | the forward scan finds that line; a missing file gives none, an unreadable one an error |
| `EventLog.CrashRecovery` | src/store.rs:232-256 | the log of any run, cut after any append, recovers as the last line if terminal (which is also what memory holds), else field by field as that line with status Interrupted, finished at the moment of recovery, with the restart error, but for `output_truncated` |
| `EventLog.RecoveryIsExact` | src/store.rs:232-256 | the same for any log, corrupt lines included, and what recovery appends to it |
| `EventLog.BlocksIff` | src/store.rs:236-252 | what makes recovery of an entry fail |
| `EventLog.RecoverAgainAndAgain` | src/store.rs:232-256 | however often and whenever the service restarts again, every recovery shows what the first one showed |
| `EventLog.RestartIsTransparent` | src/store.rs:290-341 | a finished supervisor whose persists succeeded is shown by the next generation as it was seen last, but for `output_truncated`, and in that too exactly when the output was not truncated |
| `EventLog.TruncationIsLost` | src/store.rs:290-308 | a run in which every persist succeeds and the truncation mark is lost |
| `EventLog.ExpiresExactlyAfterRetention` | src/store.rs:262-272 | for a retention up to the i64 maximum, expiry means exactly that the full period has passed |
| `EventLog.NoEarlyExpiryIffFits` | src/store.rs:262-272 | no early expiry if and only if the retention fits in an i64 |
| `EventLog.RecoverEntry` | src/store.rs:236-253 | one directory entry: when it fails, what record it yields, what it appends |
| `EventLog.TaskStore.Recover` | src/store.rs:232-256 | recovery succeeds if and only if the directory can be listed to its end and no entry blocks it; then every recoverable task is in memory and the logs are as recovery leaves them; always, every task in memory comes from its own log |
| `EventLog.TaskStore.RequestStop` | src/store.rs:134-143 | a stop value is accepted exactly for a task in memory that is not terminal, and overwrites the one before |
| `EventLog.TaskStore.CancelAll` | src/store.rs:145-152 | the value reaches every task that is not terminal, and no other |
| `EventLog.RecoveryIsDetermined` | src/store.rs:232-256 | when directories carry the ids of their tasks, the result does not depend on their order |
| `EventLog.TaskStore.Open` | src/store.rs:74-76 | recovery and first cleanup leave in memory exactly the unexpired recoverable tasks |
| `EventLog.TaskStore.FindExpired` | src/store.rs:258-274 | the scan collects exactly the expired tasks |
| `EventLog.TaskStore.CleanupExpired` | src/store.rs:258-286 | exactly the expired tasks and their deletable directories are dropped, nothing else changes |
| `Service.StepKeepsInv` | src/app.rs:224-268 | every step of requests, supervisors, cleanup and drain keeps permit and counter accounting |
| `Service.PermitConservation` | src/app.rs:224-268 | at every moment free plus held permits equal the configured limit, globally and per route; a terminal task holds none |
| `Service.RefusedIffFull` | src/app.rs:224-240 | at any moment of any run a request is refused at a semaphore if and only if as many entries as its limit hold a permit |
| `Service.CreationIsFaithful` | src/store.rs:84-123 | a request becomes a supervised task with the snapshot and route it was created with, counted once, and with the last stop value sent to it |
| `Service.RefusalRestoresPermits` | src/app.rs:224-256 | a request refused at either semaphore, or whose record cannot be created, leaves both semaphores as it found them |
| `Refusals.RefusedLeavesNoTraceIff` | src/app.rs:224-256 | over every run: the same run without a refused request is possible and ends in the same permits, tasks and counters, if and only if no other request was refused for a permit that only it held |
| `Refusals.RefusalCanDisturb` | src/app.rs:224-256 | with one global permit another request is refused on account of one that then fails |
| `Service.RunningTasksWithinLimits` | src/process/mod.rs:186-213 | tasks whose tree is not confirmed empty (no supervisor error, no ignored query error) never exceed the global or the route limit |
| `Service.ActiveCountIsExact` | src/store.rs:84-123 | `active_count` is the number of counted tasks that have not called `mark_finished`, and never underflows |
| `Service.DrainIsSafe` | src/store.rs:154-170 | a successful drain leaves every task in memory terminal and every permit free, even if persists failed; tasks whose persists succeeded recover as they were seen |
| `Drain.LoadIsExact` | src/store.rs:154-165 | a look at `active_count` ends the wait with success if and only if no counted task is left |
| `Drain.FailedWaitHadTask` | src/store.rs:154-165 | a wait that times out had an unfinished task when it began and still had one at its last look |
| `Drain.BailsAfterTwoWaits` | src/runtime.rs:117-130 | the service gives up exactly after two failed waits, and escalates after the first |
| `Drain.EveryFinishNotifies` | src/store.rs:167-170 | every task that finishes notifies once |
| `Drain.DrainSucceedsIff` | src/runtime.rs:117-130 | at any moment after the servers have stopped the drain can succeed, if and only if the second wait has neither failed nor lost its last wakeup |
| `Drain.OneTaskDrains` | src/runtime.rs:117-130 | a task active at the start of the first wait finishes during it and the service drains |
| `Drain.LostWakeupBails` | src/store.rs:154-165 | a wakeup lost in the second wait makes the service give up with nothing active |
| `Drain.EmptyWaitSucceeds` | src/store.rs:154-165 | a wait that begins with nothing active never times out: it has succeeded, or does at its next look |
| `Cleanup.CleanupSparesLiveTasks` | src/store.rs:258-286 | between any two moments of any run, a task that left the task map left it by a cleanup step that removed it alone, terminal and past retention |
| `Cleanup.RemovedStaysRemoved` | src/store.rs:276-284 | a removed task is never listed again |
| `Cleanup.ExpiredCanBeRemoved` | src/store.rs:258-286 | cleanup can remove a listed task if and only if it is terminal and past retention, and then nothing else changes |
| `Restart.GenerationContinues` | src/runtime.rs:117-143 | over every run of a generation that drains, the store opened on its disk gives a proper initial state whose disk matches again; every fully persisted task is there exactly if unexpired, as clients saw it last but for `output_truncated` |
| `Restart.OpenNext` | src/store.rs:53-78 | opening the store on the disk of a drained service: when it succeeds, and that the next generation continues from it |
| `Generations.StepKeepsInv` | src/app.rs:420-440 | compare-and-swap, one-slot send, the watcher's choice and the loop keep the one-holder invariant |
| `Generations.WinnerFindsSlotEmpty` | src/app.rs:420-440 | whoever wins the compare-and-swap finds the slot empty |
| `Generations.OneActionPerGeneration` | src/app.rs:393-440 | at most one accepted action per generation, no send meets a full slot, the logging directory never changes and the loop never bails over it |
| `Generations.AcceptedIff` | src/app.rs:393-440 | an answered request was accepted, for just what it asked, if and only if it keeps the directory, found the flag free at its compare-and-swap and the receiver open at its send |
| `Generations.StopsAfterRestarts` | src/runtime.rs:135-144 | any number of restarts and then a stop can be carried out one after the other |
| `Generations.ShutdownCanEnd` | src/runtime.rs:93-105 | an external shutdown can end any generation |
| `Generations.AcceptedIsCarriedOut` | src/runtime.rs:93-114 | a generation ends by the action it accepted unless external shutdown was chosen |
| `Generations.ExternalShutdownEnds` | src/runtime.rs:135-144 | after the external signal at most one further generation starts and it ends by Stop; every earlier one ended by a restart that kept the directory |
| `Cooldown.RecordFollowsRecency` | src/app.rs:181-194 | an address left untracked in its cooldown expires no later than any tracked one |
| `Cooldown.RecordKeepsFaithful` | src/app.rs:181-194 | recording keeps the table bounded, exact on tracked addresses and ordered by recency, against the full history |
| `Cooldown.CompleteIff` | src/app.rs:181-194 | recording a failure loses no address in its cooldown if and only if the pruned table has room or the entry evicted is that of the failing address |
| `Cooldown.LossIsNeedlessIff` | src/app.rs:187-193 | a loss leaves room in the table if and only if the failing address was tracked already |
| `Cooldown.RepeatedFailureEvictsOther` | src/app.rs:187-193 | for every cooldown length, a table exact and complete on a history of two failures forgets one address when the other fails again |
| `Cooldown.Insert` | src/app.rs:181-194 | prune, evict an oldest entry of a full table, insert |
| `Cooldown.CooldownTable.CooldownRemaining` | src/app.rs:162-179 | a refusal happens only within the cooldown of the latest failure, names its remaining time rounded up, in 1..seconds; as long as the table has forgotten nobody, every address in cooldown is refused |
| `Cooldown.CooldownTable.RecordAuthFailure` | src/app.rs:181-194 | the table stays faithful to the longer history |
| `TokenCache.TokenVerifier.Verify` | src/secret.rs:53-84 | one call: the SHA-256 answer; or the cached or PBKDF2 answer, which under collision-freedom is the uncached one; what the cache holds afterwards |
| `TokenCache.CacheAnswers` | src/secret.rs:53-84 | a filled cache answers like PBKDF2 under collision-freedom |
| `TokenCache.CachedEqualsUncached` | src/secret.rs:53-84 | for all interleavings, including first verifications that race, cached answers equal uncached ones if and only if the digests are collision-free on accepted tokens |
| `TokenCache.CacheIsSetOnce` | src/secret.rs:70-82 | once filled the cache never changes |
| `TokenCache.FilledIffAccepted` | src/secret.rs:70-82 | the cache is filled exactly when some call has been told that its token is right |

## Left out

- The supervisor, the service and the generation loop are modelled on values, as step machines: update in place and aliasing of the shared records are not captured, the order of all steps is.
- Real signals, Job Objects and process groups: `graceful`, `force` and `wait_empty` are environment steps.
- HTTP routing, JSON and YAML, TLS, logging setup, the command line, Windows Service and DPAPI.
- src/config.rs and the worker's argument construction: limits, retention and routes enter as parameters, and what the worker executes does not affect how it is supervised.
- Text decoding, byte-order marks and base64 of chunks: paging is stated on raw bytes.
- Torn or non-UTF-8 last lines of a log and the file lock between generations: appends are whole lines.
- Panics inside supervisors and of the blocking PBKDF2 job; the receiver end closing by itself in the watcher of src/runtime.rs:93-105.
- Method, signal and message texts of a termination, and error texts, which are modelled by their kinds.
- Whether an accepted stop decides the final status: the worker's exit may win the choice and a later reason may overwrite an earlier one.
- Prompt wake-up of `wait_until_idle`: a lost notification can delay it to its timeout, and fail the second wait.
- Sizes reported in task views and their refresh from the file system.
- OutputCapture.EveryInterleavingIsExact: does not speak about 2^64 or more bytes of output, where the shared counter wraps.
- OutputCapture.CaptureStreams: the same bound.
- Restart.GenerationContinues: takes the files on disk to hold the lines that supervisors appended, and other directories to hold well-formed logs of the task they are named after.
- Service.DrainIsSafe: the drain begins with no `create` in flight, which the graceful shutdown of the HTTP server provides.
- Cooldown.CooldownTable.CooldownRemaining: clock readings are taken in the order of the lock.
- EventLog.TaskStore.Recover: which record wins when two directories hold logs of the same task id is left to the order of the directory entries.
- TimedStop.StopProcessIsPrompt: assumes that I/O takes no time and does not fail; it does not say that the worker exits after the force.
- Paging.OutputChunk: file sizes fit in a usize, so the cast at src/store.rs:196 is exact.
