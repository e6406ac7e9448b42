# Retail hub: protocols, ratchets and graph tools, verified

A Dafny model of the parts of the retail hub whose correctness depends on interleavings, crashes
or unbounded chains rather than on one branch:

* the bounded error-log sink (`ErrorLogHandler`, `ErrorLogSink`, `ErrorLogDelivery`) and the JSON
  truncation beside it
  (`BoundedJson`),
* refreshing a browser session from many processes over a shared store (`SessionRefresh`,
  `SessionReplacement`, `SessionAdmission`),
* the migration engine with its recovery sentinels (`NameOrder`, `MigrationHistory`, `MigrationCrash`),
* the signing-key cache (`JwksVerifier`, `JwksCache`, `JwksAnswers`),
* the rate-limit window script (`RateLimit`),
* the import-cycle visit, the reverse import closure and the test selection built on it
  (`ImportCycles`, `ImportClosure`, `TestSelection`),
* the complexity contract, the production tag and the merge gate (`ComplexityRatchet`,
  `ProductionTag`, `MergeGate`, `MergeGateVerdicts`).

How it is laid out. Objects whose fields the source updates in place are classes; each method is
proved to carry out a specification function on the object's view, and the concurrent systems are
step machines built from those same functions; each `Drive` runs such a machine through the object's
own methods and ends with the theorems about the object. A step is what the source does between two awaits,
two lock acquisitions or two commits. `Possible(s, steps)` says that a list of steps can be
performed from a state and `Run(s, steps)` is where it ends, so a theorem about `Run` is a theorem
about every interleaving. Loops are methods with invariants; what only computes is a function.

`dafny verify dfyconfig.toml` checks the whole project.

Behaviour a reader may not expect, each stated exactly:

* A promotion that loses the ref race may be reported as `created` over the winner's run ids
  (`ProductionTag.LoserIsReportedCreated`). When nobody else works with a call's runs, its own runs
  are recorded exactly when the tag does not exist at the moment the call writes the ref
  (`ProductionTag.CreatedRecordsOwnRunExactly`, `ProductionTag.OwnRunRecordedExactly`).
* The complexity contract lets a lock be recorded before its function exists, and the function may
  then appear above the threshold although no release measured it
  (`ComplexityRatchet.LockMayPrecedeFunction`). That can happen next exactly when some function is
  above the threshold now and the contract holds an unused lock above it
  (`ComplexityRatchet.UnmeasuredAppearsExactly`, `ComplexityRatchet.NeverMeasuredAppearsExactly`).
* Two refresh owners overlap only once one of them has outlived its lock, whatever the timing
  (`SessionRefresh.OverlapNeedsOutlived`); `SessionRefresh.LateOwnerOverlaps` is a run in which that
  happens. With timely replies nobody outlives a lock (`SessionRefresh.AtMostOneOwner`).
* An owner does not look at the stored session again once it has the lock, so it may store over a
  newer, fresh session what it made from an older one, with nobody late
  (`SessionReplacement.NewerSessionIsReplaced`). A store lands on another session than its request
  read exactly when some store has landed since that read (`SessionReplacement.ReplacesAnotherExactly`);
  with timely replies, and no abandoned store landing under the lock, exactly when that was already
  so when the request got the lock (`SessionReplacement.SecondLookWouldShow`).
* A half-open interval one window long admits at most `2 * limit - 1` requests, and `2 * limit` when
  both its end points count (`RateLimit.IntervalAdmitsUnderTwiceLimit`); both numbers are reached
  (`RateLimit.HalfOpenBoundIsReached`, `RateLimit.ClosedBoundIsReached`).
* The recovery sentinel of an online migration that is not a controlled index statement stays: the
  tools clear a sentinel exactly when it belongs to a controlled one
  (`MigrationCrash.SentinelClearsExactly`), and a first run cut off at the wrong moment leaves one
  that does not (`MigrationCrash.StuckSentinelIsReached`).

## Model

| member | source | states |
|---|---|---|
| ErrorLogHandler.CountAllExact | backend/logging_config.py:600-606 | counting distinct events not counted before adds each of them once to the set and to the metric |
| ErrorLogHandler.DbErrorHandler.constructor | backend/logging_config.py:388-438 | an attached handler accepts, has an empty bounded queue and is in generation 1 |
| ErrorLogHandler.DbErrorHandler.EnqueueEvent | backend/logging_config.py:491-512 | new state and outcome are the enqueue section: queued in order, or dropped for the right reason when closed, missing or full |
| ErrorLogHandler.DbErrorHandler.EnqueueScheduledEvent | backend/logging_config.py:514-524 | a callback of an older generation changes nothing, a current one gives back its pending slot and enqueues |
| ErrorLogHandler.DbErrorHandler.AdmitCallback | backend/logging_config.py:549-565 | a callback is admitted exactly when the sink accepts, the generation is current and a slot is free |
| ErrorLogHandler.DbErrorHandler.SchedulingFailed | backend/logging_config.py:567-580 | a refused schedule takes the slot back only within its own generation and reports the drop |
| ErrorLogHandler.DbErrorHandler.CountShutdownEvent | backend/logging_config.py:600-606 | an event enters the shutdown count once |
| ErrorLogHandler.DbErrorHandler.GiveUpOnCallbacks | backend/logging_config.py:670-676 | outstanding callbacks are written off and their generation is closed |
| ErrorLogHandler.DbErrorHandler.DrainQueue | backend/logging_config.py:682-689 | the drain loop empties the queue and counts exactly what was in it |
| ErrorLogHandler.DbErrorHandler.Finish | backend/logging_config.py:707-718 | the final reset opens a new generation and clears queue, counter and in-flight event |
| ErrorLogHandler.DbErrorHandler.TakeNext | backend/logging_config.py:585-588 | the consumer takes the oldest event and keeps it in flight |
| ErrorLogHandler.DbErrorHandler.PutDown | backend/logging_config.py:589-598 | nothing is in flight afterwards; a cancelled event is counted once, if the sink is closing |
| ErrorLogHandler.DbErrorHandler.StopAccepting | backend/logging_config.py:650-655 | detach stops accepting and marks the sink as closing |
| ErrorLogSink.Perform | backend/logging_config.py:491-718 | every step of the concurrent system, carried out through the handler's own methods, leaves the handler in the system's next state |
| ErrorLogSink.Drive | backend/logging_config.py:385-718 | a handler driven through any interleaving has its counters within bounds, an exact shutdown metric, and nothing left after detach |
| ErrorLogDelivery.DeliveredExactly | backend/logging_config.py:491-524 | in every interleaving an on-loop emit while the sink accepts, and a callback of the current generation even during detach, append their event to the queue exactly when there is room; an older callback does nothing |
| ErrorLogDelivery.AdmittedExactly | backend/logging_config.py:549-565 | in every interleaving an emit off the loop gets its callback exactly while the sink accepts, in the generation it saw, with fewer than `queue_size` live callbacks; otherwise the event is reported |
| ErrorLogDelivery.StepReportsOnly | backend/logging_config.py:440-461 | an event is reported, and the other metric counts, exactly at the steps with a cause: refused, full, scheduling raised, formatting or persisting failed |
| ErrorLogDelivery.OtherDropsAreExact | backend/logging_config.py:440-636 | in every interleaving the other metric is the number of such steps |
| ErrorLogDelivery.EverythingIsPersisted | backend/logging_config.py:526-718 | when no wait times out and no step gives up an event, every finished event is persisted once detach has returned |
| ErrorLogDelivery.EventCanBePersisted | backend/logging_config.py:526-718 | the run in which an event makes the whole way from an emit off the loop to the database |
| ErrorLogSink.StepKeepsInv | backend/logging_config.py:491-718 | every step of producers, callbacks, consumer and detach keeps the bookkeeping invariant: one place per event, counters equal to set sizes |
| ErrorLogSink.LiveCallbackFindsQueue | backend/logging_config.py:491-524 | a callback that passes the generation check always finds the queue, so the shutdown branch for a missing queue is dead |
| ErrorLogSink.NoSilentLoss | backend/logging_config.py:491-718 | in every interleaving each materialised event is in its emit call, pending, queued, in flight, persisted or counted; pending and queue stay within the size |
| ErrorLogSink.DetachLeavesNothingBehind | backend/logging_config.py:646-718 | after detach every event whose emit is over was persisted or counted, a late emit is refused and reported, nothing is pending, queued or in flight |
| ErrorLogSink.ShutdownDropsAreExact | backend/logging_config.py:600-718 | the shutdown metric equals the number of distinct events written off: none missed, none counted twice |
| ErrorLogSink.FirstInFirstOut | backend/logging_config.py:507-512 | the consumer takes events in the order they were accepted, with no gap; before a drain accepted is taken plus queued |
| ErrorLogSink.TimelyDetachDropsNothing | backend/logging_config.py:646-718 | a detach in which no wait times out has no shutdown drop, and at its end every finished event was persisted or reported |
| BoundedJson.BoundedDump | backend/logging_config.py:128-151 | the value itself if it fits, else the longest preview an exhaustive search would find, else the bare object; within the limit exactly when the value or the bare object fits |
| BoundedJson.PreviewGrows | backend/logging_config.py:137-150 | a longer prefix needs strictly more room, at least one character each, which is what makes the binary search right |
| BoundedJson.ReadStringInvertsEscape | backend/logging_config.py:118-125 | reading an escaped string literal gives back the text and what follows it |
| BoundedJson.EscapedLength | backend/logging_config.py:118-125 | a printable character is written as itself, a quote, a backslash and five named control characters as two, any other control character as six |
| BoundedJson.PreviewReadsBack | backend/logging_config.py:137-150 | a truncation object is valid JSON whose preview reads back as the exact prefix |
| RateLimit.WindowStore.Check | backend/rate_limit_store.py:12-66 | the stored window and the decision are one execution of the script |
| RateLimit.PlayInv | backend/rate_limit_store.py:12-30 | after any history the stored count is the number of admissions of its window, which are spaced a window apart |
| RateLimit.WindowAdmitsAtMostLimit | backend/rate_limit_store.py:12-30 | over every request history with a non-decreasing clock no window admits more than the limit |
| RateLimit.IntervalAdmitsUnderTwiceLimit | backend/rate_limit_store.py:12-30 | any interval one window long admits at most 2 * limit - 1 when half-open and 2 * limit when closed |
| RateLimit.ReplyIsExact | backend/rate_limit_store.py:22-29 | a reply names exactly the room left in its window and the time to its end, and refuses only from a full window |
| RateLimit.ClosedBoundIsReached | backend/rate_limit_store.py:12-30 | for every limit and window, a history with twice the limit between two moments one window apart |
| RateLimit.HalfOpenBoundIsReached | backend/rate_limit_store.py:12-30 | for every limit and every window of two milliseconds or more, a history with one less than twice the limit in a half-open interval |
| RateLimit.ServeHistory | backend/rate_limit_store.py:51-66 | serving a whole history through the store gives decisions that are all truthful: each allows exactly a request that is counted, names the room left in the window and, in whole seconds, the time to its end |
| RateLimit.DecisionsAreTruthful | backend/rate_limit_store.py:12-66 | the same for the decisions made of any history's replies |
| RateLimit.AllowedInWindowAreBounded | backend/rate_limit_store.py:12-66 | truthful decisions allow no more than the limit from the start of a window to its end |
| RateLimit.AllowedInIntervalAreBounded | backend/rate_limit_store.py:12-66 | truthful decisions allow at most 2 * limit - 1 requests in a half-open interval one window long, and 2 * limit in a closed one |
| RateLimit.ExpiryChangesNoDecision | backend/rate_limit_store.py:16-28 | whether and when expired keys are evicted changes no reply, no admission and no stored window |
| RateLimit.WaitingReachesRollover | backend/rate_limit_store.py:22-66 | waiting the rounded-up retry seconds reaches the rollover, by less than a second, and the next request is admitted |
| ImportCycles.FindCycles | scripts/check_backend_architecture.py:276-296 | terminates; reports nothing exactly when the graph is acyclic; every report is a real closed walk repeating only its end points; every cycle of the graph shares an edge with a reported one |
| ImportCycles.CycleCheck.Visit | scripts/check_backend_architecture.py:280-293 | terminates, keeps stack, visiting and visited consistent, restores the stack, keeps earlier reports, and has either finished the node or reported the edge to it |
| ImportCycles.CycleCheck.VisitTargets | scripts/check_backend_architecture.py:288-289 | visits every import target: each is finished or the edge to it reported |
| ImportCycles.CycleCheck.ReportCycle | scripts/check_backend_architecture.py:281-284 | appends one path and keeps the others: a closed walk of the graph from the earlier occurrence of the node on the stack back to it |
| ImportCycles.WalkDescends | scripts/check_backend_architecture.py:288-293 | along a walk without a reported edge the position in the finishing order falls by at least one per step |
| ImportCycles.CyclesAreTouched | scripts/check_backend_architecture.py:276-296 | with a duplicate-free finishing order that puts imports first except along reported edges, every closed walk has a reported edge |
| ImportClosure.ReverseGraph | scripts/pr_fast_select_tests.py:642-649 | the reverse graph holds exactly the importers of each production module |
| ImportClosure.ReverseClosure | scripts/pr_fast_select_tests.py:652-664 | the worklist terminates with exactly the modules that have an import chain to a start |
| TestSelection.ImpactedModules | scripts/pr_fast_select_tests.py:1179-1194 | exactly the transitive importers of changed modules and the direct imports of changed modules |
| TestSelection.ImportingTests | scripts/pr_fast_select_tests.py:1202-1234 | an indexed test is listed exactly when it parses and imports an impacted module, once each |
| TestSelection.AddChangedTests | scripts/pr_fast_select_tests.py:1236-1254 | every changed test module is listed, nothing else is added, nothing is listed twice |
| TestSelection.ChangedTestsOnly | scripts/pr_fast_select_tests.py:1160-1177 | a test-only diff lists the changed test files one to one |
| TestSelection.SelectTests | scripts/pr_fast_select_tests.py:1091-1280 | SELECTED means 1 to 120 distinct files containing every test with an import chain to a changed module and no unneeded one; a changed trust surface, a deleted test, a deleted production file and a dynamic import each escalate; every other state exactly from its cause |
| SessionRefresh.SharedEntries.SetLockIfAbsent | backend/session_auth.py:274-280 | takes the lock exactly when none is live, for fifteen seconds |
| SessionRefresh.SharedEntries.ReleaseRefreshLock | backend/session_auth.py:218-232 | removes the lock only if it still holds the caller's token |
| SessionRefresh.SharedEntries.DeleteSessionIfUnchanged | backend/session_auth.py:235-254 | removes the session only if it is still the given ciphertext, and says whether it did |
| SessionRefresh.SharedEntries.StoreSession | backend/session_auth.py:213-215 | replaces the stored ciphertext |
| SessionRefresh.UpdateKeepsIdentity | backend/session_runtime_helpers.py:26-37 | the updated record keeps subject, issuer and CSRF token exactly when the continuity check passes |
| SessionRefresh.IdentityNeverChanges | backend/session_auth.py:299-308 | in every run, every record ever made keeps the subject, issuer and CSRF token of the callback, and requests authenticate only with stored records |
| SessionRefresh.FailureDeletesOnlyWhatItRead | backend/session_auth.py:356-402 | a failing request deletes the session exactly when it is the ciphertext that request read, and touches nothing else |
| SessionRefresh.NewerSessionSurvives | backend/session_auth.py:376-402 | a session made after a request's read survives that request's failure in every interleaving |
| SessionRefresh.LetInOnFreshOrRefreshed | backend/session_auth.py:356-402 | in every run a request is let in only on the stored session while it is fresh, on the outcome of its own refresh, or on that of the task of its own process it joined |
| SessionAdmission.LetInByExpiryExactly | backend/session_auth.py:356-402 | in every run a request that looks at the session is let in exactly when the stored record's numeric `exp` is more than sixty seconds away; otherwise a first look leads to a refresh and a last one to a refusal |
| SessionAdmission.RefreshedRecordIsExact | backend/session_auth.py:304-307 | a refreshed record carries every new claim, its expiry among them, and the rotated refresh token if one came; every other field is as it was |
| SessionAdmission.FailureCanEndSession | backend/session_auth.py:274-390 | the run in which a failed refresh releases, looks again and deletes the stale session |
| SessionAdmission.WaiterCanShare | backend/session_auth.py:327-353 | the run in which two requests of one process are let in on one refresh |
| SessionRefresh.FreshSessionIsNeverDeleted | backend/session_auth.py:365-402 | in every run no request deletes a fresh session, and a request that looks at one is let in on it |
| SessionRefresh.LateReleaseSparesLaterOwner | backend/session_auth.py:218-232 | a release, however late and even after its sender gave it up, never removes another owner's lock |
| SessionRefresh.OneTaskPerProcess | backend/session_auth.py:327-353 | within a process at most one request is ever working on a refresh |
| SessionRefresh.OverlapNeedsOutlived | backend/session_auth.py:274-324 | in every run, whatever the timing, two requests share the owner section only if one has outlived its lock, and one that has not holds the live lock |
| SessionRefresh.SecondOwnerEntersExactly | backend/session_auth.py:274-280 | a request joins another in the owner section exactly when it asks for the lock while none is live, and then the other has outlived its own |
| SessionRefresh.AtMostOneOwner | backend/session_auth.py:274-324 | with timely replies nobody outlives a lock, so at most one request of any number is in the owner section, and its lock is live and its own |
| SessionRefresh.LateOwnerOverlaps | backend/session_auth.py:47-52 | without timely replies two owners can overlap, shown by a run |
| SessionRefresh.Perform | backend/session_auth.py:213-254 | every step, carried out through the shared entries' own methods, leaves them in the protocol's next state |
| SessionRefresh.Drive | backend/session_auth.py:213-402 | entries driven through any run hold, if anything, a session of the callback's identity |
| SessionReplacement.ReplacesAnotherExactly | backend/session_auth.py:274-308 | in every run a store that lands on a session replaces another one than its request read exactly when some store has landed since that read |
| SessionReplacement.OnlyOrphansLandBesideOwner | backend/session_auth.py:274-324 | with timely replies nothing lands between a request's getting the lock and its store but stores their owners abandoned |
| SessionReplacement.SecondLookWouldShow | backend/session_auth.py:278-308 | with timely replies and no abandoned store landing meanwhile, the replaced session is another one than was read exactly when it already was when the lock was taken |
| SessionReplacement.NewerSessionIsReplaced | backend/session_auth.py:274-308 | a timely run that ends with a store made from the old session about to land on a newer, fresh one |
| JwksVerifier.OidcVerifier.RecordRefreshFailure | backend/oidc_verifier.py:75-79 | a failure moves serial, outcome and completion time and leaves the cache alone |
| JwksVerifier.OidcVerifier.StoreKeys | backend/oidc_verifier.py:163-170 | a success replaces the cache under the next generation and moves the serial with it |
| JwksVerifier.OidcVerifier.DecideUnderLock | backend/oidc_verifier.py:172-224 | the decision under the lock: return a key, reject, refuse for unavailability, or fetch |
| JwksAnswers.AskAnswersExactly | backend/oidc_verifier.py:244-263 | in every run asking for a key gives it at once exactly when the last successful fetch holds it and is younger than the lifetime |
| JwksAnswers.LockAnswersExactly | backend/oidc_verifier.py:172-224 | in every run a waiting caller that gets the lock is handed the key, fetches, or is refused exactly as the history of fetches says; a refusal is 401 after a success and 503 after a failure |
| JwksAnswers.FetchAnswersExactly | backend/oidc_verifier.py:226-242 | a caller's own successful fetch hands out exactly its key or rejects; a failed one hands out the last success's key while that is usable |
| JwksAnswers.ReadyAnswersExactly | backend/oidc_verifier.py:81-132 | in every run readiness is reported, refused or refreshed exactly as the history of fetches says |
| JwksAnswers.CallersAreServed | backend/oidc_verifier.py:226-280 | the run in which one caller fetches and another that waited is served without fetching |
| JwksCache.GenerationBranchUnreachable | backend/oidc_verifier.py:193-198 | generation moves only with the attempt serial, so the branch that ignores the key's age is never taken |
| JwksCache.ReturnedKeyIsCurrent | backend/oidc_verifier.py:172-280 | in every run each key handed out is in the cache of that moment, whose age is at most the staleness bound; readiness likewise |
| JwksCache.SingleFlight | backend/oidc_verifier.py:263-280 | no two callers ever fetch at the same time |
| JwksCache.WaiterDoesNotRepeatAttempt | backend/oidc_verifier.py:181-192 | a caller during whose wait an attempt completed never fetches itself |
| JwksCache.FetchesAreSpaced | backend/oidc_verifier.py:68-242 | in every run no fetch starts within the retry interval of a failure and unknown-key fetches are a cooldown apart |
| JwksVerifier.OidcVerifier.NoteUnknownRefresh | backend/oidc_verifier.py:237-239 | only a refresh for an unknown key starts the cooldown |
| JwksCache.Perform | backend/oidc_verifier.py:134-280 | every step, carried out through the verifier's own methods, leaves it in the system's next state, and a caller does what it decides |
| JwksCache.Drive | backend/oidc_verifier.py:58-280 | a verifier driven through any run holds what its history of attempts says |
| JwksCache.FieldsTellHistory | backend/oidc_verifier.py:75-170 | in every run the serial counts the attempts and the generation the successes; outcome, completion time and cache are those of the last attempt and the last success, and the cooldown runs from the last end of an unknown-key fetch |
| NameOrder.AtMostExactly | backend/db/migration_runner.py:401-406 | comparing names character by character is their order by the first difference |
| MigrationHistory.BaselineExactly | backend/db/migration_runner.py:401-406 | the baseline contains exactly the names up to the incorporated one, without the replayed one |
| MigrationHistory.BaselinePositions | backend/db/migration_runner.py:401-406 | in an ascending manifest these are the positions up to the incorporated one |
| MigrationHistory.FreshlyPending | backend/db/migration_runner.py:396-505 | a fresh database then still needs the replayed migration and every later one, in order |
| MigrationHistory.PendingOnExisting | backend/db/migration_runner.py:345-505 | an existing database needs exactly what its table does not record, except for a tombstone whose successor it records |
| MigrationHistory.MigrationRun.ValidateApplied | backend/db/migration_runner.py:217-244 | accepts exactly the histories with known names and exact checksums, missing ones only where allowed, and no sentinel |
| MigrationHistory.MigrationRun.AdoptTombstones | backend/db/migration_runner.py:345-362 | records the tombstone exactly when its successor is recorded and it is not, in table and dictionary |
| MigrationHistory.MigrationRun.BackfillMissingChecksums | backend/db/migration_runner.py:365-393 | fills every missing checksum, re-reading rows completed or removed meanwhile; fails exactly on a row that is then gone or not the expected one |
| MigrationHistory.MigrationRun.RecordFreshBaseline | backend/db/migration_runner.py:396-425 | adds exactly the migrations the baseline schema contains, keeping dictionary and table equal |
| MigrationHistory.PreparedIsAccepted | backend/db/migration_runner.py:428-446 | what preparation leaves passes strict validation and loses no recorded migration |
| MigrationHistory.MigrationRun.PrepareHistory | backend/db/migration_runner.py:428-446 | all or nothing; succeeds exactly on an acceptable history and then the dictionary is the table |
| MigrationHistory.ProgressStep | backend/db/migration_runner.py:449-505 | one more migration of the manifest keeps what was applied equal to what was pending so far |
| MigrationHistory.ProgressDone | backend/db/migration_runner.py:449-505 | at the end of the manifest the history is current |
| MigrationHistory.MigrationRun.ApplyOne | backend/db/migration_runner.py:449-505 | a row appears with its effect, or an online failure leaves one sentinel, or nothing; maintenance needs authorisation |
| MigrationHistory.MigrationRun.ApplyPending | backend/db/migration_runner.py:449-505 | succeeds exactly when every pending migration does; then exactly the pending ones were applied, in order, and the history is current |
| MigrationHistory.CurrentHistoryIsStable | backend/db/migration_runner.py:428-505 | a current history is a fixed point of preparation with nothing pending |
| MigrationHistory.MigrationRun.RunMigrations | backend/db/migration_runner.py:508-544 | succeeds exactly on an acceptable history whose pending migrations succeed, except on a fresh database under the migrate authority; applies exactly the names after the incorporated position and the replayed one on a fresh database, and what is not recorded on an existing one; ends where the start-up check passes; a second run succeeds and applies nothing |
| MigrationHistory.MigrationRun.VerifyMigrationsCurrent | backend/db/migration_runner.py:565-593 | accepts exactly the current histories |
| MigrationCrash.StepKeepsInv | backend/db/migration_runtime.py:73-268 | every step of runs, recoveries and crashes keeps: at most one sentinel, and every row in force has its effect |
| MigrationCrash.OwnIndexKeepsDb | backend/db/recover_online_index.py:70-87 | dropping, breaking or rebuilding the sentinel's own index disturbs no finished migration |
| MigrationCrash.ChecksumMeansEffect | backend/db/migration_runner.py:304-342 | across all crashes and restarts an exact checksum means the effect is there: a complete index for a concurrent-index migration, exactly once for any other, transactional or online; none of those ever takes effect twice; rows of the baseline schema included |
| MigrationCrash.EveryRowHasItsEffect | backend/db/migration_runner.py:304-446 | from an empty database on, across all crashes, every row with an exact checksum has its effect, whether a run or the baseline schema brought it |
| MigrationCrash.FreshRunBegins | backend/db/migration_runner.py:396-446 | on a fresh database a run records at once exactly the baseline positions, each with its effect once, and no other effect |
| MigrationCrash.RunCanFinish | backend/db/migration_runner.py:449-544 | from any reachable database without a sentinel, a run whose index names are free can be carried to its end and leaves a current history |
| MigrationCrash.OneSentinelBlocksRuns | backend/db/migration_runner.py:217-244 | at most one row holds a sentinel, and while one does a normal run commits nothing |
| MigrationCrash.FinishedRunIsCurrent | backend/db/migration_runner.py:449-505 | a run that reaches the end of the manifest, after whatever came before, leaves a current history |
| MigrationCrash.RecoveryFinishes | backend/db/recover_online_index.py:70-140 | from a sentinel whose index name is free or its own, uninterrupted recovery ends with the complete index and the exact checksum |
| MigrationCrash.InterruptedRecoveryCanBeRerun | backend/db/recover_online_index.py:90-140 | every reachable sentinel of a concurrent-index migration can be recovered, however often it was interrupted, changing no other row |
| MigrationCrash.StuckSentinelStays | backend/db/migration_runtime.py:139-166 | with a sentinel of any other online migration, no sequence of runs and recoveries changes anything |
| MigrationCrash.StuckSentinelIsReached | backend/db/migration_runner.py:304-325 | a first run of a plain online migration, cut off after its sentinel was committed, leaves such a sentinel |
| MigrationCrash.SentinelClearsExactly | backend/db/recover_online_index.py:90-140 | a reachable sentinel can be cleared by the tools exactly when it belongs to a controlled index migration |
| ProductionTag.BuiltMessageVerifies | scripts/create_production_release_tag.py:98-144 | a built message verifies against an identity exactly when it is the one it was built from |
| ProductionTag.BuiltMessageNamesRun | scripts/create_production_release_tag.py:98-110 | a built message names exactly the two runs it was built for |
| ProductionTag.BuiltExactly | scripts/create_production_release_tag.py:92-110 | a message is built exactly when both run ids are digits |
| ProductionTag.VerifiedExactly | scripts/create_production_release_tag.py:113-144 | field by field what a verified message holds, version 1 in any spelling the comparison accepts, and nothing else |
| ProductionTag.TagNameExactly | scripts/create_production_release_tag.py:84-89 | the tag is named after the release, whose id must be that of its source commit |
| ProductionTag.CallGoesAheadExactly | scripts/create_production_release_tag.py:244-248 | a call goes ahead exactly when its run ids are digits and its release names its commit |
| ProductionTag.VerifiedIsBuiltExactly | scripts/create_production_release_tag.py:98-144 | a verified message is the built one exactly when it names the two runs and writes its version as an integer |
| ProductionTag.StepKeepsInv | scripts/create_production_release_tag.py:235-308 | every step of any call, and of anyone else writing, keeps what each call knows about the repository |
| ProductionTag.RecordsNeverChange | scripts/create_production_release_tag.py:235-308 | whatever is recorded under a tag, run ids included, is the same after any further steps |
| ProductionTag.SuccessfulCallsAgree | scripts/create_production_release_tag.py:189-308 | in every interleaving two successful calls for one tag name have the same identity |
| ProductionTag.SuccessIsVerified | scripts/create_production_release_tag.py:189-308 | a successful call's tag verifies for its identity, and the call that created the ref has its own message recorded |
| ProductionTag.OwnRunRecordedExactly | scripts/create_production_release_tag.py:265-308 | in every run in which nobody else works with its runs, a successful call has its own message recorded exactly when it created the ref |
| ProductionTag.CreatedRecordsOwnRunExactly | scripts/create_production_release_tag.py:282-308 | in such a run, a call that goes on to write the ref and succeeds has its own message recorded exactly when the tag does not exist at that moment |
| ProductionTag.RepeatedCallExactly | scripts/create_production_release_tag.py:250-263 | after a successful call, repeating it for the tag name succeeds as existing exactly for the same identity, whatever the run ids, and writes nothing |
| ProductionTag.LoserIsReportedCreated | scripts/create_production_release_tag.py:282-308 | for any release and any two calls with different deploy runs, an interleaving in which the loser is reported as created over the winner's run ids |
| ComplexityRatchet.CheckIdentities | scripts/check_python_complexity_contract.py:249-373 | accepts exactly the lists of named, pairwise different identities |
| ComplexityRatchet.CheckSchema | scripts/check_python_complexity_contract.py:249-373 | accepts exactly the version-2 contracts with all gates, ceilings and identities in order |
| ComplexityRatchet.Measure | scripts/check_python_complexity_contract.py:765-773 | the counts and the maximum of the measurements |
| ComplexityRatchet.CheckLimits | scripts/check_python_complexity_contract.py:782-881 | within exactly when nothing measured exceeds the contract, tight exactly when nothing is better than it |
| ComplexityRatchet.CheckHistory | scripts/check_python_complexity_contract.py:560-570 | accepts exactly when no history record was removed or rewritten |
| ComplexityRatchet.CheckTransition | scripts/check_python_complexity_contract.py:481-611 | accepts exactly the monotone transitions |
| ComplexityRatchet.Evaluate | scripts/check_python_complexity_contract.py:683-950 | PASS, RATCHET_REQUIRED and FAIL exactly as the rules say |
| ComplexityRatchet.CountExactly | scripts/check_python_complexity_contract.py:769-770 | a count is the number of measurements at or above its floor |
| ComplexityRatchet.SchemaExactly | scripts/check_python_complexity_contract.py:249-373 | the schema is version 2 with four gates, threshold 19, and entries and remediations that name their functions, each once |
| ComplexityRatchet.FollowsExactly | scripts/check_python_complexity_contract.py:481-611 | a contract may follow another exactly when no gate or lock rises, history and algorithm stay, and locks come and go only for functions not above 19 |
| ComplexityRatchet.UnsignedFails | scripts/check_python_complexity_contract.py:249-480 | no verdict but FAIL without matching digests, the runtime's algorithm and the right form, in this contract and the previous one |
| ComplexityRatchet.VerdictExactly | scripts/check_python_complexity_contract.py:765-950 | for a signed contract that may follow: FAIL exactly when a measurement is worse than stated, RATCHET_REQUIRED when none is and one is better, PASS when all are as stated |
| ComplexityRatchet.ChainNeverRises | scripts/check_python_complexity_contract.py:481-611 | along any chain of passes both counts and the maximum never rise, history only grows, algorithm and threshold stay |
| ComplexityRatchet.LockedFunctionNeverRises | scripts/check_python_complexity_contract.py:481-611 | a function locked and present throughout never becomes more complex |
| ComplexityRatchet.AboveThresholdWasLocked | scripts/check_python_complexity_contract.py:595-609 | a function measured above the threshold was locked by the previous contract, at no less |
| ComplexityRatchet.AboveNextExactly | scripts/check_python_complexity_contract.py:481-611 | some next release can measure a function above the threshold exactly when some function is there now and the contract locks that one above the threshold |
| ComplexityRatchet.UnmeasuredAppearsExactly | scripts/check_python_complexity_contract.py:595-609 | a function that given releases do not measure can appear above the threshold next exactly when some function is there now and the contract has an unused lock above it |
| ComplexityRatchet.NeverMeasuredAppearsExactly | scripts/check_python_complexity_contract.py:595-609 | the same along any chain of passes, for functions never measured in it |
| ComplexityRatchet.LockMayPrecedeFunction | scripts/check_python_complexity_contract.py:595-609 | a chain of three passes in which a never measured function appears above the threshold |
| MergeGate.Newest | scripts/pr_merge_gate.py:136-148 | the result is one of the items and none is newer |
| MergeGate.PickLatest | scripts/pr_merge_gate.py:136-148 | nothing if the list is empty or some item has no key, else the first of the newest |
| MergeGate.ValidateEvidence | scripts/pr_merge_gate.py:419-445 | accepts exactly the lists whose runs all have the right provenance and well-formed jobs |
| MergeGate.TrustedMarkerState | scripts/pr_merge_gate.py:340-404 | the marker state: failure on any malformed carrier, else what the newest exact run says |
| MergeGate.CheckStateSame | scripts/pr_merge_gate.py:307-337 | a required check's state is the same for any order of runs and jobs |
| MergeGate.MarkerStateSame | scripts/pr_merge_gate.py:340-404 | a marker's state is the same for any order of runs and jobs |
| MergeGate.PermutationIsReordering | scripts/pr_merge_gate.py:136-148 | every permutation is such a reordering |
| MergeGate.DecisionIgnoresOrder | scripts/pr_merge_gate.py:448-559 | the decision is the same for any order of the runs and jobs of any workflow |
| MergeGate.UnrelatedRunsAreIgnored | scripts/pr_merge_gate.py:340-404 | any number of well-formed runs without the exact marker leave the marker verdict as it is |
| MergeGateVerdicts.CheckExactly | scripts/pr_merge_gate.py:307-337 | a required check succeeds, waits or fails exactly on stated conditions on its runs and jobs, newest first by their timestamps and ids |
| MergeGateVerdicts.MarkerExactly | scripts/pr_merge_gate.py:340-404 | a marker succeeds, waits or fails exactly on stated conditions; any spoilt carrier fails it |
| MergeGateVerdicts.GateExactly | scripts/pr_merge_gate.py:448-559 | the gate succeeds, waits or fails exactly on the granted, awaited and denied checks and markers, and answers nothing only for a misnamed pull request |

## Left out

- Cryptography and token decoding (Fernet, HMAC, JWT, SHA-256): ciphertexts and lock tokens are fresh values, checksums and digests are compared as values.
- HTTP, PostgreSQL, Valkey, Git and GitHub transports: only the atomic effects the protocols rely on are kept.
- Log sink: one attach and detach of a handler; event identities are unique for good; the consumer is cancelled only by detach; redaction and the stderr fallback are not modelled. An event counted at shutdown may in addition be reported under another reason when its schedule or its write fails late.
- Session refresh: one session at a time; logout and expiry are a step that may remove the session at any moment; the one-second waiting deadlines and the poll interval are not timed.
- Session refresh: a store or a release that was sent and then abandoned may still land later; nothing is claimed about the order of such a store against logout.
- Signing keys: parsing and validating the key set, HTTP headers and metrics.
- MigrationCrash.ChecksumMeansEffect: the complete-index half assumes that no other migration of the manifest, and no other session, drops or alters that index; transactional and plain online steps leave the modelled catalog alone.
- Migrations: whether the baseline schema file really contains the migrations its manifest says it incorporates; the model's baseline brings exactly those.
- Migrations: the authority cutover bootstrap, role elevation, lock timeouts, loading the manifest and hashing files, and the comment stripping and statement parsing of controlled index migrations, whose result is taken as given; a sentinel is a constructor instead of a checksum prefix.
- TestSelection.SelectTests: assumes that no two test files share a module name (as `x.py` and `x/__init__.py` would), because the path-to-module map is built before the modelled part.
- Test selection: git, trust-surface classification, reading and parsing files, building the graph, relative-import resolution, and reasons and notes; it starts from the classified diff and the built graph.
- Architecture check: layer rules and the data-access ratchet, one pass over dictionaries each.
- Complexity contract: collecting the measurements, conversion of field types, violation texts; the digest comparison is a flag.
- Production tag: JSON text and HTTP errors other than the lost race, which end a call; the format checks of the identity and of the repository name.
- Merge gate: reason strings; the provenance rules of a run are one flag; display names are captions instead of strings.
- Settings and environment parsers, application wiring, schemas, the user interface and the other repository checkers.
