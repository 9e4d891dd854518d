# Verification of the run engine, its wire formats and its client

A Dafny 4.11 model of `runsd`, the daemon that runs calculations against an external service, and of `runs`, its
terminal client. `dafny verify dfyconfig.toml` checks everything.

The project has four parts.

**The calculation engine.** The `calculations` and `runs` tables are changed by UPDATE statements without any guard on
the old status, one at a time. Calculation actors, run actors, the supervisor, the watchdog and the startup sweep all
write to the same rows.

- `Model`, `Rows` and `Db` are the statuses, the rows and the tables: the statements as functions on a row, and a class
  `Db` whose methods change the tables in place.
- `CalcMachine` is one calculation actor as a machine that stops at every await. `CalcLog` reads the log of such a
  machine with an automaton and proves what any actor does for every stream of commands, answers and database replies.
  `CalcActor` is the actor as it is written, a class with a receive loop and handlers, proved to walk that machine.
- `Engine` interleaves any number of actors, with several on one row, run actors, supervisor, watchdog, crashes and
  sweeps. `EngineRows`, `EngineCapacity`, `EngineRuns`, `EngineStarts` and `EngineCancels` hold the inductive invariants,
  `EngineAttempts` how the attempt number of a row moves, and `EngineTraces` the runs that show where a property fails.
- `RunActor`, `Supervisor`, `WorkerPool` and `Recovery` are the run actor, the supervisor, the pool and the watchdog as
  classes; `Recovery` also treats repeated sweeps and lapses and restarts, and `Leases` the timing of heartbeats.

**The idempotency key.** `Json` is the canonical text, `JsonParse` a parser for the grammar of RFC 8259 that inverts it,
`JsonScan` a scan that follows strings and brackets, and `Idempotency` decides when two keys are equal. `Utf8` gives the
bytes. The digest is a parameter.

**Paging.** `Paging` is the query, the handler, the cursor text and the walk along the cursors over changing tables.

**The client.** `Sse` is the incremental decoder of server-sent events as a class, `SseText` says which messages it
recovers, `SseJson` that every JSON event arrives intact. `AppModel` is the effect of a key on what is shown, `App` the
application state as a class with its index, and the module `ClientPaging` joins it to the pages of the server.

## What the proofs found

- *A retry needs a message nobody sends.* The documentation promises retries up to `max_attempts`
  (docs/external-api.md:80). After a transient error the actor resets its row to pending and waits for another `Start`;
  given one it would submit again, without one it never does (`CalcLog.StartSubmitsAgain`, `CalcLog.NoRetryWithoutStart`).
  In the engine every actor gets exactly one, so every actor submits at most once
  (`EngineStarts.EveryActorSubmitsAtMostOnce`); further attempts come only from actors spawned anew.
- *A refused write of an outcome breaks the capacity bound.* The handlers ignore the error and the permit is dropped. At
  every positive capacity one such refusal can put one running row too many (`EngineTraces.OneRefusalOverruns`); the bound
  holds in all crash-free runs if and only if there is none (`EngineTraces.BoundHoldsIff`), and in general the excess is at
  most the number of refusals on rows nobody else covers (`EngineCapacity.RunningUnderFaults`).
- *An overtaken actor sets the attempt number back.* In a run without any fault a child whose lease has lapsed, and whom
  a further actor has overtaken, stores its own older number over the newer one (`EngineAttempts.LateRetryLowers`). The
  number falls exactly by a stored pending or by a retry that carries an older number, and rises exactly by a newer one or
  the sweep (`EngineAttempts.AttemptAfterStep`).
- *A cancelled run keeps its last stored status.* The run actor leaves before its children are cancelled, and nobody else
  writes the status. `EngineTraces.CancelledRunShowsPending` is a run without any fault that shows pending for good though
  its calculation succeeded. What a finished run shows is the derived status if and only if the status stored when its
  actor left was neither pending nor running (`EngineRuns.StatusIsRightIffFinalWhenLeft`).
- *Cancelling one calculation never reaches the child of a run actor*, and is answered as done. Somebody hears the request
  if and only if the supervisor's own actor on that calculation still receives
  (`EngineCancels.CancelReachesOnlyOwnActors`; `EngineCancels.ChildIsNotReached` has a calculation at work that no request
  can cancel).
- *Zero base delay.* From 2^1024 on the floating-point power is infinite; with a zero base the product is no number and
  the delay is drawn up to the maximum. The geometric bound on the total backoff holds if and only if the base is positive,
  or the budget at most 1024, or the maximum delay zero, or there is no attempt left (`CalcLog.GeometricBoundIff`).
- *A half-formed cursor drops the status filter* (`Paging.FilterIsHonouredIff`), and a limit of zero reads as the end of
  the list (`Paging.ZeroLimitEnds`).
- *The decoder strips more than the standard.* It drops all leading white space where section 9.2.6 of the WHATWG HTML
  standard drops one space, keeps only the last of several `data:` lines, and never cuts a stream whose lines end with
  CR LF (`SseText.ReceivedUnchangedIff`, `SseText.CrLfIsNeverCut`).
- *A count that does not fit in 64 bits counts as one* (`AppModel.CountIsRepetition`).
- *A refused insertion leaves a run nobody works on* until the next restart hands out the calculations inserted before it;
  a run whose first calculation was refused has none and is never restored (`Supervisors.RefusedSubmissionIsRestored`).

## Model

| member | source | states |
|---|---|---|
| Model.DeriveDependsOnlyOnTheSet | crates/common/src/model.rs:95-131 | The run status computed by counting depends only on the set of statuses present, not on order or multiplicity |
| Model.DeriveMeans | crates/common/src/model.rs:95-131 | What each status of a run says of its calculations, both ways |
| Rows.ApplyKeepsRowOk | crates/runsd/src/db/queries.rs:191-325 | Each UPDATE, whatever the old status, keeps a consistent row consistent, given an attempt number within the row's own budget |
| Database.Db.InsertRun | crates/runsd/src/db/queries.rs:16-35 | A run starts pending; a second row with its id is refused and changes nothing |
| Database.Db.InsertCalculation | crates/runsd/src/db/queries.rs:133-155 | A new calculation of an existing run starts pending at attempt zero with every other column empty; a known id is refused |
| Database.Db.UpdateRunStatus | crates/runsd/src/db/queries.rs:37-46 | Only the named run's status changes; a missing run is no error |
| Database.Db.UpdateCalcStarted | crates/runsd/src/db/queries.rs:191-212 | Running with owner, lease and a start time that is never overwritten; attempt and every other column, and every other row, stay |
| Database.Db.UpdateCalcHeartbeat | crates/runsd/src/db/queries.rs:214-227 | The lease alone is extended, whatever the status |
| Database.Db.UpdateCalcSucceeded | crates/runsd/src/db/queries.rs:229-248 | Succeeded with result path and completion time, no lease; every other column and row stays |
| Database.Db.UpdateCalcFailed | crates/runsd/src/db/queries.rs:250-271 | Failed with kind, message and completion time, no lease; every other column and row stays |
| Database.Db.UpdateCalcRetrying | crates/runsd/src/db/queries.rs:273-293 | Retrying with attempt and time, no lease; every other column and row stays; consistent rows stay consistent if and only if the attempt is within the row's budget |
| Database.Db.UpdateCalcCancelled | crates/runsd/src/db/queries.rs:295-309 | Cancelled with completion time, no lease; every other column and row stays |
| Database.Db.UpdateCalcPending | crates/runsd/src/db/queries.rs:311-325 | Pending at attempt zero with retry time, error and lease cleared; every other column and row stays |
| Database.Db.CrashRecoverySweep | crates/runsd/src/db/queries.rs:438-488 | One pass over the listed rows, in any order: each active row without a live lease gets its next attempt, due 5 s later per attempt, or fails as crash_exhausted with its attempt kept; column by column nothing else changes |
| CalcMachine.JitteredBackoff | crates/runsd/src/actor/calc.rs:451-455 | Every draw lies between zero and the capped exponential delay |
| CalcMachine.JitterCoversRange | crates/runsd/src/actor/calc.rs:451-455 | And exactly those delays are drawn |
| CalcLog.AcceptedLogEndsOnce | crates/runsd/src/actor/calc.rs:332-424 | In a log the automaton accepts no status write follows a terminal write, and neither a write nor a second notification follows a notification |
| CalcLog.FinishedMeansTerminal | crates/runsd/src/actor/calc.rs:332-424 | In an accepted log the run is notified exactly when the automaton is closed, and a terminal write is there exactly when it is over |
| CalcLog.StepKeepsOk | crates/runsd/src/actor/calc.rs:244-424 | Every await of the actor keeps log, attempt counter and backoff spent in step with the automaton |
| CalcLog.ActorStory | crates/runsd/src/actor/calc.rs:244-449 | For every stream of commands, answers and replies: the writes form a word of the automaton, the notification comes once and exactly for a reported terminal write, events are the writes without pending, submits stay within the retry budget and the number of starts |
| CalcLog.ActorBackoff | crates/runsd/src/actor/calc.rs:363-413 | Total backoff is at most the sum of the largest delays, so at most (max - first)*max_delay, and at most base*(2^max - 2^first) given a base delay or at most 1024 attempts |
| CalcLog.BackoffIsReached | crates/runsd/src/actor/calc.rs:451-455 | A stream exists whose total backoff is exactly the sum over the attempts of base doubled each time, up to the maximum |
| CalcLog.RetryIsDueAfterBackoff | crates/runsd/src/actor/calc.rs:386-402 | The retry stored after a transient error is due exactly when the wait that follows ends |
| CalcLog.GeometricBoundIff | crates/runsd/src/actor/calc.rs:451-455 | The bound base*(2^max - 2^first) holds for every stream if and only if the base is positive, max is at most 1024, the maximum delay is zero or no attempt is left |
| CalcLog.NoRetryWithoutStart | crates/runsd/src/actor/calc.rs:246-330 | An actor idle after a transient error never submits again while no Start arrives |
| CalcLog.StartSubmitsAgain | crates/runsd/src/actor/calc.rs:255-297 | Given a Start, a permit and a stored lease an idle actor submits once more |
| CalcLog.TransientErrorStalls | crates/runsd/src/actor/calc.rs:363-413 | One transient error brings a fresh actor into that state with attempts left |
| CalcActors.CalcActor.constructor | crates/runsd/src/actor/calc.rs:237-242 | A spawned actor is idle at the attempt of its row |
| CalcActors.CalcActor.HandleSuccess | crates/runsd/src/actor/calc.rs:332-342 | Writes succeeded with the path, publishes, notifies, in this order, and stops; a refused write changes no row and does not stop it |
| CalcActors.CalcActor.HandlePermanentError | crates/runsd/src/actor/calc.rs:344-360 | Writes failed as permanent with the message, publishes, notifies and stops |
| CalcActors.CalcActor.HandleCancel | crates/runsd/src/actor/calc.rs:415-424 | Writes cancelled, publishes, notifies and stops |
| CalcActors.CalcActor.HandleTransientError | crates/runsd/src/actor/calc.rs:363-413 | Exhausts, or backs off and resets to pending, or is cancelled during the backoff; says which |
| CalcActors.CalcActor.Sleep | crates/runsd/src/actor/calc.rs:399-411 | A message ends the backoff early; only a cancel or a closed mailbox ends the actor, otherwise the row goes back to pending and its number is lost |
| CalcActors.CalcActor.EmitStatus | crates/runsd/src/actor/calc.rs:426-448 | One event per call, and no row changes |
| CalcActors.CalcActor.Attempt | crates/runsd/src/actor/calc.rs:255-326 | The branch a Start takes walks the machine through permit, lease, submit and outcome, publishes exactly the statuses of that outcome and notifies once exactly after a final one |
| CalcActors.CalcActor.Run | crates/runsd/src/actor/calc.rs:244-330 | The loop as written walks the machine, so its table is the replay of its log, its events are the writes without pending, and it notifies once exactly if it wrote a terminal status |
| EngineRows.NextKeepsRows | crates/runsd/src/db/queries.rs:191-359 | No step of any component, with any fault, breaks the consistency of any row or the attempt bounds of any actor |
| EngineRows.ReachableRowsOk | crates/runsd/src/db/queries.rs:133-359 | In every reachable state every row is consistent: running iff leased, retrying iff timed and within budget, terminal iff completed with its result or error |
| EngineRows.WatchdogSeesEveryActiveRow | crates/runsd/src/actor/watchdog.rs:20-60 | In every reachable state each running row is returned by one of the watchdog's queries exactly after the end of its lease, each retrying row exactly from its retry time on |
| EngineAttempts.AttemptAfterStep | crates/runsd/src/db/queries.rs:191-325 | Every step of every component: a row's attempt becomes zero by a stored pending, the number of a stored retry, or the next one by the sweep, and stays otherwise; so it falls exactly by a pending or an older retry and rises exactly by a newer retry or the sweep |
| EngineAttempts.AttemptAlongRun | crates/runsd/src/db/queries.rs:191-325 | Along every run an attempt that has fallen was lowered by such a step, and one that has risen was raised by one |
| EngineAttempts.LateRetryLowers | crates/runsd/src/actor/calc.rs:363-398 | A run without any fault in which an overtaken actor stores attempt 1 over attempt 2 |
| EngineCapacity.CoveredRowsFit | crates/runsd/src/actor/worker_pool.rs:12-21 | If every running row but some lost ones is covered by an actor that has yet to write its outcome, running rows fit the permits and the lost ones |
| WorkerPools.WorkerPool.Acquire | crates/runsd/src/actor/worker_pool.rs:19-21 | Taking a free permit is the engine's grant and keeps free permits and holders adding up to the capacity |
| WorkerPools.WorkerPool.Drop | crates/runsd/src/actor/worker_pool.rs:4-9 | Dropping one is whatever engine step takes it out of its actor's scope, and keeps the sum too |
| WorkerPools.PoolCountsPermits | crates/runsd/src/actor/worker_pool.rs:12-21 | With the permits of an engine state a pool is in balance exactly if it mirrors that state's semaphore |
| EngineCapacity.LostOutcomeUncovers | crates/runsd/src/actor/calc.rs:332-424 | A statement of an actor keeps all running rows covered if and only if it went through, or its row was not running, or another actor still covers it |
| EngineCapacity.RunningUnderFaults | crates/runsd/src/actor/calc.rs:332-424 | In every crash-free run from rest the running rows outnumber the permits by at most the refused writes of an outcome on rows nobody else covered |
| EngineTraces.OneRefusalOverruns | crates/runsd/src/actor/calc.rs:332-342 | At every positive capacity there is a run with one refused write of an outcome, no other fault, and one running row too many |
| EngineTraces.BoundHoldsIff | crates/runsd/src/actor/calc.rs:253-327 | The running rows fit the permits in all crash-free runs with at most k refused outcomes if and only if k is zero (or there are no permits) |
| EngineCapacity.RunningNeverExceedsCapacity | crates/runsd/src/actor/calc.rs:253-327 | In every interleaving, with several actors on one row, watchdog, retries and cancels, running rows never outnumber the worker permits |
| EngineRuns.NextKeepsRun | crates/runsd/src/actor/run.rs:91-136 | Every step that does not touch the run from outside keeps the account of its children, its queue and its stored status |
| EngineRuns.SpawnEstablishes | crates/runsd/src/actor/run.rs:57-88 | Spawning a run nobody works on establishes that account |
| EngineRuns.RunIsCountedAndReported | crates/runsd/src/actor/run.rs:91-136 | Finished and live children always add up to the total; a stored final status is the derived one; when all have finished every row is terminal and the derived status is stored |
| EngineRuns.StatusIsFrozenOnceLeft | crates/runsd/src/actor/run.rs:93-101 | What a run shows when its actor leaves, after a cancel too, is what it shows until the process ends |
| EngineRuns.StoredIsRightIffFinal | crates/runsd/src/actor/run.rs:125-137 | Of a run with calculations, all terminal, the stored status is the derived one if and only if it is neither pending nor running |
| EngineRuns.StatusIsRightIffFinalWhenLeft | crates/runsd/src/actor/run.rs:93-123 | After its actor has left, for whatever reason, a finished run with calculations shows the derived status if and only if the one stored at that moment was final |
| EngineTraces.CancelledRunShowsPending | crates/runsd/src/actor/run.rs:93-101 | A run, cancelled before its child starts and without any fault, that stays pending while its only calculation has succeeded |
| EngineStarts.EveryActorSubmitsAtMostOnce | crates/runsd/src/actor/run.rs:83-86 | In every reachable state every actor has submitted at most once, whatever attempts its row has left |
| RunActors.RunActor.ReadStatuses | crates/runsd/src/db/queries.rs:498-516 | The statuses read are those of the run's rows |
| RunActors.RunActor.RefreshRunStatus | crates/runsd/src/actor/run.rs:125-137 | The status stored is the one derived from the run's rows as they are; a failed read or write stores nothing |
| RunActors.RunActor.Run | crates/runsd/src/actor/run.rs:55-123 | The loop leaves at the last notification or at a cancel, which reaches exactly the children not yet finished; the stored status follows the reads in order |
| RunActors.FinishedIsThreeSteps | crates/runsd/src/actor/run.rs:105-114 | One notification handled by the loop is three steps of the interleaved engine with the same effect |
| RunActors.CancelledIsSteps | crates/runsd/src/actor/run.rs:93-103 | A cancel is steps of the engine: every unfinished child is told and loses its last sender, and nothing else is different |
| RunActors.CountsAddUp | crates/runsd/src/actor/run.rs:88-116 | While distinct children finish, count and children left add up, and the loop is left exactly at the last one |
| Supervisors.Supervisor.SubmitRun | crates/runsd/src/actor/supervisor.rs:227-276 | Run and calculations are inserted in order until one is refused; a run actor is spawned, with all of them at attempt zero, only if none was |
| Supervisors.RefusedSubmissionIsRestored | crates/runsd/src/actor/supervisor.rs:227-276 | What a refused submission left behind is exactly what the next restart hands to that run's actor |
| Supervisors.Supervisor.RestoreActiveRuns | crates/runsd/src/actor/supervisor.rs:349-373 | Every run with unfinished calculations, unless unreadable, gets one actor with exactly those |
| Supervisors.EveryRowIsRestoredOnce | crates/runsd/src/db/queries.rs:361-378 | Restoring hands each unfinished calculation to exactly one run actor with its row's attempt, and no finished one |
| Supervisors.SpecsAreChildren | crates/runsd/src/actor/run.rs:62-86 | What a run actor is given is what the engine's spawn step creates |
| Supervisors.Supervisor.RescheduleCalc | crates/runsd/src/actor/supervisor.rs:310-340 | An actor is filed for the row as it is now, as after the engine's read and spawn, replacing the handle of an earlier one |
| Supervisors.RescheduleIsTwoSteps | crates/runsd/src/actor/supervisor.rs:310-340 | That is a read and a spawn of the engine: a fresh actor at the row's attempt with one Start, and the earlier actor's mailbox closes |
| Supervisors.Supervisor.RetryCalc | crates/runsd/src/actor/supervisor.rs:342-347 | The row goes back to pending at attempt zero before an actor is spawned on it; a refused update spawns none |
| Supervisors.Supervisor.CancelRun | crates/runsd/src/actor/supervisor.rs:296-301 | The run actor is told, by the engine's cancel step, exactly if its handle is still there, and the handle goes |
| Supervisors.Supervisor.CancelCalc | crates/runsd/src/actor/supervisor.rs:303-308 | The handle goes as in the engine's request, and an actor is told exactly if that step is possible |
| EngineCancels.CancelReachesOnlyOwnActors | crates/runsd/src/actor/supervisor.rs:303-308 | In every reachable state a request leaves children of run actors and actors on other calculations as they were, and somebody hears it if and only if the supervisor's own actor on the calculation still receives |
| EngineCancels.ChildIsNotReached | crates/runsd/src/actor/supervisor.rs:303-308 | A reachable state with a child at work on a calculation that a request changes in no way |
| Recovery.SweepsExhaustAttempts | crates/runsd/src/db/queries.rs:438-488 | An active row with a lapsed lease fails as crash_exhausted at exactly the sweep after its remaining attempts; each earlier sweep costs one |
| Recovery.SweepsOfTable | crates/runsd/src/db/queries.rs:438-488 | The same for all rows of a table; pending and finished rows never change |
| Recovery.RestartIsWithinCapacity | crates/runsd/src/db/queries.rs:438-488 | After a crash and a sweep with all leases lapsed no row is running, and the capacity bound holds for the new process |
| Recovery.Watchdog.Reap | crates/runsd/src/actor/watchdog.rs:20-50 | Column by column: an expired row whose write goes through becomes retrying at its next attempt, due 5 s per attempt after the scan, or failed as crash_exhausted with its attempt kept; every other row stays, and exactly the retried ones are rescheduled |
| Recovery.Watchdog.Pass | crates/runsd/src/actor/watchdog.rs:16-60 | One pass asks once for exactly the expired rows with attempts left and the retries that are due, and leaves the table as the reaping made it |
| Recovery.ReadyAfterReaping | crates/runsd/src/actor/watchdog.rs:20-60 | What a pass sets to retrying is not ready in the same pass, so nothing is rescheduled twice |
| Recovery.LapsesExhaustAttempts | crates/runsd/src/actor/watchdog.rs:25-50 | A calculation whose workers keep dying, each after storing its lease, fails as crash_exhausted at exactly the lapse after its remaining attempts; every earlier lapse costs one |
| Recovery.PassIsScanAndReaps | crates/runsd/src/actor/watchdog.rs:20-50 | Undisturbed, a scan of the engine and its updates, in any order, leave the table of the watchdog's pass and change nothing else |
| Leases.LiveRowIsUnseen | crates/runsd/src/actor/calc.rs:261-288 | While a timely actor is inside submit the expired-lease query never returns its row |
| Leases.LeaseIsSafeIff | crates/runsd/src/db/queries.rs:327-342 | That holds for all timely actors if and only if the expiry covers the gap between two writes and the delay of the second |
| Utf8.DecodeInvertsEncode | crates/common/src/idempotency.rs:7-9 | Decoding the bytes of a string gives the string back |
| Utf8.DecodeIsStrict | crates/runs/src/network/sse.rs:64 | Only encodings are accepted: what decodes is the encoding of the result |
| Utf8.OrderOfBytes | crates/common/src/idempotency.rs:16-17 | Comparing the bytes of two keys is comparing their characters |
| Utf8.LessIff | crates/common/src/idempotency.rs:16-17 | A string is smaller exactly if at some place where both agree so far it ends or has the smaller character |
| Json.SortSorts | crates/common/src/idempotency.rs:16-17 | Keys come out in strictly ascending order |
| Json.AscendingIsUnique | crates/common/src/idempotency.rs:16-17 | There is only one ascending list of the same members |
| Json.CanonicalIsPrintOfSorted | crates/common/src/idempotency.rs:13-35 | The canonical text is the plain text of the value sorted at every depth |
| JsonParse.CharsInvert | crates/common/src/idempotency.rs:22-23 | Reading an escaped string gives it back and stops at its closing quote |
| JsonParse.ValueInverts | crates/common/src/idempotency.rs:13-35 | Parsing a printed value gives it back and leaves what follows |
| JsonParse.ParseInvertsCanonical | crates/common/src/idempotency.rs:13-35 | The parser consumes the whole canonical text and gives the value with keys sorted at every depth |
| JsonParse.EscapeIsShortest | crates/common/src/idempotency.rs:22-33 | No text that is read as a string is shorter than its escaped form |
| JsonParse.CanonicalIsShortest | crates/common/src/idempotency.rs:13-35 | No text that is read as the value with sorted keys is shorter than the canonical one, so it has no white space and no long escape |
| JsonScan.PrintIsNeutral | crates/common/src/idempotency.rs:13-35 | A value leaves strings closed and brackets balanced, with colons only inside objects |
| JsonScan.NoValueAfterColon | crates/common/src/idempotency.rs:4-11 | A canonical text is never some prefix, a colon and another canonical text |
| Idempotency.CanonicalDecidesEquiv | crates/common/src/idempotency.rs:13-35 | Two values have the same canonical text if and only if they are equal up to key order at every depth |
| Idempotency.PreimageIsUniquelyDecodable | crates/common/src/idempotency.rs:4-11 | Equal preimages have equal kinds and inputs equal up to key order, even if kinds contain colons or JSON, and conversely |
| Idempotency.KeyDecidesEquiv | crates/common/src/idempotency.rs:4-11 | The same for the keys, as far as the digest tells preimages apart |
| Decimal.PrintIntParses | crates/runsd/src/api/handlers.rs:121-136 | Printed numbers are read back exactly if they fit 64 bits, and contain no comma |
| Paging.ListingIsExact | crates/runsd/src/db/queries.rs:73-121 | The ordered query returns exactly the matching rows in strictly descending order |
| Paging.ListingIsNewestFirst | crates/runsd/src/db/queries.rs:73-121 | Newest first, of the same time the greater id first; every run returned has the status asked for and comes after the cursor |
| Paging.CursorRoundTrips | crates/runsd/src/api/handlers.rs:117-136 | The cursor made for a run is read back as its time and id, whatever the id contains |
| Paging.HandleWithoutCursor | crates/runsd/src/db/queries.rs:110-121 | A half-formed cursor is answered as no cursor and no filter |
| Paging.FilterIsHonouredIff | crates/runsd/src/db/queries.rs:73-121 | All runs returned match the status filter on every table if and only if the cursor is not half-formed |
| Paging.PageSize | crates/runsd/src/api/handlers.rs:115-140 | A page has as many runs as asked for, 20 by default and 100 at most, as far as rows match; there is a next cursor, made of the last run, exactly if it is full and not empty |
| Paging.PageMissesNothing | crates/runsd/src/api/handlers.rs:115-140 | Every matching row is on the page or after its last run, and then there is a next cursor |
| Paging.WalkReturnsRows | crates/runsd/src/api/handlers.rs:115-140 | Every run returned is a row of one of the tables that matched the filter and the cursor |
| Paging.WalkDescends | crates/runsd/src/api/handlers.rs:115-140 | All pages together are strictly descending while rows are inserted and updated between requests |
| Paging.NoRunTwice | crates/runsd/src/api/handlers.rs:115-140 | No run is returned twice |
| Paging.NoRunMissed | crates/runsd/src/api/handlers.rs:115-140 | Every run of the first table that matches the filter in all tables, so every run if there is no filter, has been returned when there is no next page |
| Paging.WalkIsListing | crates/runsd/src/api/handlers.rs:115-140 | On a fixed table the pages together are exactly the ordered list, filtered or not, and the walk ends |
| Paging.ZeroLimitEnds | crates/runsd/src/api/handlers.rs:115-138 | A limit of zero gives an empty page and no next cursor |
| Sse.ParseEvent | crates/runs/src/network/sse.rs:63-75 | One pass over the lines gives the last id and the last data field |
| Sse.CuttingKeepsBytes | crates/runs/src/network/sse.rs:29-57 | Cutting at blank lines loses, moves and repeats no byte; a failed stream gives a prefix of the blocks |
| Sse.SseStream.Next | crates/runs/src/network/sse.rs:29-57 | The next item depends on the pending bytes and the first failure only, not on the framing |
| Sse.SseStream.Consume | crates/runs/src/network.rs:116-137 | The reading loop delivers the events of the whole byte stream under any framing, and drops an unfinished block at a failure |
| Sse.OneEventPerBlock | crates/runs/src/network/sse.rs:29-57 | Each block gives one event, in order |
| SseText.MessagesAreReceived | crates/runs/src/network/sse.rs:29-75 | A list of written messages is received message by message, in order |
| SseText.ReceivedUnchangedIff | crates/runs/src/network/sse.rs:63-75 | A message arrives unchanged if and only if its id and data are one line, start with no white space and end with no carriage return |
| SseText.VisibleIsUnchanged | crates/runs/src/network/sse.rs:63-75 | One line that starts with a visible ASCII character and does not end with a carriage return arrives unchanged |
| SseJson.EventsArriveIntact | crates/runs/src/network.rs:116-137 | Every list of numbered JSON events is received event by event with exactly its numbers and texts, and each text is read as the value that was sent |
| SseJson.CanonicalArrivesIntact | crates/runs/src/network/sse.rs:29-75 | A message with a number and a canonical text comes back with exactly these |
| SseText.CrLfIsNeverCut | crates/runs/src/network/sse.rs:59-61 | A stream with CR LF line ends is one event, delivered at its end |
| ClientApp.IndexIsPosition | crates/runs/src/app/state.rs:156-164 | The index finds the one run with an id, and nothing for other ids |
| ClientApp.App.UpsertRun | crates/runs/src/app/state.rs:156-164 | Replaces the run with the same id in its place or appends, and keeps the index the inverse of the list |
| ClientApp.App.UpsertRuns | crates/runs/src/app/update.rs:51-63 | Upserts a page run by run |
| ClientApp.App.UpdateCalcStatus | crates/runs/src/app/state.rs:166-175 | The first calculation with the id in that run has the new status; its other fields, every other calculation, every other run and the order stay, and an unknown run or calculation changes nothing |
| ClientApp.ShownIsLastAnnounced | crates/runs/src/app/update.rs:31-128 | After every list of messages the status shown for a calculation is the last one announced since its run was last upserted, or the one it was upserted with |
| ClientApp.AnnouncementStands | crates/runs/src/app/update.rs:109-128 | An announcement for a calculation that is shown stands until the next one or the next upsert of its run |
| ClientApp.App.ClampCursors | crates/runs/src/app/state.rs:186-203 | Cursors past the end go to the last row |
| ClientApp.ClampSelects | crates/runs/src/app/state.rs:186-203 | Clamping selects a run whenever one is shown, moves cursors past the end to the last row and no other cursor, and is idempotent |
| ClientApp.App.HandleDown | crates/runs/src/app/update.rs:262-277 | Count moves, then at most one page request at the bottom |
| ClientApp.App.HandleUp | crates/runs/src/app/update.rs:278-286 | Count moves up |
| ClientApp.App.HandleKey | crates/runs/src/app/update.rs:122-190 | A key goes to an open confirmation, to the count or to its action |
| ClientApp.App.Update | crates/runs/src/app/update.rs:31-106 | Every message keeps the index the inverse of the list and has exactly the stated effect |
| ClientApp.App.Run | crates/runs/src/app/update.rs:31-106 | So does every sequence of messages |
| AppModel.LastWriteWins | crates/runs/src/app/state.rs:156-164 | After any upserts each id is where it was first written and holds what was last written |
| AppModel.CountIsRepetition | crates/runs/src/app/update.rs:177-190 | Typing a count and then j or k is pressing the key that often, effects included; a count beyond 64 bits is one |
| AppModel.PressesMove | crates/runs/src/app/update.rs:624-648 | n presses of j or k move the cursor of the pane by n rows up to the ends, change nothing else, and ask for the next page exactly if the last shown run is reached |
| AppModel.OnePageRequestPerCursor | crates/runs/src/app/update.rs:269-275 | Whatever is pressed, the stored cursor is asked for at most once, and exactly if it is gone afterwards |
| AppModel.VisibleKeeps | crates/runs/src/app/state.rs:123-145 | Exactly the runs that pass filter and search are shown |
| AppModel.VisibleKeepsOrder | crates/runs/src/app/state.rs:123-145 | They are shown in the order of the list, none twice |
| AppModel.SelectionIsSlice | crates/runs/src/app/state.rs:179-184 | The visual selection is the shown rows between anchor and cursor, as far as they exist |
| AppModel.BulkCancelIsExact | crates/runs/src/app/update.rs:388-406 | Bulk cancel asks once for each shown run in the range, in order, and for no other |
| AppModel.SelectDownCancels | crates/runs/src/app/update.rs:370-400 | v, j as often as n, and X cancel exactly the runs from the one under the cursor to the one n rows below |
| AppModel.BulkRetryIsExact | crates/runs/src/app/update.rs:430-460 | Bulk retry asks for exactly the failed calculations of the runs in the range, one request each |
| AppModel.RetryIsForFailed | crates/runs/src/app/update.rs:454-466 | Outside visual mode R asks for the calculation under the cursor exactly if it has failed |
| AppModel.CancelIsConfirmed | crates/runs/src/app/update.rs:407-425 | Outside visual mode a run is cancelled only after Y, and any other key leaves everything as it was |
| AppModel.CalcCancelIsConfirmed | crates/runs/src/app/update.rs:416-425 | In the other panes the same holds for the calculation under the cursor, where equal ids belong to one run |
| AppModel.FindCalcFinds | crates/runs/src/app/update.rs:490-503 | A confirmed cancellation of a calculation finds one with its id whenever there is one |
| ClientPaging.PagesAreShownInOrder | crates/runs/src/app/update.rs:48-66 | While rows are only inserted, the client shows every run it was sent, in the order sent, once |
| ClientPaging.ClientShowsListing | crates/runs/src/app/update.rs:48-66 | On a fixed table the client ends with exactly the server's ordered list and no further page to ask for |

## Left out

- EngineCapacity.RunningNeverExceedsCapacity: starts from a state without running rows and lets the actors' own writes succeed, because the bound is false otherwise (`EngineTraces.BoundHoldsIff`); `EngineCapacity.RunningUnderFaults` has the bound under faults; a process crash is handled by `Recovery.RestartIsWithinCapacity` for lapsed leases only.
- EngineRuns.RunIsCountedAndReported: rules out crashes, failed writes, and the watchdog or a retry on a row of the same run, which can finish a row behind the run actor's back.
- Paging.NoRunMissed: says nothing of a run that stops or starts matching the filter between two pages, which can be missed.
- ClientApp.App.HandleDown: has no scrolling in the detail pane, whose arithmetic can overflow.
- ClientApp.App.HandleUp: has no scrolling in the detail pane either.
- ClientApp.App.HandleKey: has the digits, j, k, v, X, R and Y only, see `ClientApp.App.Update`.
- ClientApp.App.Run: ranges over the messages of `ClientApp.App.Update`.
- Recovery.LapsesExhaustAttempts: has no other writer between a lease and its lapse; with one the number can also be set back (`EngineAttempts.LateRetryLowers`).
- Recovery.PassIsScanAndReaps: has no other step between the scan and the last update.
- RunActors.CancelledIsSteps: has no other step in between.
- AppModel.OnePageRequestPerCursor: ranges over the same keys; no other key reads or writes the stored cursor.
- CalcMachine.JitteredBackoff: models the floating-point product exactly, which holds for base and maximum delay below 2^53 ms and attempts below 2^31.
- Recovery.Watchdog.Pass: has no other writer during the pass; interleaved with other writers the same updates are the engine's `Scan` and `Reap` steps.
- ClientApp.App.Update: the search, filter, help and command overlays, focus, half-page and detail-pane keys, yank, save and the status line are not modelled; they leave `runs` and `run_index` alone.
- Integer widths: attempts and counters are 32-bit in the source and unbounded here (they never pass the maximum by more than one); identifiers are the text of UUIDs.
- The HTTP client of the external service: a submit is any of its three outcomes.
- SHA-256 and hexadecimal: the digest is a parameter of `Key`.
- Floating-point numbers in JSON: a number is its token of section 6 of RFC 8259.
- SQLite, tokio, axum and GraphQL: tables, unbounded first-in first-out queues, atomic statements and a permit count stand for them. Reads of the run actor and the supervisor succeed in `Engine`; `RunActor` and `Supervisor` have the failing ones.
- The reschedule queue of the supervisor, which drops messages when full: in `Engine` a calculation can be rescheduled at any time or never.
- Conversion errors of stored rows and the separate reads of calculations while runs are listed: a table holds runs that can be read, each with its calculations.
- The server's event stream: its replay and its live events overlap and its live payload lacks the sequence number the client reads, so no delivery statement holds across both programs.
- The `from` fields of events, the pruning of old events, the directory import, metrics, configuration, rendering and key tables.
