# Pullbackup: a verified model of its scheduling, execution and authentication state

Pullbackup is a backup scheduler. These Dafny files model the parts of it that are state machines, and prove what
they are for.

* **Retained due work.** A cron occurrence is a debt. Each task has at most one obligation (`Records.Row`) and a
  watermark over its occurrences; ticks and scans fold occurrences into them, settling compares them with the run
  table, the dispatcher turns them into runs, edits reset them. `DueWork` and `Dispatching` give each operation as a
  function of the tables, `Ledger` and `Dispatcher` give the same operations as they run, in place, and `Protocol`
  puts everything together as one state machine whose steps are the uninterrupted stretches of the event loop.
  `NoLoss` proves over all its runs that no occurrence is lost; `LoopTurn`, `LoopTrace`, `FollowUps` and
  `Counterexamples` say exactly what that rests on; `Stabilising`, `Retries`, `Blocking`, `Generations`, `Fairness` and `Verdicts`
  hold the other laws.
* **Runs.** `Lifecycle`, `Runner` and `RunLifecycle` are admission, ownership, terminal writes and the watchdog;
  `Execution` is the nesting of destination, permit and source lock as a transition system; `Service` is the job
  tokens of the scheduler and the edit endpoints.
* **Authentication state.** `ExpiringStore` is the bounded two-tier expiring mapping as it runs; `StoreLaws`,
  `StoreRefinement` and `StoreSurvival` relate it to an unbounded expiring map; `Throttle`, `LoginFlood`,
  `FloodLimits` and `Sessions` are its clients.
* **Freshness.** `Freshness` is the projection shown to operators and to Uptime Kuma, and `Visibility` ties it to the
  retained obligations.

`dafny verify dfyconfig.toml` checks the whole project.

## Reading the model

* Instants are integers in microseconds (seconds as reals in the authentication part). A cron is an abstract calendar:
  what the trigger answers is a parameter, and `Schedule.Regular` says that it answers the least occurrence after its
  argument. Nothing else about cron, zones or daylight saving is assumed, and lemmas that do not need `Regular` do not
  ask for it.
* Tables are maps, and each committed transaction is one step. Selects without an order are parameters that list the
  right rows; `ORDER BY due_at` is any order sorted by age. Where two runs of a task began at the same instant, the
  watermark of an old row is derived from the one with the lowest id, the answer of a stable sort.
* Run ids are the next unused integer, so an id can be used again after its task was deleted, as in SQLite. Deletion
  therefore also drops what is left of the executions of the deleted runs.
* `Sys.origin` is bookkeeping of the model, not of the program: the watermark from which the occurrences of a task
  count as owed. A schedule or enable edit and a deliberate cancel move it to the watermark, because both drop the
  obligation on purpose (`backend/pullbackup/services/due.py:342-346`, `backend/pullbackup/services/due.py:448-457`).

## Where the code promises more than it keeps

The no-loss theorem needs a discipline (`NoLoss.Disciplined`), asked of the executions and edits of the task it speaks
about, because some paths of the code do lose an occurrence:

* An execution must begin on a schedule folded up to that instant and on a row at rest, without a follow-up. A turn of
  the loop hands over rows without one, but scan, dispatch and begin read three clocks, and `started_at` is stamped anew
  at the begin (`backend/pullbackup/services/runner.py:751`). So the begin meets the discipline exactly when no
  occurrence has come in between and none was noted (`LoopTrace.ATurnsRunBeginsDisciplined`); a run that waits for its
  destination or its permit past an occurrence does not, and can lose it
  (`Counterexamples.StaleScanLosesAnOccurrence`). Nor does a pass without a scan before it: `dispatch_due` settles once
  (`backend/pullbackup/services/dispatcher.py:74`), a row that settling requeues keeps its follow-up, and the success of
  its next run pays it away (`Counterexamples.MarkerAtBeginLosesAnOccurrence`; the row is orphaned there by an execution
  whose terminal write fails). `FollowUps.ASuccessLeavesTheRowIff` is the exact condition.
* An edit that unblocks a row and keeps the schedule must find no success since the blocked instant. Blocked rows ignore
  occurrences (`backend/pullbackup/services/due.py:188-189`), so a manual success in the meantime pays for occurrences it
  never covered (`Counterexamples.UnblockingEditLosesAnOccurrence`). `FollowUps.UnblockedStandsIff` is the exact
  condition.

Three more promises hold less often than the comments say:

* Exhausted retries wait "until the next normal tick" (`backend/pullbackup/services/due.py:48-49`). A tick up to a second
  early moves the watermark over its occurrence without re-arming the row (`backend/pullbackup/services/due.py:306-316`),
  which then waits for the occurrence after that: `Stabilising.ATickRearmsIff`, `Stabilising.AnEarlyTickDoesNotRearm`.
* A client locks out unless about half the cap of other clients fail between its attempts
  (`backend/pullbackup/http_auth.py:352-357`). Exactly: with cap c and share s, fewer than c - s failures of others
  between two of the five leave the client its record, unless the cap is odd and the record is already full, where s
  failures that complete lockouts replace it: `FloodLimits.FewFailuresSufficeIff`, `FloodLimits.OddCapsCanBeFlooded`.
  For c = 3 that is a single failure of one other client.
* The monitor expiry is "never tighter than the projection" (`backend/pullbackup/services/freshness.py:125`) for even
  cycles only: it is sized by the cadence, the deadline by the larger of cadence and spacing.
  `Freshness.MonitorSpeaksLastIff` is the exact condition, `Freshness.LongGapsOutlastTheExpiry` a family that fails.

`docs/freshness.md` sizes the grace by the nominal cadence alone and bounds it for cycles of an hour; the code uses the
larger of cadence and spacing, and its bound already holds over twenty minutes. The model follows
the code.

## Model

| member | source | states |
|---|---|---|
| NoLoss.NoOccurrenceIsLost | backend/pullbackup/services/due.py:170-250 | For every task, in every state of every run in which the executions and edits of that task keep the discipline of `Disciplined`, whatever befalls other tasks: each occurrence folded in its current generation is covered by a success begun no earlier than one second before it, or the task has an obligation in the table |
| NoLoss.NextPaymentKeepsTheDebt | backend/pullbackup/services/due.py:284-427 | And while it is uncovered, no payment deletes that obligation: not a settling at any later instant (a deliberate cancel apart), and not the success of a running execution that began more than a second before the occurrence |
| NoLoss.DebtNext | backend/pullbackup/services/dispatcher.py:68-166 | Every step of the service (tick, scan, settling, dispatch, admission, begin, terminal write, early exit, an execution that vanishes, watchdog, restart, edit, creation, deletion) that is disciplined for a task keeps the invariant of that task behind the two theorems above; a resetting edit is always disciplined |
| LoopTrace.ATurnsRunBeginsDisciplined | backend/pullbackup/services/dispatcher.py:169-181 | On every run of the service where a turn scans a task and then starts it, each at its own clock reading, and the task is then neither reset nor deleted, the later begin of that execution is disciplined exactly when no occurrence lies between the watermark and the begin and none was noted on the way, and it is disciplined whenever no occurrence comes before one second after the begin |
| LoopTrace.BeginIsDisciplinedIff | backend/pullbackup/services/runner.py:744-753 | For any handed-over run, however it was started: its begin is disciplined exactly when no occurrence lies in (watermark, now] and the row has no follow-up |
| LoopTurn.ReconcileAll | backend/pullbackup/services/due.py:253-266 | The loop over the enabled tasks scans each of them once, in order, and answers exactly the number of them that hold an obligation afterwards |
| LoopTurn.EachIsScanned | backend/pullbackup/services/due.py:253-266 | After it every listed task is exactly as if it had been scanned alone, and every other task is untouched |
| Counterexamples.MarkerAtBeginLosesAnOccurrence | backend/pullbackup/services/due.py:348-350 | Without the rest condition the promise fails: a trace from an empty installation, disciplined in everything else, where a row requeued by one settling keeps its marker, is dispatched again, and its success drops an uncovered occurrence |
| Counterexamples.StaleScanLosesAnOccurrence | backend/pullbackup/services/due.py:184-187 | Without the scan condition it fails: a run begins on a schedule nobody has folded, the next scan keeps the earlier of two occurrences as the marker, and the success pays both away although it covers one |
| Counterexamples.UnblockingEditLosesAnOccurrence | backend/pullbackup/services/due.py:188-189 | Without the edit condition it fails too: a blocked row ignores occurrences, a manual run succeeds, a harmless edit unblocks the row, and the next settling pays it off together with an occurrence nobody covered |
| FollowUps.ASuccessLeavesTheRowIff | backend/pullbackup/services/due.py:380-427 | For any row and any running execution of its task: the row is in the table after the success of that execution and a settling exactly when, before both, it is held; or waits for another run that was not cancelled and, if it succeeded, left a follow-up; or no success, this one included, has reached its due instant or its follow-up (the follow-up alone for the row of the execution itself) |
| FollowUps.StandsAfterSuccessIff | backend/pullbackup/services/due.py:401-418 | A scan that folds an occurrence behind the newest execution of the task, beside a row that is not held and due by its start: after the success the obligation stands exactly when the instant it claims next lies after the start of the execution |
| FollowUps.OtherwiseTheNewestIsLost | backend/pullbackup/services/due.py:184-187 | When it does not stand and the newest occurrence folded lies more than a second after that start, that occurrence is lost: no obligation in the table and no success covers it |
| FollowUps.UnblockedStandsIff | backend/pullbackup/services/due.py:458-462 | After an edit that unblocks a row, the row outlives the next settling exactly when no success began since its due instant, or none since its follow-up |
| Stabilising.SettlingStabilises | backend/pullbackup/services/due.py:380-435 | With run table and clock fixed, settling twice reaches a fixed point from any set of rows |
| Stabilising.WhatSettlingDoes | backend/pullbackup/services/due.py:401-427 | One settling of a due, retrying or exhausted row, by the run table: a success since its due instant pays it and leaves the follow-up no success has reached; unpaid and with nothing running it loses its follow-up, and exactly an exhausted row is then tried again from the start; otherwise it stays as it is |
| Stabilising.ADispatchedRowFollowsItsRun | backend/pullbackup/services/due.py:393-400 | Settling a dispatched row: it stands while its run is active, is due again as it was if the run is gone, ends with a cancelled run, and is paid by a successful one up to its follow-up |
| Stabilising.OneRoundIsNotEnough | backend/pullbackup/services/due.py:395-399 | One round is not enough: a row whose run vanished becomes payable and is paid only by the second |
| Stabilising.OneRoundIsEnoughIff | backend/pullbackup/services/due.py:380-427 | Judged before the call, one round settles a row exactly when it is not dispatched; or its run is active, cancelled or permanently failed; or succeeded with no follow-up that a success has reached; or is gone or otherwise failed while the row is unpaid and has no follow-up, or an active run |
| Stabilising.SettledRowsAreOwed | backend/pullbackup/services/due.py:401-427 | At the fixed point no due, retrying or exhausted row is covered by a success, markers exist only beside an active run, and dispatched rows have an active run |
| Stabilising.WhatAScanRecords | backend/pullbackup/services/due.py:199-250 | The whole scan by the calendar: a disabled task is left alone; of an enabled one the obligation is settled first, and then with nothing in (watermark, now] only the watermark is written; otherwise the watermark moves to the latest occurrence, or to now where more than 20000 lie there, and a new obligation is due at the first of them, one behind a run gets its one follow-up, an exhausted one is tried again, any other stands as it is |
| Stabilising.ScanFoldsEverything | backend/pullbackup/services/due.py:199-250 | After a scan no occurrence up to now lies beyond the watermark, also when the walk gives up after 20000 steps |
| Stabilising.ScanningTwiceFoldsOnce | backend/pullbackup/services/due.py:220-226 | A second scan at the same instant only settles: it folds nothing |
| Stabilising.CoalescingKeepsTheEarliest | backend/pullbackup/services/due.py:228-250 | A fold never changes the due instant or an existing marker of a standing row, and a new row is due at the first occurrence folded |
| Stabilising.ALateTickCountsIff | backend/pullbackup/services/due.py:274-322 | A tick that is not early and whose scan leaves no row adds an obligation, due now, exactly if every run of the task began before the watermark the scan left; if one has begun since, it leaves the tables alone |
| Stabilising.WhereATickAddsNothing | backend/pullbackup/services/due.py:284-322 | A tick writes nothing for a task that is gone or disabled; one that is not early and finds an obligation leaves what its scan leaves, and if the scan folded nothing not even that, because nothing is committed |
| Stabilising.ATickIsAccountedFor | backend/pullbackup/services/due.py:284-322 | After a tick of an enabled task an obligation stands, or a run of the task has begun since the watermark its scan left |
| Stabilising.EarlyIff | backend/pullbackup/services/due.py:269-306 | A tick is early exactly if the first occurrence after the watermark its scan left lies no more than a second ahead |
| Stabilising.WhatAnEarlyTickRecords | backend/pullbackup/services/due.py:306-316 | An early tick moves the watermark to that occurrence, makes an obligation due now if there is none, notes the occurrence behind a run that may not cover it, and leaves any other obligation as it is |
| Stabilising.AnEarlyTickCountsOnce | backend/pullbackup/services/due.py:306-316 | So no later scan folds that occurrence again |
| Stabilising.ATickRearmsIff | backend/pullbackup/services/due.py:244-246 | A tick re-arms an obligation whose retries are exhausted, with no success, follow-up or active run to decide it otherwise, exactly when an occurrence has come by then; if none has, the row stays as it is |
| Stabilising.AnEarlyTickDoesNotRearm | backend/pullbackup/services/due.py:306-316 | So a tick a hair early moves the watermark over its occurrence and leaves the obligation exhausted |
| Stabilising.AnEchoChangesNothing | backend/pullbackup/services/due.py:298-305 | The late callback of an occurrence already on record changes nothing |
| Schedule.LatestOccurrence | backend/pullbackup/services/due.py:128-142 | The bounded walk returns an instant between the first occurrence and now beyond which nothing up to now is left |
| Schedule.FoldedMeansNoneMissed | backend/pullbackup/services/due.py:100-122 | For a regular trigger "the next occurrence is later than now" says exactly that every later occurrence is |
| Retries.RetriesAreBounded | backend/pullbackup/services/due.py:343-377 | Along every run, between two re-arms at most six ordinary failures are charged and at most 1860 seconds of delay granted; retrying rows have 1 to 5 attempts and a retry instant, exhausted rows exactly 6 |
| Retries.ARowMovesOnce | backend/pullbackup/services/due.py:328-368 | One step re-arms a row, keeps its attempts, or charges it once, and only for an ordinary failure of the run it named, with the next retry exactly one backoff away |
| Retries.SpentIsTheSumOfDelays | backend/pullbackup/services/due.py:88-90 | The delays granted are 60, 120, 240, 480 and 960 seconds |
| Retries.TheWatermarkNeverFallsBack | backend/pullbackup/services/due.py:220-242 | While no edit resets the schedule, the watermark never falls back, so no occurrence is folded twice |
| Blocking.HeldUntilEdited | backend/pullbackup/services/due.py:60-67 | Along every run an obligation held for invalid configuration stays held, with its due instant and follow-up, until the task is edited or deleted |
| Blocking.FailedWorkMayRestartIff | backend/pullbackup/services/due.py:345-368 | After a failed run the obligation keeps its due instant and follow-up and shows the message; it may start again at once and uncharged after an infrastructure failure, never by itself and uncharged after a permanent one, and otherwise, charged one attempt, exactly when its backoff is over and fewer than five had been charged |
| Blocking.AnEditReleases | backend/pullbackup/services/due.py:441-463 | An edit that keeps the schedule makes a blocked or exhausted obligation startable at once, with its due instant and follow-up and all its retries, and leaves any other alone; one that changes it moves watermark and epoch to now and drops the obligation, and no later scan owes anything from before it; no run and no other task is touched |
| Blocking.AnInvalidCronIsVisible | backend/pullbackup/services/due.py:204-217 | After a scan an enabled task whose cron does not parse has a blocked obligation that names the cron, with the debt it had or one due now; a second scan changes nothing |
| Blocking.TheNewestRunConsumesItsSpan | backend/pullbackup/services/due.py:145-158 | A task without a watermark counts from the end of its newest run, or its start if that is all there is: what its scan adds lies beyond it, and where nothing was owed the first occurrence beyond it becomes due |
| Blocking.ANewTaskCountsFromItsCreation | backend/pullbackup/services/due.py:145-158 | One that has never run counts from its creation, and one with a watermark from there |
| Generations.ObligationsAreCurrent | backend/pullbackup/services/due.py:441-463 | In every reachable state an obligation, its marker and its run are no older than the last schedule or enable edit of the task |
| Generations.OldOutcomeSettlesNothing | backend/pullbackup/services/runner.py:865-884 | The terminal write of a run begun before that edit leaves every obligation as it is |
| Generations.OldRunsDecideNothing | backend/pullbackup/services/due.py:448-457 | In every reachable state, however runs from before the last schedule or enable edit ended, they neither pay, drop nor charge the obligation: any run table that agrees since then settles it alike |
| Generations.StaleCallbacksWriteNothing | backend/pullbackup/services/scheduler.py:66-88 | Once replaced, the callback of a job writes nothing in any later state |
| Generations.ReplacedJobsWriteNothing | backend/pullbackup/services/scheduler.py:91-119 | The callback of the job a task had before an edit, its deletion or a restart writes nothing in any later state |
| Generations.EveryScheduleHasItsJob | backend/pullbackup/services/scheduler.py:91-143 | In every reachable state a job is registered for exactly the enabled tasks whose cron parses |
| Fairness.NoYoungerRowJumps | backend/pullbackup/services/dispatcher.py:121-145 | If an older row waits while a younger one starts, they share no source and no overlapping destination |
| Verdicts.EveryRowIsDecided | backend/pullbackup/services/dispatcher.py:97-161 | An independent account of the whole pass: each row is gone, untouched, started or told to wait as the tables before the pass and the number of older rows started say; it starts exactly if its task is idle, no active run and no older considered row has its source or overlaps its destination, and there is room; else it is told the first of these obstacles |
| Verdicts.StartedWorkIsApart | backend/pullbackup/services/dispatcher.py:76-161 | What a pass starts shares no source and no overlapping destination with a run that was active before, nor with anything else it starts |
| Fairness.EveryWaitIsGrounded | backend/pullbackup/services/dispatcher.py:129-145 | Following the reasons from any waiting row leads, through strictly earlier waiting rows, to an active run it competes with or to a full house |
| Fairness.AnIdleHouseStartsSomething | backend/pullbackup/services/dispatcher.py:97-161 | With nothing active and a limit of at least one, some eligible row starts |
| Fairness.TheLimitIsKept | backend/pullbackup/services/dispatcher.py:135-158 | A pass never takes the number of active runs past the larger of the limit and what it found |
| Fairness.OnlyRipeWorkStarts | backend/pullbackup/services/dispatcher.py:97-112 | A pass starts no disabled task and no row before its retry instant |
| Fairness.ShownReasonIsTrue | backend/pullbackup/services/dispatcher.py:129-145 | The wait reason shown on a row was true when the row was considered, and says "task active" exactly when the task has an active run |
| PassFacts.PassChangesOnly | backend/pullbackup/services/dispatcher.py:97-161 | A pass only adds pending runs, hands eligible rows of idle tasks to them, drops rows of disabled tasks and notes reasons; one active run per source stays one |
| RunLifecycle.OneActiveRunPerSource | backend/pullbackup/services/runner.py:184-214 | At most one pending or running run per source in every reachable state |
| RunLifecycle.WithoutTheLockAnEditBreaksIt | backend/pullbackup/api/tasks.py:270-281 | It rests on the lock on `source_id`: the edit it refuses would make two active runs share a source |
| RunLifecycle.TerminalIsAbsorbing | backend/pullbackup/services/runner.py:744-753 | A terminal run row reads the same in every later state until its task is deleted |
| RunLifecycle.ActiveRunsAreExecuted | backend/pullbackup/services/runner.py:931-966 | If no execution vanishes from an active row, every active row has its one execution in every reachable state, and is running exactly while that execution is past its locks |
| RunLifecycle.WatchdogSparesIff | backend/pullbackup/services/runner.py:1071-1136 | A sweep leaves the row of a live execution alone exactly when it is terminal, registered, or younger than the grace |
| RunLifecycle.SweptSourceIsAdmissibleIff | backend/pullbackup/services/runner.py:1071-1136 | After a sweep a task is admissible exactly when no owned or young active run uses its source |
| RunLifecycle.RestartFreesEverySource | backend/pullbackup/services/runner.py:167-181 | After startup reconciliation no run is active and every task is admissible |
| RunLifecycle.ReclaimedWorkIsRequeued | backend/pullbackup/services/due.py:347-350 | After a watchdog sweep and a settling, the obligation of every run it reclaimed is back in the queue with its attempts, due instant and follow-up |
| RunLifecycle.InterruptedWorkIsRequeued | backend/pullbackup/services/runner.py:167-181 | So is, after a restart and a settling, the obligation of every run that was active |
| Soundness.TraceIsSound | backend/pullbackup/services/runner.py:184-230 | Every reachable state: rows name runs of their own task, executions past their locks own running rows, instants lie in the past |
| Runners.WhatTheTerminalWriteIsWorth | backend/pullbackup/services/runner.py:844-885 | The terminal write in full: the run is a success exactly after exit 0 and cancelled exactly after a requested stop, and its message names the exit code or the timeout; the obligation is paid by a success, dropped by a requested stop, charged one attempt and put off by one backoff, or exhausted at the sixth, by a nonzero exit or a timeout, and requeued at no charge by any other interruption |
| Runners.DecimalTellsApart | backend/pullbackup/services/runner.py:870-876 | The number in the message tells which exit code or which timeout it was |
| Runners.WhatAnOwnerFailureIsWorth | backend/pullbackup/services/due.py:52-67 | An owner that failed is no interruption; its failure holds the work if its error is PathNotAllowed or ValueError, and only if the message names one of them |
| Execution.NeverDeadlocked | backend/pullbackup/services/runner.py:732-743 | With at least one permit, whenever an execution is unfinished some execution can move |
| Execution.ExecutionTerminates | backend/pullbackup/services/runner.py:732-743 | Once arrivals stop at most six moves per execution are left, and where none is possible all have finished |
| Execution.EveryMoveHelps | backend/pullbackup/services/runner.py:732-743 | Every move, a cancellation included, lowers the sum of stages still to pass |
| Execution.HeldSubtreesAreDisjoint | backend/pullbackup/services/runner.py:315-346 | In every reachable state no path lies in two held destinations |
| Execution.ConflictMeansSharedPath | backend/pullbackup/services/runner.py:270-277 | Two destinations conflict exactly when their subtrees intersect |
| Execution.ConflictIsSymmetric | backend/pullbackup/services/runner.py:270-277 | Conflict is reflexive and symmetric |
| Execution.ConflictIsNotTransitive | backend/pullbackup/services/runner.py:270-277 | And not transitive: siblings conflict with their parent, not with each other |
| Execution.OutsideHoldsNothing | backend/pullbackup/services/runner.py:732-743 | An execution waiting for its destination, or finished, holds no destination, permit or lock |
| Execution.EverythingIsReturned | backend/pullbackup/services/runner.py:338-346 | When all have left by whatever path, every destination, permit and lock is back |
| StoreRefinement.EveryHistoryIsSound | backend/pullbackup/http_auth.py:171-250 | After any history under a monotone clock: keys disjoint across tiers, tier decided by `protect`, each tier sorted by expiry, share and cap respected |
| StoreRefinement.IndistinguishableUntilAnEviction | backend/pullbackup/http_auth.py:389-431 | Until the first eviction every operation shows its caller what an unbounded expiring map would |
| StoreRefinement.OnlyTheLastWriteIsRead | backend/pullbackup/http_auth.py:397-404 | Whatever was evicted, a read answers only the last value written and only before it expires |
| StoreRefinement.JustWrittenIsPresentIff | backend/pullbackup/http_auth.py:369-381 | A key just written is present exactly when it is protected, the cap is at least two, or nothing else is protected |
| StoreLaws.TrimSacrificesIff | backend/pullbackup/http_auth.py:292-299 | Enforcing the cap gives up a protected entry exactly when the protected tier alone exceeds the cap, which no fixed cap allows |
| StoreLaws.SweepIsExact | backend/pullbackup/http_auth.py:279-290 | A sweep removes exactly the expired entries |
| StoreRefinement.KeysAreTheLiveOnes | backend/pullbackup/http_auth.py:433-442 | A snapshot lists exactly the keys a read would find, each once |
| StoreRefinement.ExpiryIsAmortised | backend/pullbackup/http_auth.py:279-290 | Over any history all sweeps look at no more entries than were placed plus two per operation |
| StoreSurvival.OrdinaryOutlivesTraffic | backend/pullbackup/http_auth.py:292-299 | An ordinary entry just written outlives fewer writes of other keys than the ordinary tier has room for, and any number of reads of any key |
| StoreSurvival.GuardedOutlivesTraffic | backend/pullbackup/http_auth.py:369-381 | A protected entry just written outlives fewer later protected placements than the share, and any number of other writes and of reads of any key |
| LoginFlood.LockoutOutlivesTheFlood | backend/pullbackup/http_auth.py:292-381 | For cap c >= 2 and share s, and from any store: a client that fails five times inside a minute is locked out, exactly until the oldest is 60 seconds old, if between two failures others fail fewer than c - s times while its record is short, or are locked out fewer than s times while it is full, and fewer than s are later |
| LoginFlood.UnknownClientsLockOut | backend/pullbackup/http_auth.py:787-806 | For a client the store did not know, fewer than c - s failures of others between its five is enough for any cap |
| LoginFlood.EvenCapsLockOut | backend/pullbackup/http_auth.py:787-806 | With an even cap it is enough for every client, whatever its record |
| FloodLimits.OddCapsCanBeFlooded | backend/pullbackup/http_auth.py:369-381 | For every odd cap it is not: in a store it describes, a client with a full record of failures is pushed out by s failures of others, and its five failures do not lock it out; for c = 3 one foreign failure does it |
| FloodLimits.FewFailuresSufficeIff | backend/pullbackup/http_auth.py:292-381 | Fewer than c - s failures of others between five failures always suffice for the lockout exactly when the cap is even |
| LoginFlood.CapMinusShareNewcomersForget | backend/pullbackup/http_auth.py:337-367 | The bound is exact: in a full store with a full share, c - s newcomers forget even the client written last |
| LoginFlood.ShareLockoutsRelease | backend/pullbackup/http_auth.py:374-379 | And s later lockouts release a locked-out client early |
| Throttling.BoundedThrottleIsTheFullThrottle | backend/pullbackup/http_auth.py:765-806 | Absent eviction, five timestamps and a 60-second life answer exactly as the full list of failures would |
| Throttling.LockedOutIsProtected | backend/pullbackup/http_auth.py:501-505 | Whoever is actually locked out sits in the protected tier |
| Throttling.WaitingAsToldIsEnough | backend/pullbackup/http_auth.py:765-784 | Waiting exactly the seconds told yields zero |
| Throttling.TheAnswerIsTight | backend/pullbackup/http_auth.py:780-784 | A client is locked out exactly if its fifth-last attempt is less than a minute old, and is told the time until that attempt is a minute old, no less and at most a second too much |
| Throttling.TheToldWaitIsTight | backend/pullbackup/http_auth.py:765-806 | And so, absent eviction, by the fifth-last of all the failures it ever had |
| Throttling.LockedUntilTheOldestExpires | backend/pullbackup/http_auth.py:780-784 | Without new failures a client stays locked out exactly until its oldest counted failure is 60 seconds old |
| Sessions.LogoutIsPermanent | backend/pullbackup/http_auth.py:730-752 | A token valid when logged out with is rejected at every later instant, however often it and others are presented or logged out with in between, as long as fewer sessions than the cap are revoked after it |
| Sessions.OnlyItsLogoutEndsASession | backend/pullbackup/http_auth.py:707-752 | Whatever other sessions do and whatever is evicted, a session that is not logged out is accepted exactly while its age is acceptable |
| Sessions.WhatALogoutRecords | backend/pullbackup/http_auth.py:730-752 | A logout with a valid token records that session for the retention and nothing else; with any other token it leaves exactly the unexpired records |
| Sessions.RetentionSufficesIff | backend/pullbackup/http_auth.py:155-168 | Keeping revocations max_age + slack makes every logout permanent exactly when slack exceeds 60: 61 does, 60 fails at the boundary |
| Freshness.QuietIffNothingOwed | backend/pullbackup/services/freshness.py:161-174 | Fresh or not yet due exactly when no occurrence after the epoch has come that the newest success does not cover |
| Freshness.TheEarliestDebtIsNamed | backend/pullbackup/services/freshness.py:161-193 | A delayed or stale verdict names the earliest occurrence owed |
| Freshness.TheNominalCycle | backend/pullbackup/services/freshness.py:176-182 | The cycle that sizes the grace is the time from the named occurrence to the next one, but never less than the cadence, which also counts when there is no next one |
| Freshness.TimeOnlyAges | backend/pullbackup/services/freshness.py:139-193 | While nothing else changes, time only moves a task from fresh or not yet due to delayed to stale, under a fixed deadline |
| Freshness.EvidenceOnlyExplains | backend/pullbackup/services/freshness.py:196-212 | Queue status, active run and latest attempt change the reason and nothing else |
| Freshness.WhyItIsLate | backend/pullbackup/services/freshness.py:176-212 | The reason of a late verdict, each exactly when it applies: held, exhausted, under way, retrying, queued, last attempt for the occurrence failed or cancelled, and without any of these awaiting its start, missed or never succeeded |
| Freshness.WhatAQuietVerdictSays | backend/pullbackup/services/freshness.py:151-174 | A verdict without a deadline: disabled, invalid cron, no success, none in the current schedule, or covered, each exactly when it applies; a fresh task shows the next occurrence its success does not cover |
| Freshness.WhatKumaHears | backend/pullbackup/services/freshness.py:48-50 | Kuma hears "down" exactly of an enabled task whose cron is invalid or whose earliest uncovered occurrence is past its deadline, and "up" exactly of one that owes nothing and has a success begun in its current schedule |
| Freshness.GraceIsBounded | backend/pullbackup/services/freshness.py:116-121 | Grace is never negative, and history never lengthens it beyond slack plus half a cycle |
| Freshness.GraceFollowsTheLongestRun | backend/pullbackup/services/freshness.py:112-121 | To the second, the grace is a tenth of the cycle, between ten minutes and two hours, plus one and a half times the longest run on record, at most half a cycle: every run on record fits and one of them is the measure |
| Freshness.GraceIsBelowTheCycle | backend/pullbackup/services/freshness.py:112-121 | Grace is below a whole cycle for every cycle over twenty minutes, whatever the history |
| Freshness.GraceIsBelowTheCycleIff | backend/pullbackup/services/freshness.py:112-121 | For whole cycles without history twenty minutes is the exact limit |
| Freshness.AMissedOccurrenceCannotHide | backend/pullbackup/services/freshness.py:176-193 | Then any uncovered occurrence is stale once a cycle has passed since it |
| Freshness.MonitorSpeaksLastIff | backend/pullbackup/services/freshness.py:124-132 | Whenever the monitor that last heard "up" has expired the projection says "down", exactly when the time to the next occurrence and its grace fit into the expiry |
| Freshness.RegularCyclesAreCovered | backend/pullbackup/services/freshness.py:58-60 | They do for a nominal cycle, with an hour to spare |
| Freshness.LongGapsOutlastTheExpiry | backend/pullbackup/services/freshness.py:176-181 | They do not between occurrences three nominal cycles and six hours apart, without history or with runs of a nominal cycle and two hours |
| Freshness.ExpiryOutlastsTheGrace | backend/pullbackup/services/freshness.py:124-132 | The monitor expiry is the nominal cycle plus the largest grace of such a cycle plus an hour |
| Visibility.LateWorkIsOnRecord | backend/pullbackup/services/freshness.py:182-193 | In a disciplined run a late task whose named occurrence was folded has its obligation on record, and the reason reported is what became of that obligation |
| Ledgers.Ledger.ReconcileTask | backend/pullbackup/services/due.py:199-250 | `reconcile_task` in place: the tables afterwards are `Reconcile` of the tables before |
| Ledgers.Ledger.NoteOccurrenceDuringRun | backend/pullbackup/services/due.py:170-196 | `_note_occurrence_during_run` in place, with its answer |
| Ledgers.Ledger.TickTask | backend/pullbackup/services/due.py:284-322 | `record_tick` in place, its uncommitted settling rolled back |
| Ledgers.Ledger.ApplyRunOutcome | backend/pullbackup/services/due.py:328-368 | `apply_run_outcome` in place |
| Ledgers.Ledger.FinishRow | backend/pullbackup/services/due.py:370-377 | `_finish` in place |
| Ledgers.Ledger.SettleRow | backend/pullbackup/services/due.py:380-427 | `_settle_row` in place |
| Ledgers.Ledger.SettleAllRows | backend/pullbackup/services/due.py:430-435 | `settle_all` in place: the order of the select does not matter |
| Ledgers.Ledger.TaskEdited | backend/pullbackup/services/due.py:441-463 | `on_task_edited` in place |
| Dispatchers.Dispatcher.DispatchDue | backend/pullbackup/services/dispatcher.py:68-166 | `dispatch_due` in place: settle, gather active scopes, walk by age; the tables and the started runs are those of `DispatchPass` |
| Dispatchers.Dispatcher.Consider | backend/pullbackup/services/dispatcher.py:97-161 | One turn of its loop over the local sets and the tables |
| Dispatchers.Dispatcher.ActiveScopes | backend/pullbackup/services/dispatcher.py:76-90 | Its scan of the active runs |
| Runners.Runner.AdmitRun | backend/pullbackup/services/runner.py:184-214 | `admit_run`: denied for an active run of the task, else for an active run on its source, in this order and without a write; otherwise one pending row |
| Runners.Runner.Begin | backend/pullbackup/services/runner.py:744-753 | A run is taken over exactly if its row is still pending |
| Runners.Runner.WriteOutcome | backend/pullbackup/services/runner.py:838-885 | The terminal write settles the obligation that names the run in the same transaction |
| Runners.Runner.TerminalizeOwnedRun | backend/pullbackup/services/runner.py:908-924 | An owner leaving early fails its row unless it is terminal |
| Runners.Runner.Depart | backend/pullbackup/services/runner.py:931-966 | Every way out of `execute_run` gives up ownership, and only the early ones write |
| Runners.Runner.RequestCancel | backend/pullbackup/services/runner.py:975-1009 | A cancel signals exactly an owned active run and touches no row; otherwise it says which of the three conditions failed |
| Runners.Runner.CancelAnswer | backend/pullbackup/services/runner.py:1016-1025 | Afterwards the row decides the answer: cancelled or still running exactly if it is |
| Runners.Runner.SweepOrphanedRuns | backend/pullbackup/services/runner.py:1071-1136 | The watchdog sweep: exactly the orphaned rows fail, and exactly they are reported |
| Runners.Runner.ReconcileStaleRuns | backend/pullbackup/services/runner.py:167-181 | Startup: every active row fails, nothing else changes |
| Runners.Runner.TryHold | backend/pullbackup/services/runner.py:315-337 | A destination is taken exactly when no other holder overlaps it, so the held destinations stay disjoint |
| Runners.Runner.Release | backend/pullbackup/services/runner.py:338-346 | What is still held stays disjoint, and whoever was obstructed by this holder alone may enter |
| Services.Scheduler.UpsertJob | backend/pullbackup/services/scheduler.py:91-112 | The old token dies; an enabled task with a parseable cron gets one never used before |
| Services.Scheduler.RemoveJob | backend/pullbackup/services/scheduler.py:115-119 | Token and job go together |
| Services.Scheduler.Start | backend/pullbackup/services/scheduler.py:122-143 | A fresh process has one job for exactly the enabled tasks whose cron parses |
| Services.Scheduler.Execute | backend/pullbackup/services/scheduler.py:66-88 | A tick with the registered token, or with none, records the tick; any other writes nothing |
| Services.TaskApi.UpdateTask | backend/pullbackup/api/tasks.py:311-347 | Not found; conflict exactly when source, destination, its validity or another locked setting differs during a run; else task, watermark, obligation and job change together |
| Services.TaskApi.DeleteTask | backend/pullbackup/api/tasks.py:351-377 | Not found, conflict exactly during a run, else the task, its runs, its obligation and its job are gone |
| Services.TaskApi.RunNow | backend/pullbackup/api/tasks.py:381-389 | Refused exactly when the task or its source is busy |
| ExpiringStores.ExpiringStore.SweepTier | backend/pullbackup/http_auth.py:279-285 | The sweep of one tier: what it leaves and how many entries it looks at |
| ExpiringStores.ExpiringStore.EnforceCap | backend/pullbackup/http_auth.py:292-299 | The eviction loop |
| ExpiringStores.ExpiringStore.PlaceEntry | backend/pullbackup/http_auth.py:369-381 | Insertion into the tier the value belongs to |
| ExpiringStores.ExpiringStore.Set | backend/pullbackup/http_auth.py:389-395 | Sweep, place, enforce the cap |
| ExpiringStores.ExpiringStore.Get | backend/pullbackup/http_auth.py:397-404 | Reads without refreshing |
| ExpiringStores.ExpiringStore.Pop | backend/pullbackup/http_auth.py:406-413 | Removes and returns |
| ExpiringStores.ExpiringStore.Mutate | backend/pullbackup/http_auth.py:415-431 | Read-modify-write, atomically |
| ExpiringStores.ExpiringStore.Keys | backend/pullbackup/http_auth.py:433-442 | The keys of both tiers after a sweep |
| Throttling.LoginThrottle.RetryAfterFor | backend/pullbackup/http_auth.py:765-784 | The seconds to wait, without extending the lockout |
| Throttling.LoginThrottle.RecordFailedLogin | backend/pullbackup/http_auth.py:787-806 | One failure charged to the client |
| Sessions.SessionRegistry.IsValid | backend/pullbackup/http_auth.py:707-727 | Accepted exactly if verified, not revoked and of acceptable age |
| Sessions.SessionRegistry.Revoke | backend/pullbackup/http_auth.py:730-752 | Only a token valid at this instant is recorded |

## Left out

- Cron parsing, time zones and daylight saving: the calendar is a parameter; `cadence_seconds` is an input of the projection.
- SQL, sessions and the ORM: tables are maps and a commit is a step. Of failing commits only one is modelled, the terminal write of an execution, which then vanishes from an active row (`Vanish` in `Protocol`).
- asyncio internals: a step is what runs between two awaits. Fairness of the semaphore and of the condition variable is not assumed and not proved; `Execution` proves that some execution can always move, not which.
- Subprocesses, signals, log files and rsync or syncoid arguments: an execution ends with an exit code, after a timeout in whole seconds, or by an interruption.
- Resolving paths and datasets: destinations are component sequences, and whether one validates is part of the task's configuration.
- Token signatures, cookies, Basic authentication, proxies and middleware: a verified token is its identifier and its instant of issue.
- The thread lock of the store and its warning about live evictions: operations are atomic, and the warning has no effect on the contents.
- `clear`, which empties both auth stores, is modelled but takes no part in the histories: the service calls it in tests only.
- Settings that change while the process runs: a store keeps one cap and one life, except in `StoreLaws.TrimSacrificesIff`, where the cap is arbitrary.
- Columns that only report: exit code, byte and file counts, log file name, and the identity of the last success that `project` passes through.
- Kuma and Matrix delivery, the web interface and the loader `project_task`: input and output only.
- NoLoss.NoOccurrenceIsLost: assumes the discipline above for the task it speaks about, in one direction: a run that breaks it need not lose anything. The exact conditions are given per breach, in `FollowUps`.
- FollowUps.StandsAfterSuccessIff: speaks of the newest execution of a task and a row that is not held; every other row and execution is in `FollowUps.ASuccessLeavesTheRowIff`, which starts after the fold.
- Freshness.MonitorSpeaksLastIff: the cadence is one parameter; the code measures it anew at every call, from the two firings after the clock.
- Services.Scheduler.Start: every job gets its own token; in `Protocol` the jobs of one restart share one, which only ever is compared within a task.
- Runners.Runner.WriteOutcome: asks that only the run's own task names the run, which `Soundness.TraceIsSound` proves of every reachable state.
- Execution.NeverDeadlocked: the lock inside the condition variable is not a resource of its own, because it is never held across an await.
