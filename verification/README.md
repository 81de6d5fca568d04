# Verification of the scheduler, the automation runs and the content pipeline

A Dafny model of the parts of the system whose correctness rests on protocols and loops, with proofs.

* **Ingestion scheduler** (`SchedulerSpec`, `SchedulerProtocol`, `SchedulerGuarantees`, `SchedulerRuns`, `SchedulerLimits`,
  `SchedulerStuck`, `Scheduler`). `SchedulerSpec` gives each region under the scheduler's mutex as a function;
  `SchedulerProtocol` lets any number of submitters and workers interleave at those regions and at the channel operations,
  and proves one invariant; `SchedulerGuarantees` draws the consequences; `SchedulerLimits` and `SchedulerStuck` show how far
  they reach, over the runs of `SchedulerRuns`; `Scheduler` is the object itself, with heap records per project, refining the
  functions. Channels are numbers, and closing one twice is a proof obligation.
* **Automation runs** (`RunLifecycle`, `Replacement`, `RunOutcomes`, `AutomationService`, `ParallelBatch`). `RunLifecycle` states
  the rule every write to the run store follows, and proves its theorems over all histories of writes, recorded attempts and
  restarts; `RunOutcomes` says what each operation makes of a run, given what it is answered; `AutomationService` is the
  service, whose every operation on runs for external runners extends its history by such writes only and has such an outcome.
  The work-task service may answer anything, except that it answers with the task asked for, completing a task yields a done
  task, and widening a task's scope keeps its identity. What it answers is a ghost result of the operation that asked, and
  every request to change a task is logged with its answer. Claim and run IDs are fresh, and the clock does not go back.
* **Content pipeline** (`Utf8`, `ChunkSpec`, `Chunker`, `SymbolSource`, `CallDiscovery`, `CallGraph`). `ChunkSpec` says what the
  chunks of a text are, and that there is only one such list; both chunkers are proved against it. `CallDiscovery` defines
  distance by walks and the order in which a breadth-first search discovers symbols; `CallGraph` is the bounded search, and is
  proved exact against both.
* **Activity log** (`ActivityLog`, `ActivityRecorder`, `ActivityReplay`, `ActivityFlush`). The ring buffer, its merge with a store
  that may have lost writes, the replay loop, and what a replay leaves out: one batch of it, and the whole loop.

`Wrappers` and `Counting` are shared helpers. `dafny verify dfyconfig.toml` checks everything.

## What turned out not to hold

* Workers can get stuck for good, whatever the options (`StuckIsReachable`); `StuckExactly` says of every reachable state
  whether anything can still run, short of stopping the pool.
* A Start after a Stop that timed out exceeds GlobalWorkerCount, if and only if a worker is left over, and by as many
  (`OverrunExactly`); several such Stops add up (`StopThatTimedOut`).
* The store ignores a running update under three recovery summaries unless the run had failed. Heartbeats of recovered runs are
  therefore lost and their runners are given up after 90 seconds (`LeaseCanBeLost`, `FollowAfterHeartbeat`); the lease holds for
  exactly the runs without such a summary (`LeaseLostExactly`). Blocked runs are never recovered, and a queued review run is
  handed out without a claim (`GuardedClaimTakesExactly`, `PrepareRunForExecution`).
* A stale claim is accepted by a run that carries no runner ID (`StaleReportIsAccepted`), and by no other running run
  (`ReportsAcceptedExactly`).
* A replacement run stays queued when its task has failed too often but cannot be blocked (`PrepareRun`).
* File names with blanks around them escape the conflict check of a batch (`NameIsCaughtExactly`).
* TextTruncated is set for a symbol that fits exactly (`FlagErrsExactly`).
* The two chunkers differ on the empty text when the limit is not positive (`StreamingRefinesBatch`).
* Replay with a cursor store skips events for good (`ReplayThatSkips`): a batch exactly as `ReplaySkipsExactly` says, the loop as
  `MissesNothingExactly` does.

## Model

| member | source | states |
|---|---|---|
| `SchedulerGuarantees.NoLostWakeup` | internal/projectingestion/scheduler.go:631-658 | In every reachable state a blocked worker's channel is closed, or is the current channel of its project's live record while its guard is false, also after the record was deleted and made anew; and a blocked task that would be let in can wake. |
| `SchedulerGuarantees.CloseNeverPanics` | internal/projectingestion/scheduler.go:689-756 | No reachable state lets a project's current channel be closed a second time. |
| `SchedulerGuarantees.PendingConservation` | internal/projectingestion/scheduler.go:712-756 | `pendingProjectWide`, `projectWidePending` and the number of project-wide tasks registered but neither started nor withdrawn are equal, and a record exists exactly while its project has active or pending tasks. |
| `SchedulerGuarantees.WithdrawNeverClamps` | internal/projectingestion/scheduler.go:517-540 | A submitter that withdraws decrements positive counts, whether its queue was full or its context cancelled. |
| `SchedulerGuarantees.WorkerNeverClamps` | internal/projectingestion/scheduler.go:577-642 | A worker that starts or gives up a project-wide task decrements positive counts. |
| `SchedulerGuarantees.ReleaseNeverClamps` | internal/projectingestion/scheduler.go:660-687 | Every counter releaseProject lowers is positive when it does. |
| `SchedulerGuarantees.Exclusion` | internal/projectingestion/scheduler.go:698-706 | Of two tasks of one project that run at once neither is project-wide. |
| `SchedulerGuarantees.Capacity` | internal/projectingestion/scheduler.go:640-651 | Each project stays within its limit, the diagnostic maps are what really runs, and the total is the sum over the projects. |
| `SchedulerGuarantees.GlobalCapacity` | internal/projectingestion/scheduler.go:109-128 | Never more tasks are active than workers are left, and at most GlobalWorkerCount unless workers of an earlier Start are still there. |
| `SchedulerGuarantees.WriterPreference` | internal/projectingestion/scheduler.go:698-706 | While a project-wide task is pending the active count of its project does not rise, except from 0 to 1 when a project-wide task starts. |
| `SchedulerGuarantees.WaitingDrains` | internal/projectingestion/scheduler.go:698-706 | Over any run in which a project-wide task is kept waiting its project only drains. |
| `SchedulerGuarantees.EnabledDrain` | internal/projectingestion/scheduler.go:631-651 | A worker holding a project-wide task of a project without active tasks can start it, at most one wake-up away. |
| `SchedulerGuarantees.HeldWriterProgress` | internal/projectingestion/scheduler.go:698-700 | A worker holding a project-wide task can start it exactly when no task of the project runs. |
| `SchedulerGuarantees.RefusedExactly` | internal/projectingestion/scheduler.go:631-658 | When all workers are blocked none is let in as things are exactly when each holds a path task of a project whose project-wide task is pending and held by no worker. |
| `SchedulerGuarantees.AdmitsExactly` | internal/projectingestion/scheduler.go:698-706 | In every reachable state a path task is let in if and only if no project-wide task of its project runs or waits and fewer than PerProjectWorkerLimit tasks of it run; a project-wide one if and only if none runs. |
| `SchedulerGuarantees.FullQueueFirst` | internal/projectingestion/scheduler.go:552-560 | From every reachable state a worker in search of work takes the oldest project-wide task queued, if there is one. |
| `SchedulerGuarantees.LiveQueueNext` | internal/projectingestion/scheduler.go:561-567 | If none is registered, and live paths are to be preferred, it takes the oldest path task queued. |
| `SchedulerGuarantees.QueuesBounded` | internal/projectingestion/scheduler.go:517-540 | Neither queue ever holds more than QueueDepth tasks. |
| `SchedulerStuck.StuckExactly` | internal/projectingestion/scheduler.go:542-658 | For every reachable state: no continuation without a Stop or a cancelled parent context has any worker run a task if and only if the pool is started and every worker, unless it has exited, is uncancelled and waits behind a project-wide task in the full queue, or is bound to take a path task that will. |
| `SchedulerStuck.StuckForever` | internal/projectingestion/scheduler.go:542-658 | Over any such continuation a stuck pool stays stuck, and no worker runs a task. |
| `SchedulerStuck.StuckWhenBlocked` | internal/projectingestion/scheduler.go:552-658 | When all workers are blocked the pool is stuck exactly when each holds a path task of a project whose project-wide task is in the full queue; one whose submitter can still withdraw does not count. |
| `SchedulerStuck.StuckIsReachable` | internal/projectingestion/scheduler.go:552-575 | For all options and every project: path tasks taken by each worker just before a full scan of their project is registered get the whole pool stuck. |
| `SchedulerLimits.OverrunExactly` | internal/projectingestion/scheduler.go:109-153 | From any reachable stopped state, until the next Stop: never more than GlobalWorkerCount plus the workers left over are active, that number is reached if a worker is left over, and so GlobalWorkerCount is exceeded in some continuation if and only if a worker is left over. |
| `SchedulerLimits.ActiveWithinRoom` | internal/projectingestion/scheduler.go:109-128 | Whatever is done short of a Stop, the active tasks stay within the workers there are and those the next Start makes. |
| `SchedulerLimits.FillUp` | internal/projectingestion/scheduler.go:109-153 | Workers left over by a Stop that did not wait empty the queues, and can then all run tasks beside those of the next Start. |
| `SchedulerLimits.StopThatTimedOut` | internal/projectingestion/scheduler.go:130-153 | For all options and every n a state with n times GlobalWorkerCount active tasks is reachable, by Stops that do not wait. |
| `SchedulerLimits.LimitIsReached` | internal/projectingestion/scheduler.go:698-706 | For all options, every project and every k up to PerProjectWorkerLimit: a state in which exactly k path tasks of it run, and no project-wide one, is reachable. |
| `SchedulerProtocol.StepKeeps` | internal/projectingestion/scheduler.go:517-756 | Every atomic step of any submitter or worker keeps the invariant over counters, maps, channels and waiters. |
| `SchedulerProtocol.RunKeeps` | internal/projectingestion/scheduler.go:517-756 | So does every interleaving of steps. |
| `SchedulerProtocol.MovesOneWorker` | internal/projectingestion/scheduler.go:542-629 | A step other than Start moves at most one worker, and only an acquisition whose guard held makes it run. |
| `SchedulerSpec.Normalize` | internal/projectingestion/scheduler.go:84-107 | A new scheduler's limits are positive and ordered; missing ones get the defaults, a per-project limit above the global one is cut to it, and admissible options are kept as they are. |
| `SchedulerSpec.RegisterKeeps` | internal/projectingestion/scheduler.go:712-724 | Registering raises exactly its own project's pending count. |
| `SchedulerSpec.UnregisterKeeps` | internal/projectingestion/scheduler.go:726-756 | Unregistering lowers it by exactly one, and forgets the project when nothing is left of it. |
| `SchedulerSpec.AcquireKeeps` | internal/projectingestion/scheduler.go:631-651 | An acquisition moves one task from pending to active, and changes no other project. |
| `SchedulerSpec.ReleaseKeeps` | internal/projectingestion/scheduler.go:660-687 | A release undoes it. |
| `SchedulerSpec.RegisterWakesWaiters` | internal/projectingestion/scheduler.go:712-724 | No waiter misses what a registration changes. |
| `SchedulerSpec.UnregisterWakesWaiters` | internal/projectingestion/scheduler.go:726-756 | No waiter misses what a withdrawal changes, even when the record it waits on is deleted. |
| `SchedulerSpec.AcquireWakesWaiters` | internal/projectingestion/scheduler.go:631-651 | No waiter misses what an acquisition changes. |
| `SchedulerSpec.ReleaseWakesWaiters` | internal/projectingestion/scheduler.go:660-687 | No waiter misses what a release changes, even when the record it waits on is deleted. |
| `Scheduler.Scheduler.constructor` | internal/projectingestion/scheduler.go:84-107 | An empty scheduler with normalised limits. |
| `Scheduler.Scheduler.ProjectStateLocked` | internal/projectingestion/scheduler.go:689-696 | Returns the project's own record, made if there is none; the other records stay as they are. |
| `Scheduler.Scheduler.DecrementPendingProjectWideLocked` | internal/projectingestion/scheduler.go:744-756 | Lowers both counts and announces the change. |
| `Scheduler.Scheduler.RegisterPendingProjectWide` | internal/projectingestion/scheduler.go:712-724 | Refines the specification of registering on the heap's records; registering twice does nothing. |
| `Scheduler.Scheduler.UnregisterPendingProjectWide` | internal/projectingestion/scheduler.go:726-742 | Refines the specification of withdrawing; withdrawing what is not pending does nothing. |
| `Scheduler.Scheduler.TryAcquireProject` | internal/projectingestion/scheduler.go:631-658 | One turn of the acquire loop refines the specification, whose admission `AdmitsExactly` states, and otherwise yields the channel to wait on. |
| `Scheduler.Scheduler.CanAcquireProjectLocked` | internal/projectingestion/scheduler.go:698-706 | The guard on the heap's record is the guard of the specification. |
| `Scheduler.Scheduler.ReleaseProject` | internal/projectingestion/scheduler.go:660-687 | Refines the specification of a release, through announcement and deletion. |
| `RunLifecycle.StepKeeps` | internal/projectautomation/service.go:996-2540 | Every legal write to the run store, every attempt recorded and every restart keeps the invariant of all runs and attempts. |
| `RunLifecycle.HistoryKeeps` | internal/projectautomation/service.go:996-2540 | So does every history, over any number of restarts. |
| `RunLifecycle.RetryBound` | internal/projectautomation/service.go:1378-1395 | In every history AttemptCount is the number of claims of the run that took effect, and never more than its agent's automationMaxRetries. |
| `RunLifecycle.NoAttemptWithoutClaim` | internal/projectautomation/service.go:996-1064 | A queued run, and one with ClaimedAt unset, has made no attempt. |
| `RunLifecycle.CompletedForGood` | internal/projectautomation/service.go:2364-2513 | A completed run carries WorkTaskStatus done, and no later event of any history changes it. |
| `RunLifecycle.RunAges` | internal/projectautomation/service.go:1378-1387 | The claim a run carries never goes back to an earlier one; and while it stays the same, so does the time it was made, and a running run has run all along under one summary. |
| `RunLifecycle.StaleClaimIsFenced` | internal/projectautomation/service.go:1489-1514 | Once a running run has been claimed again with a runner, an earlier claim is older, and neither a report nor a heartbeat that carries it is a legal write, nor may an attempt be recorded for it. |
| `RunLifecycle.ReportsAcceptedExactly` | internal/projectautomation/service.go:1507-1514 | A report on a running run can be written if and only if the claim and runner match or the run has no runner. |
| `RunLifecycle.StaleReportIsAccepted` | internal/projectautomation/service.go:1507-1514 | A whole history in which a run that failed to prepare its worktree, claimed anew by a runner without an ID, is ended by a report under its earlier claim. |
| `RunLifecycle.LeaseSafety` | internal/projectautomation/service.go:2177-2255 | A run claimed in this service lifetime is given up only after 90 seconds without claim or heartbeat, unless it carries one of the three guarded summaries. |
| `RunLifecycle.LeaseLostExactly` | internal/projectautomation/service.go:2177-2255 | For every history and every running run claimed in this service lifetime: some continuation gives it up, still under that claim, within 90 seconds of its runner being heard of if and only if it carries a guarded summary. |
| `RunLifecycle.HeardIsRecorded` | internal/projectautomation/store/store.go:12-22 | The time of the last claim or heartbeat sent is the LastHeartbeatAt stored, for every running run without a guarded summary. |
| `RunLifecycle.InterruptionHasCause` | internal/projectautomation/service.go:2177-2255 | Whoever is given up had an expired lease, or was read under the same claim as last written before the service started. |
| `RunLifecycle.HeartbeatDroppedExactly` | internal/projectautomation/store/store.go:12-22 | The store drops the heartbeat of a running run if and only if the run carries one of three recovery summaries. |
| `RunLifecycle.GuardedRunIgnoresHeartbeats` | internal/projectautomation/store/store.go:12-22 | Any number of heartbeats leaves such a run as its claim left it. |
| `RunLifecycle.GuardedRunIsLost` | internal/projectautomation/store/store.go:12-22 | Such a run may be given up 90 seconds after its claim, however recently it was heard of. |
| `RunLifecycle.LeaseCanBeLost` | internal/projectautomation/store/store.go:12-22 | A whole history in which a run recovered after a failed worktree preparation is given up 33 seconds after its last heartbeat. |
| `RunLifecycle.GuardedClaimTakesExactly` | internal/projectautomation/store/store.go:12-22 | A claim under one of those summaries takes effect if and only if the run had failed; on a blocked or starting run it is dropped. |
| `AutomationService.Service.StartAgain` | internal/projectautomation/service.go:390-419 | A restart moves only the service's start time, and is one more event of the history. |
| `AutomationService.Service.UpdateRun` | internal/projectautomation/store/memory.go:127-139 | Stores the run or keeps the existing one, and answers with what is stored; the history stays well-formed. |
| `AutomationService.Service.CreateAttempt` | internal/projectautomation/store/memory.go:141-149 | Records one attempt, which only a report under the run's own claim may do. |
| `AutomationService.Service.CreateRun` | internal/projectautomation/store/memory.go:82-90 | Adds one run under a fresh ID. |
| `AutomationService.Service.SubmitRun` | internal/projectautomation/service.go:560-619 | A submitted run is queued, or refused with its reason as failure category, unclaimed: for its runner; for its reviews, if and only if one of them cannot be made ready or does not read as done, so never when none is asked for; or for a later reason. Runs there were do not change, and others that appear are queued review gates. |
| `AutomationService.Service.EnsureRequiredAutomationReviewRuns` | internal/projectautomation/service.go:3713-3779 | Succeeds exactly when every review can be found and made ready; then each that is ready has an active run; only queued, unclaimed runs are added, and none changes. |
| `AutomationService.Service.QueueUnlessActive` | internal/projectautomation/service.go:3050-3071 | Queues a run if and only if the automation, plan and task have no active one, and then it is the only active one. |
| `AutomationService.Service.RunNow` | internal/projectautomation/service.go:730-742 | A run for an external runner waits under its own summary, or is readied for publishing finished work, for each answer of the work-task service in its own way; it has made no attempt. |
| `AutomationService.Service.ExecuteQueuedRun` | internal/projectautomation/service.go:811-830 | Marks a queued run as waiting for an external runner and changes nothing else of it; any other run is left alone. |
| `AutomationService.Service.PrepareExternalGitOpsPostTaskRecoveryRun` | internal/projectautomation/service.go:766-809 | For each answer of the work-task service: the run becomes a failed one that can be claimed to publish finished work, or is refused with the category that belongs to it, or stays as it was when the service refuses. |
| `AutomationService.Service.HeartbeatRun` | internal/projectautomation/service.go:1628-1664 | Accepted exactly for an active run under its own claim and runner; a refusal changes nothing; an accepted one renews the lease and changes nothing else, or nothing at all if the summary is guarded; attempts on record and tasks are never touched. |
| `AutomationService.Service.FollowAfterHeartbeat` | internal/projectautomation/service.go:2101-2120 | A running run with an open task is heard of once its lease has run out, and then looked at: under a guarded summary the heartbeat is answered and the run timed out all the same; otherwise it is not timed out before the 90 seconds that the heartbeat brought are over. |
| `AutomationService.Service.CompleteAttempt` | internal/projectautomation/service.go:1462-1609 | A report is taken if and only if its claim matches a running run, or it is not settled and a late one is believed; otherwise the answer is exact and nothing changes, on the runs, the attempts or any task. One that is taken puts its attempt on record and ends the run: a completion writes it as verifying, or as failed with the review lost if and only if the review cannot be queued, and it then follows its task; any other report ends it as reported, or hands its task back. Attempt count and claim never change. |
| `AutomationService.Service.RecordReport` | internal/projectautomation/service.go:1540-1609 | The writing part: nothing if the governance record is refused; a failure as attempt_record_failed if the attempt cannot be recorded; otherwise first the attempt, then a report under that claim that writes the run as verifying or as its end. |
| `AutomationService.Service.EndCompleted` | internal/projectautomation/service.go:1578-1607 | A completion writes the run, under the claim reported, as verifying, and then it follows its task; or, if and only if its review cannot be queued, as failed with that category. |
| `RunOutcomes.CompletionFollowsTask` | internal/projectautomation/service.go:1578-1607 | A run whose completion is reported ends completed if and only if its task is done or is closed out, blocked, failed or cancelled if and only if the task's status says so or, for failed, the work has yet to be published, and otherwise stays verifying. |
| `RunOutcomes.OutcomeIsLegal` | internal/projectautomation/service.go:1558-1593 | However a run ends, by a report or a hand-back, the write follows the rules, is kept by the store, and leaves attempts and claim as they were. |
| `AutomationService.Service.EndOtherwise` | internal/projectautomation/service.go:1584-1593 | Other than completed, a run ends as reported and nothing else about it changes; a failed publication hands its task back. |
| `AutomationService.Service.QueuePostImplementationReview` | internal/projectautomation/service.go:2960-3080 | Fails exactly when a review that is needed cannot be made ready or has nothing to run it; otherwise a ready review has an active run afterwards, and a run is queued, under the guarded summary, if and only if it had none. |
| `AutomationService.Service.QueueOutstandingReviews` | internal/projectautomation/service.go:2971-2993 | Every verifying run that needs a review gets one, unless the review of one of them fails. |
| `AutomationService.Service.TakesLateReport` | internal/projectautomation/service.go:1495-1505 | A late report is taken if and only if the run is still being prepared and owns its task, or it is a completion and the run is verifying or its task was finished by a recovery. |
| `AutomationService.Service.IsSettled` | internal/projectautomation/service.go:1486-1494 | A late report is answered without effect if and only if it is on record already, the task has overtaken it, or the service found the failure itself. |
| `AutomationService.Service.ClaimNextRun` | internal/projectautomation/service.go:858-994 | Up to three rounds, all but the first after all reconciling passes: a run is handed out by the first claiming pass that can claim one, every earlier pass having asked in vain for every run, or from the queue past all checks. It is running under the latest claim with a 90-second lease, or a guarded run that is still starting and unclaimed; a run from the queue is no younger than any that still waits for the agent. With none to hand out all three rounds have been made, every pass asked in vain, and none waits, but for a replacement past its limit whose task cannot be blocked. |
| `AutomationService.Service.ClaimQueued` | internal/projectautomation/service.go:925-945 | Tries the queued runs oldest first: every run for the agent that is older than the one handed out has been turned away; of the replacements only one whose task has failed too often may be left queued. |
| `AutomationService.Service.ClaimAgain` | internal/projectautomation/service.go:1066-1372 | The run claimed is one that can be, and every run updated earlier was asked for in vain; when none is claimed none could be. It gets one more attempt and a fresh claim under the summary of the pass, and no other run's claim changes. |
| `AutomationService.Service.ReconcileAll` | internal/projectautomation/service.go:894-915 | Unless the work-task service refuses something, all passes are made in their order, and each makes of every run with its statuses exactly what the answers about it say, and of no other anything; no run gets or loses a claim or an attempt, and none is forgotten. |
| `AutomationService.Service.RefreshRuns` | internal/projectautomation/service.go:629-666 | Listing runs first brings the running and then the verifying ones up to date, each to exactly what its task says; that gives no run a claim or an attempt, takes none away and forgets none. |
| `AutomationService.Service.ClaimInterruptedStartingRun` | internal/projectautomation/service.go:996-1064 | Claims a stuck run if and only if it suits the agent, has never been claimed, owns an open task that can be started, and is allowed and not guarded; it is then its first claim; otherwise the run stays as it was. |
| `AutomationService.Service.ClaimPreExecutionRecovery` | internal/projectautomation/service.go:1066-1122 | Claims a run once more if and only if it has failed before execution, can be retried, is allowed and its task can be started for it; a blocked one never; unclaimed, it stays as it was, or fails for want of a plan when dirty paths lie outside its task. |
| `AutomationService.Service.ClaimGitOpsPostTaskRecovery` | internal/projectautomation/service.go:1214-1261 | Claims a run once more, keeping its failure on record, if and only if its publication failed, can be retried, is allowed, and its finished task is its own; otherwise changes nothing. |
| `AutomationService.Service.ClaimPostImplementationReviewRecovery` | internal/projectautomation/service.go:1325-1372 | Claims a failed review run once more if and only if it can be retried, suits the agent, is allowed and its review is not done; otherwise changes nothing. |
| `AutomationService.Service.PrepareTaskForPreExecutionRecovery` | internal/projectautomation/service.go:1185-1212 | The task of another run is left alone; a task of nobody is claimed first; and it is started unless it has been. |
| `AutomationService.Service.Reclaim` | internal/projectautomation/service.go:1374-1387 | A claim takes effect exactly when its summary is unguarded or the run had failed; otherwise nothing changes. |
| `AutomationService.Service.PrepareRunForExecution` | internal/projectautomation/service.go:3221-3301 | A queued run that is handed out has passed every check: its automation, policy, reviews, task, replacement limit, fitness of the task to be executed, and dependencies. It is claimed with its first attempt, or, under a guarded summary, handed out unclaimed; one that is not ends with the status and category of the first check it fails, or failed because it could not be claimed or started, or stays queued when it is a replacement past its limit whose task could not be blocked. |
| `AutomationService.Service.PrepareRun` | internal/projectautomation/service.go:3221-3285 | A replacement whose task has used up its replacements is never started: its task is to be blocked, and the run with it. Any other run is handed on if and only if all checks pass, without any request before, and is else refused with the status and category of the first that fails. |
| `AutomationService.Service.PrepareFound` | internal/projectautomation/service.go:3251-3260 | A task that may not be executed, or waits for others, is not started; the run is refused with that as its category. |
| `AutomationService.Service.ReplacementRetryLimitReached` | internal/projectautomation/service.go:2809-2821 | True exactly for a replacement whose task has three failures that handed it back. |
| `AutomationService.Service.BlockRunAfterReplacementRetryLimit` | internal/projectautomation/service.go:2823-2838 | The task is asked to be blocked, and the run is blocked if and only if that is granted. |
| `AutomationService.Service.TakeTask` | internal/projectautomation/service.go:3259-3285 | The task is claimed and then started, and the run goes through claiming to starting without gaining an attempt, or ends blocked as claim_failed or start_failed. |
| `AutomationService.Service.FailRun` | internal/projectautomation/service.go:3631-3637 | Ends a run without touching its attempts or claim. |
| `AutomationService.Service.ReconcileRunningRun` | internal/projectautomation/service.go:2074-2155 | An active run whose task is done completes, and one whose task has ended ends like it; with an open task it is given up if and only if its lease is over or it was last written before the service started; otherwise it follows its task or goes on. No other run changes; attempts and claim stay. |
| `AutomationService.Service.FollowRunningTask` | internal/projectautomation/service.go:2121-2154 | A running run whose task is not advanced takes note of its status; one whose task is goes on to verification, unless an audit owes a remediation: then it fails once its claim is over and its task could be failed. |
| `AutomationService.Service.FailRunningAuditWithoutRemediation` | internal/projectautomation/service.go:2157-2175 | The task is asked to be failed; the run fails if and only if that is granted. |
| `AutomationService.Service.RequeueAbandonedRunningRun` | internal/projectautomation/service.go:2202-2255 | For any earlier reading of the run with its lease over or a last update before the service started: writes if and only if tasks can be updated, status, claim, runner and lease are as they were read and the run is active; then it is timed out as interrupted, and its task asked to be made ready. |
| `AutomationService.Service.ReconcileVerifyingRun` | internal/projectautomation/service.go:2364-2435 | A verifying run whose task is done is completed; one whose task has ended ends like it; one whose work has yet to be published fails to be claimed again for that; one whose task can be closed is completed if the work-task service closes it, and stays if not; any other takes note of its task's status. No other run changes. |
| `AutomationService.Service.MoveToVerifying` | internal/projectautomation/service.go:2139-2154 | The run is written as verifying and then becomes what its task makes of a verifying run. |
| `AutomationService.Service.CompleteRunAfterTaskDone` | internal/projectautomation/service.go:2492-2513 | The run is completed with a task that is done; attempts and claim stay; after that no ready task listed calls for a new run, unless the work-task service refuses in between. |
| `AutomationService.Service.FinishRunAfterTaskTerminal` | internal/projectautomation/service.go:2515-2540 | The run ends the way its task did. |
| `AutomationService.Service.ReconcileProgressedRun` | internal/projectautomation/service.go:2257-2307 | Only interrupted runs and runs that failed before execution change: completed with their task, ended like it, or moved on to verification, if the task is still theirs. |
| `AutomationService.Service.ReconcileExhaustedGitOpsRun` | internal/projectautomation/service.go:1263-1294 | Exactly the failed runs without retries that were publishing their finished work hand their task back, unless the work-task service refuses. |
| `AutomationService.Service.ReconcileExhaustedPreExecutionRun` | internal/projectautomation/service.go:1296-1323 | Exactly the failed or blocked runs without retries that failed before execution, with an open task of their own, end failed, handed back or in want of a plan, unless the work-task service refuses. |
| `AutomationService.Service.RequeueTaskAfterGitOpsRecoveryFailure` | internal/projectautomation/service.go:1763-1843 | The run fails: with its own category if the task cannot be changed or read; in want of a plan, the task having been blocked, if and only if reported paths lie outside it; and else as handed back, the task having been made ready. Nothing is written if and only if the service refuses that. |
| `AutomationService.Service.RequeueTaskAfterPreExecutionRecoveryFailure` | internal/projectautomation/service.go:1974-2034 | The run fails as handed back, under a summary that names the first failure, or in want of a plan if and only if its task was blocked for dirty paths outside it, or nothing is written because the service refuses. |
| `AutomationService.Service.ReturnTask` | internal/projectautomation/service.go:1802-1836 | The task is asked to be made ready, and the run fails if and only if that is granted; after that its automation, if still enabled, is not called for any more for it. |
| `AutomationService.Service.ExpandOrBlockPreExecutionDirtyScope` | internal/projectautomation/service.go:1937-1972 | A run that failed over dirty paths on record is ended if and only if they lie outside its task and the task was blocked; paths inside may widen the task. |
| `AutomationService.Service.BlockTaskAfterOutOfScopeDirtyPaths` | internal/projectautomation/service.go:1847-1874 | The run takes the blocked task's status and fails in want of a plan, if and only if the task was blocked. |
| `AutomationService.Service.RepairStaleReadyTask` | internal/projectautomation/service.go:2309-2362 | Asks for a task to be made ready again exactly when its run handed it back and it did not stay ready; no run there is changes. |
| `AutomationService.Service.SyncTaskStatus` | internal/projectautomation/service.go:2123-2130 | Records the task's status, except on a guarded running run. |
| `AutomationService.Service.DecideReplacement` | internal/projectautomation/service.go:2728-2757 | Decides as `Replacement.Decide` does of the runs there are, after the scope of a task that failed too often may have been widened; leaves it if and only if that is refused. |
| `AutomationService.Service.QueueReadyDependentAutomation` | internal/projectautomation/service.go:2728-2773 | Adds exactly one queued run of the automation and task when the decision says so, and otherwise none; asks for the task to be blocked when it has failed three times; fails exactly when its last request is refused; and when it does not, no new run is called for any more. |
| `AutomationService.Service.QueueReplacements` | internal/projectautomation/service.go:2604-2635 | Over any list of automations and ready tasks: runs there are stay, and unless a request is refused none of the tasks calls for a new run any more. |
| `RunOutcomes.StillNotQueued` | internal/projectautomation/service.go:2728-2757 | More runs never make a new one necessary. |
| `AutomationService.Service.CountFailures` | internal/projectautomation/service.go:2851-2866 | Counts exactly the failures that have handed the task back since its last system fix. |
| `Replacement.QueuesExactly` | internal/projectautomation/service.go:2728-2757 | A run is queued if and only if none is active, fewer than three have failed, and every existing one is replaceable. |
| `Replacement.QueuedRunIsAlone` | internal/projectautomation/service.go:2728-2773 | Afterwards exactly one run of automation, plan and task is active. |
| `Replacement.FirstIsAlone` | internal/projectautomation/service.go:3050-3071 | So it is for any run queued when none was active. |
| `Replacement.ThreeFailuresStopReplacing` | internal/projectautomation/service.go:2742-2745 | From three failures on nothing is queued, and the task is blocked exactly when no active run is of another origin. |
| `Replacement.ActiveIsKept` | internal/projectautomation/service.go:2883-2945 | No active run counts as replaceable. |
| `ParallelBatch.ComputeParallelBatch` | internal/projectautomation/service.go:3157-3219 | Selects greedily, for candidates with and without IDs: a candidate is taken exactly when it is eligible, there is room, and none of its files is held by a task taken before; no batch exactly when nothing was taken. |
| `ParallelBatch.FirstFileConflict` | internal/projectautomation/service.go:4080-4091 | Finds a conflict exactly when a trimmed, folded, non-blank name is in use. |
| `ParallelBatch.AllDone` | internal/projectautomation/service.go:3856-3864 | True exactly when every dependency is found and done. |
| `ParallelBatch.ConflictIsClash` | internal/projectautomation/service.go:3192-3197 | The map of used names tells exactly whether a file of the candidate was last claimed by a selected task with an ID. |
| `ParallelBatch.ClashIsSharing` | internal/projectautomation/service.go:4080-4091 | For trimmed names clashing is sharing a folded file name. |
| `ParallelBatch.SelectedAreDisjoint` | internal/projectautomation/service.go:3186-3199 | With trimmed names no task selected later shares a folded file name with a selected task that has an ID. |
| `ParallelBatch.SelectedCanStart` | internal/projectautomation/service.go:3189-3194 | Selected tasks are ready with all dependencies done, and none depends on another. |
| `ParallelBatch.SelectionIsMaximal` | internal/projectautomation/service.go:3185-3200 | Below the limit every eligible task left out clashes with a selected one before it. |
| `ParallelBatch.EmptyExactly` | internal/projectautomation/service.go:3201-3203 | There is no batch exactly when no candidate is eligible. |
| `ParallelBatch.BatchIsUnique` | internal/projectautomation/service.go:3157-3219 | The contract of the selection fixes its answer. |
| `ParallelBatch.NameIsCaughtExactly` | internal/projectautomation/service.go:3186-3199 | In any list of tasks with IDs: an eligible task that there is room for is taken if and only if no trimmed file of its folds to an untrimmed one of a task selected before; a file it shares with one of those is blank, or trimming changes how it folds. |
| `ParallelBatch.SharedNameIsCaughtExactly` | internal/projectautomation/service.go:3196-3198 | Two eligible tasks with any files are both taken if and only if no trimmed file of the second folds to an untrimmed one of the first, or the first has no ID; a file both name escapes only if it is blank or trimming changes how it folds, and a single such file does. |
| `Utf8.DecodeThenEncode` | internal/projectingestion/chunker.go:73-78 | Re-encoding the rune just read gives back its bytes. |
| `Utf8.EncodeThenDecode` | internal/projectingestion/chunker.go:73-78 | Every scalar value is read back from its encoding. |
| `Utf8.BoundaryIsBetweenRunes` | internal/projectingestion/query.go:544-547 | In well-formed text utf8.RuneStart holds exactly between two runes. |
| `ChunkSpec.ChunkingIsUnique` | internal/projectingestion/chunker.go:192-255 | A text has one chunking only: the specification fixes every index, line, offset and byte. |
| `ChunkSpec.Lossless` | internal/projectingestion/chunker.go:239-254 | The chunk texts put together are the text. |
| `ChunkSpec.ChunkAt` | internal/projectingestion/chunker.go:208-233 | Chunks are contiguous from offset 0, slices of the text within the limit, with the lines of their first and last rune. |
| `ChunkSpec.ChunksAreWellFormed` | internal/projectingestion/chunker.go:225-233 | Every cut falls between runes; no chunk is empty. |
| `ChunkSpec.InnerChunksAreLong` | internal/projectingestion/chunker.go:239-244 | Every chunk but the last has at least max - 3 bytes. |
| `ChunkSpec.FewChunks` | internal/projectingestion/chunker.go:239-244 | For max of 4 and more there are at most len/(max-3)+1 chunks. |
| `ChunkSpec.OnlyMalformedTextFails` | internal/projectingestion/chunker.go:225-233 | For max of 4 and more the fault is that the text is malformed, and only that. |
| `Chunker.ChunkEligibleText` | internal/projectingestion/chunker.go:192-255 | The batch loop yields the chunking, or the first fault of the text, or refuses a limit that is not positive. |
| `Chunker.BuildChunksFromReader` | internal/projectingestion/chunker.go:54-132 | The streaming loop yields the same chunking, or the same fault. |
| `Chunker.StreamingRefinesBatch` | internal/projectingestion/chunker.go:134-255 | Both answers are equal if and only if the limit is positive; they succeed on the same inputs except for an empty text with no positive limit. |
| `Chunker.StreamingChunkBuilder.AppendRune` | internal/projectingestion/chunker.go:147-165 | Refuses a rune wider than a chunk without effect, and else reads it. |
| `Chunker.StreamingChunkBuilder.Flush` | internal/projectingestion/chunker.go:167-182 | Cuts off the current chunk, if there is one. |
| `Chunker.StreamingChunkBuilder.Finish` | internal/projectingestion/chunker.go:184-190 | Yields the chunking of everything fed, stamped with the final hash. |
| `Chunker.AppendKeeps` | internal/projectingestion/chunker.go:147-165 | Reading one more rune keeps what the chunks promise of the text read so far. |
| `Chunker.FlushKeeps` | internal/projectingestion/chunker.go:167-182 | Cutting off the rest completes the partition. |
| `SymbolSource.GetSymbolSource` | internal/projectingestion/graph_store.go:837-884 | On the chunks of a file, any symbol range: the longest prefix of the range's bytes that ends on a rune boundary and fits, also on the early exit; TextTruncated says whether the range has at least the limit's bytes. |
| `SymbolSource.TruncateUTF8Bytes` | internal/projectingestion/query.go:537-552 | Leaves what fits alone, and else cuts back to the last rune boundary that fits. |
| `SymbolSource.FlagErrsExactly` | internal/projectingestion/graph_store.go:874-877 | TextTruncated is wrong exactly for a symbol of as many bytes as the limit. |
| `SymbolSource.AlignedSource` | internal/projectingestion/graph_store.go:837-884 | For a symbol between rune boundaries and a limit of 4 and more the text is well-formed, not empty, and at most three bytes short. |
| `SymbolSource.SortingRestoresOrder` | internal/projectingestion/graph_store.go:849-856 | Sorting a file's chunks by byte_start restores their order, whatever order they are listed in. |
| `SymbolSource.LongestIsUnique` | internal/projectingestion/query.go:537-552 | The longest prefix that fits is one only. |
| `CallGraph.GetSymbolCallGraph` | internal/projectingestion/graph_store.go:1003-1083 | Terminates; the symbols are exactly the first max(1, MaxNodes) in the order of discovery within MaxDepth, each at its shortest distance, truncated or not; truncated exactly when more than max(1, MaxNodes) lie within MaxDepth, and else they are all; the edges are exactly the calls of symbols nearer than MaxDepth; an error names the first missing symbol in the order of discovery. |
| `CallDiscovery.WithinIsWalk` | internal/projectingestion/graph_store.go:1012-1056 | Lying within n calls means that a walk of at most n calls leads there. |
| `CallGraph.SearchIsExact` | internal/projectingestion/graph_store.go:1012-1056 | A search that has not been truncated has found everything within reach, at its shortest distance. |
| `CallGraph.TruncatedExactly` | internal/projectingestion/graph_store.go:1035-1039 | A search is truncated exactly when more symbols lie within reach than there is room for. |
| `CallGraph.TurnKeeps` | internal/projectingestion/graph_store.go:1012-1056 | Every turn keeps the search's invariant and makes progress, or fails for a missing symbol within reach. |
| `CallGraph.ExpandHead` | internal/projectingestion/graph_store.go:1012-1056 | One turn with its two loops refines the functional search step, for which `TurnFinds` holds. |
| `CallGraph.TurnFinds` | internal/projectingestion/graph_store.go:1012-1056 | Every turn asks the next symbol in the order of discovery and finds what is discovered from it, or fails for the first missing one. |
| `CallGraph.FoundAll` | internal/projectingestion/graph_store.go:1014-1056 | With an empty queue the symbols asked are the first in the order of discovery, as many as there is room for. |
| `CallDiscovery.DiscoveryIsBreadthFirst` | internal/projectingestion/graph_store.go:1024-1056 | The order of discovery is breadth first: each symbol is come upon from an earlier one, nothing leads to it before that, and symbols follow each other by who leads to them, callees before callers, and calls in sorted order. |
| `CallDiscovery.DiscoveryIsWithin` | internal/projectingestion/graph_store.go:1012-1056 | What is discovered within n levels is what lies within n calls, each symbol once. |
| `CallDiscovery.CallsKeepOrder` | internal/projectingestion/graph_store.go:1034-1035 | The calls of a symbol are taken in the order they are sorted in, none left out. |
| `CallDiscovery.NeighboursInOrder` | internal/projectingestion/graph_store.go:1020-1045 | A symbol's neighbours are met in the order of the steps to them: the calls it makes, then those made to it. |
| `ActivityRecorder.Recorder.Record` | internal/agentactivity/recorder.go:97-130 | Gives the next ID, logs the event once, and keeps the newest `capacity` events; a lost store write loses nothing from the ring. |
| `ActivityRecorder.Recorder.RingIsContiguous` | internal/agentactivity/recorder.go:97-109 | The ring holds the last min(n, capacity) events recorded, with consecutive IDs ending at nextID. |
| `ActivityRecorder.Recorder.constructor` | internal/agentactivity/recorder.go:80-95 | Starts after the store's greatest ID, with the default capacity if none is given. |
| `ActivityRecorder.Recorder.Recent` | internal/agentactivity/recorder.go:168-188 | The newest `limit` matching events of ring and store together, oldest first and without duplicates, the ring's copy taking precedence; without a store the last of the ring. |
| `ActivityRecorder.Recorder.Since` | internal/agentactivity/recorder.go:190-209 | The first matching events after the cursor; with a cursor store the newest of its answer and those. |
| `ActivityRecorder.Recorder.RecentFromMemory` | internal/agentactivity/recorder.go:211-224 | The last `limit` matching events of the ring, in order. |
| `ActivityRecorder.Recorder.SinceFromMemory` | internal/agentactivity/recorder.go:226-241 | The first `limit` matching events after the cursor. |
| `ActivityRecorder.MergeRecent` | internal/agentactivity/recorder.go:243-271 | The newest `limit` of two lists, later entries replacing earlier ones. |
| `ActivityLog.NewestOfMerged` | internal/agentactivity/recorder.go:168-188 | The newest k of the newest k of two logs are the newest k of both, even where the logs disagree. |
| `ActivityLog.LastAreNewest` | internal/agentactivity/recorder.go:265-270 | The end of an ascending list is the newest of it. |
| `ActivityRecorder.NothingLost` | internal/agentactivity/recorder.go:168-188 | When no store write was lost Recent returns the end of the whole log. |
| `ActivityReplay.ReplaySkipsExactly` | internal/agentactivity/recorder.go:190-209 | With a store that has kept the whole log: a batch passes over a wanted event for good if and only if more events are wanted than fit in it, and the ring has lost some of them but not all. |
| `ActivityReplay.ReplayWithStoreSkips` | internal/agentactivity/recorder.go:190-209 | With any store, lossy or not: a batch passes over an event that ring or store still has if and only if the two answers hold more than the limit between them. |
| `ActivityReplay.ReplayThatSkips` | internal/agentactivity/recorder.go:190-209 | It happens to a recorder: two events, a ring for one, a store with both, and a reader of neither gets the second only. |
| `ActivityFlush.FlushStored` | internal/agentactivity/httpapi.go:84-102 | The whole replay loop over a cursor store that has kept the log, for any capacity: terminates, writes in increasing order up to the ID returned, and writes either all that is wanted, or all that the ring still has of it plus the newest of the oldest lost events that fill up one batch; below a capacity of 500 it stops after one batch, the first of what is wanted if nothing is passed over. |
| `ActivityFlush.MissesNothingExactly` | internal/agentactivity/httpapi.go:84-102 | The loop leaves nothing unwritten if and only if all fits in one batch, or, from a capacity of 500 on, the ring has lost all that is wanted or none of it. |
| `ActivityFlush.MissedIsPassed` | internal/agentactivity/httpapi.go:84-102 | What a loop that passes over something leaves out lies before its last ID, so no later replay asks for it. |
| `ActivityFlush.FlushTurn` | internal/agentactivity/httpapi.go:86-101 | One turn of the loop keeps this account of what has been written and what lies ahead. |
| `ActivityRecorder.Recorder.FlushSince` | internal/agentactivity/httpapi.go:84-102 | Terminates; writes every retained matching event above the cursor once, in increasing order, for any capacity, and returns the last ID written; a negative cursor writes nothing. |
| `ActivityLog.AfterBatch` | internal/agentactivity/httpapi.go:86-101 | Moving the cursor to the end of a batch takes away exactly the batch. |
| `ActivityRecorder.ShortBatchIsLast` | internal/agentactivity/httpapi.go:98-100 | A batch shorter than the replay limit is all there is, also when the capacity is what cut it short. |

## Left out

- Scheduler: what a task does while it runs, results sent to callers, prepared runs, and the read-only query methods; a select over several ready channels is one atomic step that may choose any of them.
- SchedulerProtocol.StepKeeps: a worker obeys the context of the Start that made it; a goroutine so late that it first reads the context after a later Start is not modelled.
- Scheduler.Scheduler: its methods are the regions under the mutex one by one; the waiting between them is in SchedulerProtocol.
- The run store beyond UpdateRun, CreateRun and CreateAttempt: store errors, and runs that are not for external runners, with the in-process execution of RunNow and ExecuteQueuedRun.
- RunLifecycle.RetryBound: the agents' retry limits are the same over all restarts; a limit lowered between two starts of the service is not modelled.
- AutomationService.Service.ClaimNextRun: policy, review-gate, dependency and governance checks are free choices, with their answers as ghost results; runs of equal age come in any order; what went wrong with an outstanding review is not part of the answer.
- AutomationService.Service.SubmitRun: the checks before and after the review gate are two parameters, and the texts of their errors are not modelled.
- AutomationService.Service.QueueReplacements: which tasks are ready is a free choice; promoting planned tasks whose dependencies are done, failing to list tasks, and completing a plan without open tasks are not modelled.
- AutomationService.Service.CompleteAttempt: governance records, and whether a review task exists or must be made, are free choices; the reported references are reduced to whether dirty paths are among them.
- AutomationService.Service.RequeueTaskAfterGitOpsRecoveryFailure: which dirty paths lie outside the task is a free choice, and failure categories are taken to need no trimming or cutting.
- Replacement.QueuesExactly: category texts are compared without trimming blanks.
- ParallelBatch.ComputeParallelBatch: candidates arrive sorted; strings.TrimSpace and strings.ToLower are arbitrary functions.
- SymbolSource.GetSymbolSource: the fall-back to line numbers, taken when no byte of the range lies in the file; the limit is positive, as effectiveMaxSourceBytes makes it.
- CallGraph.GetSymbolCallGraph: sorting of nodes and edges for output, and attaching file metadata.
- Chunker.BuildChunksFromReader: path, size, binary and sensitive-content checks, and read errors; the hash is a given string.
- ActivityRecorder.Recorder.Record: subscribers, enrichment of events, and overflow of 64-bit IDs.
- ActivityRecorder.Recorder.FlushSince: events recorded while the loop runs, and encoding errors.
- ActivityFlush.FlushStored: the store has kept the whole log and answers every query; a lossy store is treated batch by batch (`ReplayWithStoreSkips`).
- HTTP, MCP and SSE handlers, git and process execution, worktrees, parsers, sanitising and prompt texts: foreign effects or pattern lists.
- The managed executor with its semaphores, confidence scoring and text search: simpler than what is modelled, or not true as stated.
