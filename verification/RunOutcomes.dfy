/** What the operations of the automation service make of a run, and when. */
module RunOutcomes {
  import opened Wrappers
  import opened RunLifecycle
  import opened Replacement

  /** What has been asked of the work-task service: to which status to bring a task, and its answer; None is a refusal. */
  datatype Request = Request(taskID: string, status: TaskStatus, answer: Option<Task>)

  // ------------------------------------------------------------------------ what a step keeps

  predicate SameClaim(a: Run, b: Run) {
    a.attemptCount == b.attemptCount && a.claimID == b.claimID && a.claimedAt == b.claimedAt
    && a.lastHeartbeatAt == b.lastHeartbeatAt && a.leaseExpiresAt == b.leaseExpiresAt
  }

  /** No run is forgotten, and none gets a claim or an attempt or loses one. */
  ghost predicate ClaimsStay(runs: map<RunID, Run>, next: map<RunID, Run>) {
    forall id :: id in runs ==> id in next && SameClaim(next[id], runs[id])
  }

  lemma ClaimsStillStay(was: map<RunID, Run>, runs: map<RunID, Run>, next: map<RunID, Run>, id: RunID)
    requires ClaimsStay(was, runs) && id in runs && id in next && SameClaim(next[id], runs[id])
    requires forall other :: other in runs && other != id ==> other in next && next[other] == runs[other]
    ensures ClaimsStay(was, next)
  {
  }

  predicate TerminalTask(s: TaskStatus) {
    s == TaskBlocked || s == TaskFailed || s == TaskCancelled || s == TaskSuperseded
  }

  predicate OpenTask(s: TaskStatus) {
    s == TaskReady || s == TaskClaimed || s == TaskInProgress
  }

  predicate AdvancedTask(s: TaskStatus) {
    s == TaskNeedsReview || s == TaskVerifying
  }

  const REQUEUED_IMPLEMENTATION := "gitops_recovery_requeued_implementation"
  const REQUIRES_PLAN := "gitops_dirty_worktree_scope_requires_plan"
  const BLOCKED_DIRTY_PATHS := "gitops_recovery_blocked_after_out_of_scope_dirty_paths"
  const DIRTY_SCOPE := "gitops_dirty_worktree_scope"
  const GITOPS_HANDED_BACK := "gitops_recovery_failed_requires_implementation"
  const PRE_EXECUTION_HANDED_BACK := "pre_execution_recovery_failed_requires_implementation"
  const PRE_EXECUTION_REQUEUED := "pre_execution_recovery_requeued_implementation_after_"
  const ATTEMPT_LOST := "attempt_record_failed"
  const REVIEW_LOST := "post_implementation_review_queue_failed"
  const RETRY_LIMIT := "automation_replacement_retry_limit_reached"
  const VERIFICATION_REQUIRED := "external_codex_cli_completed_verification_required"
  const EXTERNALLY_QUEUED := "external_runner_queued"
  const GATE_QUEUED := "automation_review_gate_queued"

  predicate GitOpsRecoveryFailure(category: string) {
    "gitops_" <= category || category == "automation_task_closeout_missing"
  }

  predicate OwnsRecovery(task: Task, id: RunID, run: Run) {
    task.claimedByRunID == id || (run.safeSummary == GITOPS_POST_TASK_RECOVERY && task.listsRun)
  }

  // ------------------------------------------------------------------------ how a run ends

  /** A run with a report entered into it, before it is decided how the run ends. */
  function Reported(run: Run, now: Time, runner: string, category: string): Run {
    run.(failureCategory := category, runnerID := if runner != "" then runner else run.runnerID, finishedAt := now, updatedAt := now)
  }

  predicate Reportable(s: Status) {
    s in {Claiming, Starting, Running, Verifying, Failed, Blocked}
  }

  /** `run` is the stored run `before`, or that run with a report entered into it, on its way to a write of kind `kind`. */
  predicate Underway(before: Run, run: Run, kind: Kind) {
    match kind
    case Adjust => before.status != Completed && run == before
    case Report(claim, runner) =>
      && ClaimMatches(before, claim, runner) && Reportable(before.status) && before.updatedAt <= run.updatedAt
      && run == before.(failureCategory := run.failureCategory, runnerID := run.runnerID, finishedAt := run.finishedAt, updatedAt := run.updatedAt)
    case _ => false
  }

  /** `next` is an end of `run`, written at time `at`. */
  predicate EndOf(run: Run, next: Run, kind: Kind, at: Time) {
    && next.status in {Verifying, Failed, Blocked, Cancelled, Timeout} && (kind.Adjust? ==> next.status != Timeout && next.updatedAt == at)
    && run.updatedAt <= next.updatedAt <= at
    && next == run.(status := next.status, workTaskStatus := next.workTaskStatus, failureCategory := next.failureCategory,
                    safeSummary := next.safeSummary, finishedAt := next.finishedAt, updatedAt := next.updatedAt)
  }

  /** However a run ends, reported or not, the write is a legal one, the store keeps it, and attempts and claim stay. */
  lemma OutcomeIsLegal(agents: Agents, s: State, id: RunID, run: Run, kind: Kind, next: Run)
    requires 0 < s.clock && id in s.runs && s.runs[id].updatedAt <= s.clock
    requires Underway(s.runs[id], run, kind) && EndOf(run, next, kind, s.clock)
    ensures Legal(agents, s, Write(s.clock, id, kind, next)) && Stored(s.runs[id], next) == next && SameClaim(next, s.runs[id])
  {
  }

  /** The run fails because the attempt reported about it could not be put on record. */
  predicate Lost(was: Run, end: Run) {
    end == was.(status := Failed, failureCategory := ATTEMPT_LOST, finishedAt := end.updatedAt, updatedAt := end.updatedAt)
  }

  // ------------------------------------------------------------------------ new runs

  /** A run as it is queued for a task. */
  function QueuedRun(a: Automation, planID: string, t: Task, orchestratorRunID: string, summary: string, at: Time): Run {
    Run(a.id, planID, t.id, if t.ownerAgent != "" then t.ownerAgent else a.agentID, orchestratorRunID, Queued, TaskUnknown, "", summary,
        0, 0, "", 0, 0, 0, 0, 0, at, at)
  }

  /** A submitted run, with the reason for which it is rejected, if it is. */
  function RunSubmitted(automationID: string, planID: string, taskID: string, owner: string, orchestratorRunID: string,
                        rejected: Option<(Status, string)>, at: Time): Run {
    match rejected
    case None => Run(automationID, planID, taskID, owner, orchestratorRunID, Queued, TaskUnknown, "", "", 0, 0, "", 0, 0, 0, 0, 0, at, at)
    case Some(reason) => Run(automationID, planID, taskID, owner, "", reason.0, TaskUnknown, reason.1, "", 0, 0, "", 0, 0, 0, 0, at, at, at)
  }

  /** Why a submitted run is rejected: for its runner, its reviews (`gate`: they are all done), or for a reason found later. */
  function Rejection(unfit: Option<string>, gate: bool, refusal: Option<(Status, string)>): Option<(Status, string)> {
    if unfit.Some? then Some((PolicyDenied, unfit.value))
    else if !gate then Some((Blocked, "automation_review_gate_open"))
    else refusal
  }

  /** `next` has all the runs of `runs` as they were, and maybe queued ones. */
  ghost predicate Grows(runs: map<RunID, Run>, next: map<RunID, Run>) {
    forall id :: id in runs ==> id in next && next[id] == runs[id]
  }

  /** More runs do not make one more necessary. */
  lemma StillNotQueued(runs: map<RunID, Run>, next: map<RunID, Run>, a: Automation, t: Task)
    requires Grows(runs, next) && Replacement.Decide(runs, a, t) != QueueRun
    ensures Replacement.Decide(next, a, t) != QueueRun
  {
    assert Failures(runs, a, t) <= Failures(next, a, t);
    SmallerSet(Failures(runs, a, t), Failures(next, a, t));
  }

  /** For none of these automations and tasks a new run is called for. */
  ghost predicate NoneIsCalledFor(runs: map<RunID, Run>, pairs: seq<(Automation, Task)>) {
    forall k :: 0 <= k < |pairs| ==> Replacement.Decide(runs, pairs[k].0, pairs[k].1) != QueueRun
  }

  lemma OneMoreIsServed(was: map<RunID, Run>, runs: map<RunID, Run>, pairs: seq<(Automation, Task)>, k: nat)
    requires k < |pairs| && Grows(was, runs) && NoneIsCalledFor(was, pairs[..k])
    requires Replacement.Decide(runs, pairs[k].0, pairs[k].1) != QueueRun
    ensures NoneIsCalledFor(runs, pairs[..k + 1])
  {
    forall i | 0 <= i < k ensures Replacement.Decide(runs, pairs[i].0, pairs[i].1) != QueueRun {
      assert pairs[..k][i] == pairs[i];
      StillNotQueued(was, runs, pairs[i].0, pairs[i].1);
    }
  }

  /** An active run of the automation, plan and task is there. */
  ghost predicate IsServed(runs: map<RunID, Run>, a: Automation, t: Task) {
    exists id :: id in runs && Concerns(runs[id], a, t) && Active(runs[id])
  }

  lemma NewIsServed(runs: map<RunID, Run>, a: Automation, t: Task, id: RunID)
    requires id in runs && Concerns(runs[id], a, t) && Active(runs[id])
    ensures Replacement.Decide(runs, a, t) != QueueRun
  {
    ActiveIsKept(runs[id], a, t);
  }

  lemma StillServed(runs: map<RunID, Run>, next: map<RunID, Run>, a: Automation, t: Task)
    requires Grows(runs, next) && IsServed(runs, a, t)
    ensures IsServed(next, a, t)
  {
    var id :| id in runs && Concerns(runs[id], a, t) && Active(runs[id]);
    assert next[id] == runs[id];
  }

  /** All `n` reviews could be had. */
  predicate AllThere(n: nat, ready: seq<Option<Task>>) {
    |ready| == n && forall k :: 0 <= k < n ==> ready[k].Some?
  }

  /** All `n` reviews read as done. */
  predicate AllDone(n: nat, answers: seq<Option<Task>>) {
    |answers| == n && forall k :: 0 <= k < n ==> answers[k].Some? && answers[k].value.status == TaskDone
  }

  /** A run as the gate of an automation's reviews queues it. */
  predicate GateRun(r: Run) {
    r.status == Queued && Unclaimed(r) && r.safeSummary == GATE_QUEUED
  }

  /** A ready review has an active run, as far as its runs are listed under the plan. */
  ghost predicate IsGated(runs: map<RunID, Run>, a: Automation, planID: string, review: Task) {
    review.status == TaskReady && planID in {"", review.planID} ==> IsServed(runs, a, review.(planID := planID))
  }

  lemma GateStays(runs: map<RunID, Run>, next: map<RunID, Run>, a: Automation, planID: string, review: Task)
    requires Grows(runs, next) && IsGated(runs, a, planID, review)
    ensures IsGated(next, a, planID, review)
  {
    if review.status == TaskReady && planID in {"", review.planID} { StillServed(runs, next, a, review.(planID := planID)); }
  }

  lemma GateHolds(runs: map<RunID, Run>, next: map<RunID, Run>, a: Automation, planID: string, review: Task, orchestratorRunID: string)
    requires if review.status == TaskReady && ActiveRuns(runs, a, review.(planID := planID)) == {}
             then exists id :: id !in runs && id in next && next == runs[id := next[id]]
                               && next[id] == QueuedRun(a, review.planID, review, orchestratorRunID, GATE_QUEUED, next[id].createdAt)
             else next == runs
    ensures Grows(runs, next) && IsGated(next, a, planID, review)
    ensures forall id :: id in next && id !in runs ==> GateRun(next[id])
  {
    var t := review.(planID := planID);
    if review.status == TaskReady && ActiveRuns(runs, a, t) != {} {
      var id :| id in ActiveRuns(runs, a, t);
      assert Concerns(next[id], a, t) && Active(next[id]);
    } else if review.status == TaskReady {
      var id :| id !in runs && id in next && next == runs[id := next[id]]
                && next[id] == QueuedRun(a, review.planID, review, orchestratorRunID, GATE_QUEUED, next[id].createdAt);
      assert planID in {"", review.planID} ==> Concerns(next[id], a, t) && Active(next[id]);
    }
  }

  /** What becomes of a run that has been submitted to publish finished work. */
  predicate ReadiedForPublication(was: Run, end: Run, id: RunID, found: Option<Task>, task: Option<Task>, ok: bool) {
    if was.taskID == "" then ok && Concluded(was, end, PolicyDenied, was.workTaskStatus, was.safeSummary, "work_task_api_unavailable")
    else if found.None? || !found.value.closeoutEvidence then
      ok && Concluded(was, end, PolicyDenied, was.workTaskStatus, was.safeSummary, "gitops_recovery_closeout_missing")
    else if task.None? then !ok && end == was
    else if !OwnsRecovery(task.value, id, was.(safeSummary := GITOPS_POST_TASK_RECOVERY)) then
      ok && Concluded(was, end, PolicyDenied, was.workTaskStatus, GITOPS_POST_TASK_RECOVERY, "gitops_recovery_run_not_attached")
    else ok && Concluded(was, end, Failed, task.value.status, GITOPS_POST_TASK_RECOVERY, "gitops_post_task_failed")
  }

  predicate Concluded(was: Run, end: Run, status: Status, taskStatus: TaskStatus, summary: string, category: string) {
    end == was.(status := status, workTaskStatus := taskStatus, safeSummary := summary, failureCategory := category, updatedAt := end.updatedAt)
  }

  // ------------------------------------------------------------ handing a task back

  /** How the task of a failed recovery is handed back. */
  datatype HandBack = NotAsked | Unreadable | OutOfScope | Returned

  /** `outside`: dirty paths lie outside what the task may touch; that matters only if dirty paths are why the run failed. */
  function WayBack(canUpdate: bool, run: Run, found: Option<Task>, category: string, dirty: bool, outside: bool): HandBack {
    if !canUpdate || run.taskID == "" then NotAsked
    else if found.None? then Unreadable
    else if category == DIRTY_SCOPE && dirty && outside then OutOfScope
    else Returned
  }

  /** The run fails; `finish` tells whether it is given a time of finishing if it has none. */
  predicate FailsAs(run: Run, end: Run, category: string, summary: string, finish: bool) {
    end == run.(status := Failed, workTaskStatus := end.workTaskStatus, failureCategory := category, safeSummary := summary,
                finishedAt := if finish then FinishedBy(run, end.updatedAt) else run.finishedAt, updatedAt := end.updatedAt)
  }

  /** What becomes of a run whose publication has failed. */
  predicate PublicationHandedBack(run: Run, end: Run, category: string, way: HandBack) {
    && run.updatedAt <= end.updatedAt
    && match way
       case NotAsked => end.workTaskStatus == run.workTaskStatus && FailsAs(run, end, category, REQUEUED_IMPLEMENTATION + "_after_" + category, false)
       case Unreadable => end.workTaskStatus == run.workTaskStatus && FailsAs(run, end, category, REQUEUED_IMPLEMENTATION, false)
       case OutOfScope => FailsAs(run, end, REQUIRES_PLAN, BLOCKED_DIRTY_PATHS, true)
       case Returned => FailsAs(run, end, GITOPS_HANDED_BACK, REQUEUED_IMPLEMENTATION + "_after_" + category, true)
  }

  /** What becomes of a run whose preparation has failed. */
  predicate PreparationHandedBack(run: Run, end: Run, category: string, way: HandBack) {
    && run.updatedAt <= end.updatedAt
    && match way
       case OutOfScope => FailsAs(run, end, REQUIRES_PLAN, BLOCKED_DIRTY_PATHS, true)
       case Returned => FailsAs(run, end, PRE_EXECUTION_HANDED_BACK, PRE_EXECUTION_REQUEUED + category, true)
       case _ =>
         end.workTaskStatus == run.workTaskStatus && FailsAs(run, end, PRE_EXECUTION_HANDED_BACK, PRE_EXECUTION_REQUEUED + category, false)
  }

  /** Between the two logs the task has been asked to change its status. */
  predicate Asked(before: seq<Request>, after: seq<Request>, taskID: string, status: TaskStatus) {
    exists k :: |before| <= k < |after| && after[k].taskID == taskID && after[k].status == status
  }

  /** And `granted` was the answer. */
  predicate AskedFor(before: seq<Request>, after: seq<Request>, taskID: string, status: TaskStatus, granted: bool) {
    exists k :: |before| <= k < |after| && after[k].taskID == taskID && after[k].status == status && (after[k].answer.Some? <==> granted)
  }

  lemma Asks(before: seq<Request>, after: seq<Request>, r: Request)
    requires before + [r] <= after
    ensures Asked(before, after, r.taskID, r.status) && AskedFor(before, after, r.taskID, r.status, r.answer.Some?)
  {
    assert after[|before|] == (before + [r])[|before|];
  }

  /** Nothing has been asked in between, or the last that was asked was granted. */
  predicate LastGranted(before: seq<Request>, after: seq<Request>) {
    |after| <= |before| || after[|after| - 1].answer.Some?
  }

  lemma AskedAtAll(before: seq<Request>, after: seq<Request>, taskID: string, status: TaskStatus, granted: bool)
    requires AskedFor(before, after, taskID, status, granted)
    ensures Asked(before, after, taskID, status)
  {
  }

  lemma StillAsked(a: seq<Request>, b: seq<Request>, c: seq<Request>, taskID: string, status: TaskStatus, granted: bool)
    requires |a| <= |b| <= |c| && AskedFor(b, c, taskID, status, granted)
    ensures AskedFor(a, c, taskID, status, granted)
  {
  }

  /** The failure was reported on a run that recovers the publication of its work: the task goes back to implementation. */
  predicate HandsBack(run: Run, reported: Status, category: string) {
    reported == Failed && run.safeSummary == GITOPS_POST_TASK_RECOVERY && GitOpsRecoveryFailure(category)
  }

  /** How a run ends on a report that is not one of completion, once the attempt is on record. */
  predicate Ended(was: Run, end: Run, runner: string, reported: Status, category: string, at: Time, way: HandBack) {
    var run := Reported(was, at, runner, category);
    if HandsBack(was, reported, category) then PublicationHandedBack(run, end, category, way) else end == run.(status := reported)
  }

  // --------------------------------------------------------------- following a task

  /** The status of the task is put on record; the store keeps a guarded running run as it is. */
  predicate Synced(was: Run, end: Run, task: Task) {
    if was.workTaskStatus == task.status || (was.status == Running && Guarded(was.safeSummary)) then end == was
    else end == was.(workTaskStatus := task.status, updatedAt := end.updatedAt)
  }

  /** The run ends the way its task did. */
  predicate EndsWithTask(was: Run, end: Run, task: Task) {
    && end == was.(status := end.status, workTaskStatus := task.status, failureCategory := end.failureCategory,
                   safeSummary := "external_codex_cli_task_terminal", finishedAt := FinishedBy(was, end.updatedAt), updatedAt := end.updatedAt)
    && match task.status
       case TaskBlocked => end.status == Blocked && end.failureCategory == "work_task_blocked"
       case TaskFailed => end.status == Failed && end.failureCategory == "work_task_failed"
       case TaskCancelled => end.status == Cancelled && end.failureCategory == "work_task_cancelled"
       case _ => end.status == Cancelled && end.failureCategory == "work_task_superseded"
  }

  /** The work is done but not published: the run fails, to be claimed again for that. */
  predicate AwaitsPublication(was: Run, end: Run, task: Task) {
    end == was.(status := Failed, workTaskStatus := task.status, safeSummary := GITOPS_POST_TASK_RECOVERY,
                failureCategory := "gitops_post_task_failed", finishedAt := FinishedBy(was, end.updatedAt), updatedAt := end.updatedAt)
  }

  /** What the work-task service answers when the task of a verifying run is read, and when it is asked to complete it. */
  datatype Look = Look(seen: Option<Task>, completed: Option<Task>)

  /** What a verifying run becomes. */
  predicate FollowsVerification(was: Run, end: Run, look: Look) {
    if was.status != Verifying || was.taskID == "" || look.seen.None? then end == was else
    var task := look.seen.value;
    if task.status == TaskDone then Finishes(was, end, end.updatedAt)
    else if TerminalTask(task.status) then EndsWithTask(was, end, task)
    else if was.failureCategory == "" && AdvancedTask(task.status) && task.needsGitOpsRecovery then AwaitsPublication(was, end, task)
    else if !(AdvancedTask(task.status) && task.readyForCloseout) then Synced(was, end, task)
    else if look.completed.Some? then Finishes(was, end, end.updatedAt)
    else end == was
  }

  /** The task is ready to be closed, but the work-task service refuses. */
  predicate Stalls(was: Run, look: Look) {
    && was.status == Verifying && was.taskID != "" && look.seen.Some? && look.completed.None?
    && AdvancedTask(look.seen.value.status) && look.seen.value.readyForCloseout
    && !(was.failureCategory == "" && look.seen.value.needsGitOpsRecovery)
  }

  /** The run goes on to verification. */
  predicate MovesOn(was: Run, moved: Run, task: Task, summary: string) {
    moved == was.(status := Verifying, workTaskStatus := task.status, safeSummary := summary, failureCategory := "",
                  finishedAt := FinishedBy(was, moved.updatedAt), updatedAt := moved.updatedAt)
  }

  /** What is found out while an active run is looked at: the time when its lease is checked (twice), and how it moves on. */
  datatype Course = Course(began: Time, now: Time, moved: Run, look: Look)

  predicate MovesAndFollows(was: Run, end: Run, task: Task, summary: string, c: Course, ok: bool) {
    MovesOn(was, c.moved, task, summary) && FollowsVerification(c.moved, end, c.look) && (ok <==> !Stalls(c.moved, c.look))
  }

  predicate ClaimActive(run: Run, now: Time) {
    run.claimID != 0 && run.leaseExpiresAt != 0 && now < run.leaseExpiresAt
  }

  /** The audit confirmed a finding without handing over its remediation. */
  predicate AuditFails(was: Run, end: Run) {
    end == was.(status := Failed, workTaskStatus := TaskFailed, failureCategory := "confirmed_finding_remediation_missing",
                finishedAt := end.updatedAt, updatedAt := end.updatedAt)
  }

  /** What a running run becomes whose task is neither done nor at an end, and which is not given up. */
  predicate FollowsRunning(was: Run, end: Run, task: Task, c: Course, ok: bool) {
    if !AdvancedTask(task.status) then ok && Synced(was, end, task)
    else if !task.unremediatedFinding then MovesAndFollows(was, end, task, VERIFICATION_REQUIRED, c, ok)
    else if ClaimActive(was, c.now) then ok && Synced(was, end, task)
    else if ok then AuditFails(was, end)
    else end == was
  }

  predicate Overdue(run: Run, now: Time, serviceStart: Time) {
    LeaseExpired(run, now) || StartedBeforeService(run, serviceStart)
  }

  /** What an active run becomes whose task is neither done nor at an end. */
  predicate FollowsUnfinished(was: Run, end: Run, task: Task, c: Course, ok: bool, serviceStart: Time, canUpdate: bool) {
    if OpenTask(task.status) && Overdue(was, c.began, serviceStart) then
      ok && if canUpdate then Interrupts(serviceStart, was, end, end.updatedAt, was.updatedAt) else end == was
    else if was.status == Running then FollowsRunning(was, end, task, c, ok)
    else if AdvancedTask(task.status) then MovesAndFollows(was, end, task, VERIFICATION_REQUIRED, c, ok)
    else ok && end == was
  }

  /** A running run with an open task is given up exactly when it is overdue, and keeps the lease it had. */
  lemma GivenUpWhenOverdue(was: Run, end: Run, task: Task, c: Course, ok: bool, serviceStart: Time)
    requires was.status == Running && OpenTask(task.status) && FollowsUnfinished(was, end, task, c, ok, serviceStart, true)
    ensures end.status == Timeout <==> Overdue(was, c.began, serviceStart)
    ensures SameClaim(end, was)
  {
  }

  /** What an active run becomes, given its task as it was read. */
  predicate FollowsActive(was: Run, end: Run, seen: Option<Task>, c: Course, ok: bool, serviceStart: Time, canUpdate: bool) {
    if was.status !in {Claiming, Starting, Running} || was.taskID == "" || seen.None? then ok && end == was
    else if seen.value.status == TaskDone then ok && Finishes(was, end, end.updatedAt)
    else if TerminalTask(seen.value.status) then ok && EndsWithTask(was, end, seen.value)
    else FollowsUnfinished(was, end, seen.value, c, ok, serviceStart, canUpdate)
  }

  /** What a run becomes that ended without its task. */
  predicate FollowsProgress(was: Run, end: Run, id: RunID, seen: Option<Task>, c: Course, ok: bool) {
    if !CanHaveProgressed(was) || was.taskID == "" || !Owns(seen, id) then ok && end == was
    else if seen.value.status == TaskDone then ok && Finishes(was, end, end.updatedAt)
    else if TerminalTask(seen.value.status) then ok && EndsWithTask(was, end, seen.value)
    else if AdvancedTask(seen.value.status) then
      MovesAndFollows(was, end, seen.value, if was.status == Timeout then "external_runner_timeout_task_progressed_verification_required"
                                            else "pre_execution_recovery_progressed_task_verifying", c, ok)
    else ok && end == was
  }

  /** The run ended without its task, which may have got further all the same. */
  predicate CanHaveProgressed(run: Run) {
    || (run.status == Timeout && run.failureCategory == INTERRUPTED)
    || ((run.status == Failed || run.status == Blocked) && RecoverablePreExecution(run.failureCategory))
  }

  datatype Refusal = NotFound | NotClaimed | WrongClaim | InvalidStatus | Refused | NoQueuedRun

  predicate Owns(task: Option<Task>, id: RunID) {
    task.Some? && task.value.claimedByRunID == id
  }

  predicate AdvancedOrDone(task: Option<Task>) {
    task.Some? && (AdvancedTask(task.value.status) || task.value.status == TaskDone)
  }

  predicate ClaimMatchesTerminal(run: Run, claim: nat, runner: string) {
    && (run.claimID != 0 ==> claim == run.claimID)
    && (run.runnerID == "" || runner == "" || run.runnerID == runner)
  }

  /** A completion reported too late is believed when the task was done under a recovery of the run. */
  predicate CompletedByRecovery(run: Run, id: RunID, task: Option<Task>) {
    || (run.status == Failed && RecoverableGitOps(run.failureCategory)
        && task.Some? && OwnsRecovery(task.value, id, run) && task.value.closeoutEvidence)
    || (run.status == Blocked && RecoverablePreExecution(run.failureCategory) && Owns(task, id) && AdvancedOrDone(task))
  }

  // --------------------------------------------------------------------- reconciling

  datatype ReconcilePass =
    | PassRunning | PassVerifying | PassInterrupted | PassPreExecution
    | PassExhaustedPreExecution | PassExhaustedGitOps | PassStaleTasks

  /** The passes in the order in which they are made. */
  const PASSES := [PassRunning, PassVerifying, PassInterrupted, PassPreExecution, PassExhaustedPreExecution, PassExhaustedGitOps, PassStaleTasks]

  function PassStatuses(pass: ReconcilePass): set<Status> {
    match pass
    case PassRunning => {Claiming, Starting, Running}
    case PassVerifying => {Verifying}
    case PassInterrupted => {Timeout}
    case PassPreExecution => {Failed, Blocked}
    case PassExhaustedPreExecution => {Failed, Blocked}
    case PassExhaustedGitOps => {Failed}
    case PassStaleTasks => {Failed}
  }

  /** The run's publication cannot be retried any more. */
  predicate PublicationExhausted(agents: Agents, r: Run, id: RunID, seen: Option<Task>) {
    && r.status == Failed && RecoverableGitOps(r.failureCategory) && !CanRetry(agents, r) && r.safeSummary == GITOPS_POST_TASK_RECOVERY
    && seen.Some? && seen.value.closeoutEvidence && OwnsRecovery(seen.value, id, r)
  }

  /** Nor can its preparation. */
  predicate PreparationExhausted(agents: Agents, r: Run, id: RunID, seen: Option<Task>) {
    && r.status in {Failed, Blocked} && RecoverablePreExecution(r.failureCategory) && !CanRetry(agents, r)
    && Owns(seen, id) && OpenTask(seen.value.status)
  }

  /** What a pass finds out about a run: its task as it reads, how an active run is followed, a verifying one, or a task handed back. */
  datatype Findings = Findings(ok: bool, seen: Option<Task>, course: Course, look: Look, way: HandBack)

  /** What a pass makes of a run. */
  predicate ReconciledAs(agents: Agents, serviceStart: Time, canUpdate: bool, pass: ReconcilePass, was: Run, end: Run, id: RunID, f: Findings) {
    match pass
    case PassRunning => FollowsActive(was, end, f.seen, f.course, f.ok, serviceStart, canUpdate)
    case PassVerifying => FollowsVerification(was, end, f.look) && (f.ok <==> !Stalls(was, f.look))
    case PassInterrupted => FollowsProgress(was, end, id, f.seen, f.course, f.ok)
    case PassPreExecution => FollowsProgress(was, end, id, f.seen, f.course, f.ok)
    case PassExhaustedPreExecution =>
      if !PreparationExhausted(agents, was, id, f.seen) then f.ok && end == was
      else if f.ok then PreparationHandedBack(was, end, was.failureCategory, f.way)
      else end == was
    case PassExhaustedGitOps =>
      if !PublicationExhausted(agents, was, id, f.seen) then f.ok && end == was
      else if f.ok then PublicationHandedBack(was, end, was.failureCategory, f.way)
      else end == was
    case PassStaleTasks => end == was
  }

  /** A pass has seen to all the runs that were there for it, and to no others. */
  ghost predicate PassMade(agents: Agents, serviceStart: Time, canUpdate: bool, pass: ReconcilePass,
                           before: map<RunID, Run>, after: map<RunID, Run>, f: map<RunID, Findings>) {
    && (forall id :: id in before ==> id in after)
    && (forall id :: id in before && before[id].status !in PassStatuses(pass) ==> after[id] == before[id])
    && (forall id :: id in before && before[id].status in PassStatuses(pass) ==>
          id in f && f[id].ok && ReconciledAs(agents, serviceStart, canUpdate, pass, before[id], after[id], id, f[id]))
  }

  /** The first `k` of the queued runs have been seen to. */
  ghost predicate PassUnderway(agents: Agents, serviceStart: Time, canUpdate: bool, pass: ReconcilePass,
                               before: map<RunID, Run>, after: map<RunID, Run>, f: map<RunID, Findings>, ids: seq<RunID>, k: int) {
    && 0 <= k <= |ids| && (forall id :: id in before ==> id in after)
    && (forall id :: id in ids <==> id in before && before[id].status in PassStatuses(pass))
    && (forall i, j :: 0 <= i < j < |ids| ==> ids[i] != ids[j])
    && (forall id :: id in before && id !in ids ==> after[id] == before[id])
    && (forall i :: k <= i < |ids| ==> after[ids[i]] == before[ids[i]])
    && (forall i :: 0 <= i < k ==>
          ids[i] in f && f[ids[i]].ok && ReconciledAs(agents, serviceStart, canUpdate, pass, before[ids[i]], after[ids[i]], ids[i], f[ids[i]]))
  }

  lemma PassGoesOn(agents: Agents, serviceStart: Time, canUpdate: bool, pass: ReconcilePass,
                   before: map<RunID, Run>, after: map<RunID, Run>, next: map<RunID, Run>, f: map<RunID, Findings>, ids: seq<RunID>, k: int, g: Findings)
    requires PassUnderway(agents, serviceStart, canUpdate, pass, before, after, f, ids, k) && k < |ids|
    requires forall id :: id in after ==> id in next && (id != ids[k] ==> next[id] == after[id])
    requires g.ok && ReconciledAs(agents, serviceStart, canUpdate, pass, after[ids[k]], next[ids[k]], ids[k], g)
    ensures PassUnderway(agents, serviceStart, canUpdate, pass, before, next, f[ids[k] := g], ids, k + 1)
  {
  }

  lemma PassIsMade(agents: Agents, serviceStart: Time, canUpdate: bool, pass: ReconcilePass,
                   before: map<RunID, Run>, after: map<RunID, Run>, f: map<RunID, Findings>, ids: seq<RunID>)
    requires PassUnderway(agents, serviceStart, canUpdate, pass, before, after, f, ids, |ids|)
    ensures PassMade(agents, serviceStart, canUpdate, pass, before, after, f)
  {
    forall id | id in before && before[id].status in PassStatuses(pass)
      ensures id in f && f[id].ok && ReconciledAs(agents, serviceStart, canUpdate, pass, before[id], after[id], id, f[id])
    {
      assert id in ids;
      var i :| 0 <= i < |ids| && ids[i] == id;
    }
  }

  /** The first `k` passes have been made, from stage to stage. */
  ghost predicate PassesMade(agents: Agents, serviceStart: Time, canUpdate: bool, stages: seq<map<RunID, Run>>, f: seq<map<RunID, Findings>>, k: int) {
    && 0 <= k <= |PASSES| && |stages| == k + 1 && |f| == k
    && forall i :: 0 <= i < k ==> PassMade(agents, serviceStart, canUpdate, PASSES[i], stages[i], stages[i + 1], f[i])
  }

  lemma OneMorePass(agents: Agents, serviceStart: Time, canUpdate: bool, stages: seq<map<RunID, Run>>, f: seq<map<RunID, Findings>>, k: int,
                    next: map<RunID, Run>, g: map<RunID, Findings>)
    requires PassesMade(agents, serviceStart, canUpdate, stages, f, k) && k < |PASSES|
    requires PassMade(agents, serviceStart, canUpdate, PASSES[k], stages[k], next, g)
    ensures PassesMade(agents, serviceStart, canUpdate, stages + [next], f + [g], k + 1)
  {
  }

  lemma VerificationKeepsClaim(was: Run, end: Run, look: Look)
    requires FollowsVerification(was, end, look)
    ensures SameClaim(end, was)
  {
  }

  lemma RunningKeepsClaim(was: Run, end: Run, task: Task, c: Course, ok: bool)
    requires FollowsRunning(was, end, task, c, ok)
    ensures SameClaim(end, was)
  {
    if AdvancedTask(task.status) && !task.unremediatedFinding { VerificationKeepsClaim(c.moved, end, c.look); }
  }

  lemma ActiveKeepsClaim(was: Run, end: Run, seen: Option<Task>, c: Course, ok: bool, serviceStart: Time, canUpdate: bool)
    requires FollowsActive(was, end, seen, c, ok, serviceStart, canUpdate)
    ensures SameClaim(end, was)
  {
    if was.status in {Claiming, Starting, Running} && was.taskID != "" && seen.Some? && seen.value.status != TaskDone && !TerminalTask(seen.value.status) {
      if OpenTask(seen.value.status) && Overdue(was, c.began, serviceStart) {
      } else if was.status == Running {
        RunningKeepsClaim(was, end, seen.value, c, ok);
      } else if AdvancedTask(seen.value.status) {
        VerificationKeepsClaim(c.moved, end, c.look);
      }
    }
  }

  lemma ProgressKeepsClaim(was: Run, end: Run, id: RunID, seen: Option<Task>, c: Course, ok: bool)
    requires FollowsProgress(was, end, id, seen, c, ok)
    ensures SameClaim(end, was)
  {
    if CanHaveProgressed(was) && was.taskID != "" && Owns(seen, id) && AdvancedTask(seen.value.status) {
      VerificationKeepsClaim(c.moved, end, c.look);
    }
  }

  /** Whatever a pass makes of a run, its attempts and claim stay. */
  lemma ReconciledKeepsClaim(agents: Agents, serviceStart: Time, canUpdate: bool, pass: ReconcilePass, was: Run, end: Run, id: RunID, f: Findings)
    requires ReconciledAs(agents, serviceStart, canUpdate, pass, was, end, id, f)
    ensures SameClaim(end, was)
  {
    match pass {
      case PassRunning => ActiveKeepsClaim(was, end, f.seen, f.course, f.ok, serviceStart, canUpdate);
      case PassVerifying => VerificationKeepsClaim(was, end, f.look);
      case PassInterrupted => ProgressKeepsClaim(was, end, id, f.seen, f.course, f.ok);
      case PassPreExecution => ProgressKeepsClaim(was, end, id, f.seen, f.course, f.ok);
      case _ =>
    }
  }

  // ------------------------------------------------------------------ what is reported

  /** The report tells nothing new; `answer` is the task as it was read. */
  predicate Settled(run: Run, id: RunID, claim: nat, runner: string, reported: Status, answer: Option<Task>) {
    || (run.status == reported && (run.claimID == 0 || claim == 0 || run.claimID == claim))
    || (reported == Failed && run.status in {Verifying, Completed} && run.taskID != "" && Owns(answer, id) && AdvancedOrDone(answer))
    || (reported == Completed && run.status == Failed && run.failureCategory == "confirmed_finding_remediation_missing"
        && ClaimMatchesTerminal(run, claim, runner))
  }

  /** A report about a run that is not running is taken all the same. */
  predicate TakesLate(run: Run, id: RunID, reported: Status, owner: Option<Task>, reached: Option<Task>) {
    || (run.status in {Claiming, Starting} && run.taskID != "" && Owns(owner, id))
    || (reported == Completed && (run.status == Verifying || (run.taskID != "" && CompletedByRecovery(run, id, reached))))
  }

  /**
    * What is found out while a report is taken: how the task reads when it is asked whether the report is settled, who
    * owns the task, and how far it got; whether the governance record and the attempt could be written, at what time,
    * and whether the review could be queued; what came of the verification, and how the task was handed back.
    */
  datatype Hearing = Hearing(settled: Option<Task>, owner: Option<Task>, reached: Option<Task>,
                             governed: bool, recorded: bool, at: Time, reviewed: bool, look: Look, way: HandBack)

  const NOT_HEARD := Hearing(None, None, None, false, false, 0, false, Look(None, None), NotAsked)

  /** The report is to be written down, rather than refused or answered at once. */
  predicate IsTaken(run: Run, id: RunID, claim: nat, runner: string, reported: Status, h: Hearing) {
    if run.status == Running then ClaimMatches(run, claim, runner)
    else !Settled(run, id, claim, runner, reported, h.settled) && TakesLate(run, id, reported, h.owner, h.reached)
  }

  /** What is written first when a completion is reported. */
  function Verifies(run: Run): Run {
    run.(status := Verifying, safeSummary := VERIFICATION_REQUIRED)
  }

  predicate LosesReview(run: Run, end: Run) {
    end == Verifies(run).(status := Failed, failureCategory := REVIEW_LOST, finishedAt := end.updatedAt, updatedAt := end.updatedAt)
  }

  /** What a reported completion makes of the run: it verifies and then follows its task, or fails for want of a review. */
  predicate CompletedAs(run: Run, end: Run, h: Hearing, ok: bool) {
    if !h.reviewed then ok && LosesReview(run, end)
    else FollowsVerification(Verifies(run), end, h.look) && (ok <==> !Stalls(Verifies(run), h.look))
  }

  predicate TaskReads(run: Run, look: Look, status: TaskStatus) {
    run.taskID != "" && look.seen.Some? && look.seen.value.status == status
  }

  /** The work is done, but has yet to be published. */
  predicate IsUnpublished(run: Run, look: Look) {
    && run.taskID != "" && look.seen.Some? && run.failureCategory == ""
    && AdvancedTask(look.seen.value.status) && look.seen.value.needsGitOpsRecovery
  }

  /** The task can be closed, and the work-task service does so. */
  predicate IsClosedOut(run: Run, look: Look) {
    && run.taskID != "" && look.seen.Some? && look.completed.Some?
    && AdvancedTask(look.seen.value.status) && look.seen.value.readyForCloseout && !IsUnpublished(run, look)
  }

  /** To which status a reported completion leads: whatever comes after verification is the task's doing. */
  lemma CompletionFollowsTask(run: Run, end: Run, h: Hearing, ok: bool)
    requires CompletedAs(run, end, h, ok)
    ensures !h.reviewed ==> end.status == Failed && end.failureCategory == REVIEW_LOST
    ensures h.reviewed ==> (end.status == Completed <==> TaskReads(run, h.look, TaskDone) || IsClosedOut(run, h.look))
    ensures h.reviewed ==> (end.status == Blocked <==> TaskReads(run, h.look, TaskBlocked))
    ensures h.reviewed ==> (end.status == Failed <==> TaskReads(run, h.look, TaskFailed) || IsUnpublished(run, h.look))
    ensures h.reviewed ==> (end.status == Cancelled <==> TaskReads(run, h.look, TaskCancelled) || TaskReads(run, h.look, TaskSuperseded))
    ensures end.status in {Completed, Blocked, Failed, Cancelled, Verifying}
  {
    if h.reviewed && run.taskID != "" && h.look.seen.Some? {
      var task := h.look.seen.value;
      if TerminalTask(task.status) {
        assert EndsWithTask(Verifies(run), end, task);
      } else if IsUnpublished(run, h.look) {
        assert AwaitsPublication(Verifies(run), end, task);
      }
    }
  }

  /** How the run ends once the attempt is on record. */
  predicate EndsOnReport(was: Run, end: Run, runner: string, reported: Status, category: string, h: Hearing, ok: bool) {
    if reported == Completed then CompletedAs(Reported(was, h.at, runner, category), end, h, ok)
    else if ok then Ended(was, end, runner, reported, category, h.at, h.way)
    else end == was && HandsBack(was, reported, category) && h.way in {OutOfScope, Returned}
  }

  /** The statuses a report may bring. */
  predicate IsOutcome(reported: Status) {
    reported in {Completed, Failed, Timeout, Blocked, Cancelled}
  }

  lemma TakenIsReportable(run: Run, id: RunID, claim: nat, runner: string, reported: Status, h: Hearing)
    requires IsTaken(run, id, claim, runner, reported, h)
    ensures Reportable(run.status) && ClaimMatches(run, claim, runner)
  {
  }

  /** How `run`, with the report entered into it, ends on a report other than one of completion. */
  predicate EndsOtherwise(run: Run, was: Run, end: Run, reported: Status, dirty: bool, way: HandBack, ok: bool) {
    if HandsBack(run, reported, run.failureCategory) then
      && (if ok then PublicationHandedBack(run, end, run.failureCategory, way) else end == was && way in {OutOfScope, Returned})
      && (way == OutOfScope ==> run.failureCategory == DIRTY_SCOPE && dirty)
    else ok && end == run.(status := reported)
  }

  /** Among the events that came about in between is a report under this claim that writes the run so. */
  ghost predicate WritesReport(before: seq<Event>, after: seq<Event>, id: RunID, claim: nat, runner: string, next: Run) {
    exists k :: |before| <= k < |after| && after[k].Write? && after[k].id == id && after[k].kind == Report(claim, runner) && after[k].next == next
  }

  lemma StillWritten(a: seq<Event>, b: seq<Event>, c: seq<Event>, id: RunID, claim: nat, runner: string, next: Run)
    requires |a| <= |b| && WritesReport(b, c, id, claim, runner, next)
    ensures WritesReport(a, c, id, claim, runner, next)
  {
  }

  // ------------------------------------------------------------------- reviews

  /** What is found out while the review of finished work is queued: the review task, as it is made ready, and the automation to run it. */
  datatype ReviewAnswers = ReviewAnswers(needed: bool, review: Option<Task>, ready: Option<Task>, automation: Option<Automation>)

  /** A review is asked for, and ready. */
  predicate ReviewIsDue(parent: Run, target: Option<Task>, r: ReviewAnswers, canUpdate: bool) {
    && parent.planID != "" && parent.taskID != "" && target.Some? && r.needed
    && !(r.review.Some? && r.review.value.status == TaskPlanned && !canUpdate)
    && r.ready.Some? && r.ready.value.status == TaskReady
  }

  /** It is asked for, but cannot be made ready, or there is nothing to run it. */
  predicate ReviewFails(parent: Run, target: Option<Task>, r: ReviewAnswers, canUpdate: bool) {
    && parent.planID != "" && parent.taskID != "" && target.Some? && r.needed
    && ((r.review.Some? && r.review.value.status == TaskPlanned && !canUpdate)
        || r.ready.None?
        || (r.ready.value.status == TaskReady && r.automation.None?))
  }

  /** The review was not asked for, or there is nothing left to do about it: it has an active run. */
  ghost predicate IsReviewed(runs: map<RunID, Run>, parent: Run, target: Option<Task>, r: ReviewAnswers, canUpdate: bool) {
    && !ReviewFails(parent, target, r, canUpdate)
    && (ReviewIsDue(parent, target, r, canUpdate) ==>
          r.automation.Some? && IsServed(runs, r.automation.value, r.ready.value.(planID := parent.planID)))
  }

  ghost predicate AllReviewed(was: map<RunID, Run>, runs: map<RunID, Run>, ids: seq<RunID>, heard: map<RunID, (Option<Task>, ReviewAnswers)>,
                              canUpdate: bool) {
    forall id :: id in ids ==> id in was && id in heard && IsReviewed(runs, was[id], heard[id].0, heard[id].1, canUpdate)
  }

  lemma OneMoreReviewed(was: map<RunID, Run>, runs: map<RunID, Run>, next: map<RunID, Run>, ids: seq<RunID>, k: nat,
                        heard: map<RunID, (Option<Task>, ReviewAnswers)>, target: Option<Task>, r: ReviewAnswers, canUpdate: bool)
    requires k < |ids| && ids[k] in was && Grows(runs, next)
    requires AllReviewed(was, runs, ids[..k], heard, canUpdate) && IsReviewed(next, was[ids[k]], target, r, canUpdate)
    ensures AllReviewed(was, next, ids[..k + 1], heard[ids[k] := (target, r)], canUpdate)
  {
    forall id | id in ids[..k + 1] && id != ids[k]
      ensures id in was && id in heard && IsReviewed(next, was[id], heard[id].0, heard[id].1, canUpdate)
    {
      assert id in ids[..k];
      var a := heard[id].1;
      if ReviewIsDue(was[id], heard[id].0, a, canUpdate) {
        StillServed(runs, next, a.automation.value, a.ready.value.(planID := was[id].planID));
      }
    }
  }

  // -------------------------------------------------------------- before a run is started

  /**
    * What is found out about a queued run: whether its automation is there, why policy refuses it, whether reviews are
    * outstanding, its task, and whether what the task depends on is done.
    */
  datatype Checks = Checks(available: bool, refusal: Option<string>, gateOpen: bool, found: Option<Task>, dependenciesDone: bool)

  /** The task is got as far as to be looked at. */
  predicate ReachesTask(c: Checks) {
    c.available && c.refusal.None? && !c.gateOpen && c.found.Some?
  }

  /** All checks pass. */
  predicate Passes(c: Checks) {
    ReachesTask(c) && c.found.value.unfit == "" && c.dependenciesDone
  }

  /** With which status and for what reason a run is refused; the first check that fails decides. */
  function Verdict(c: Checks): (Status, string)
    requires !Passes(c)
  {
    if !c.available then (Blocked, "automation_unavailable")
    else if c.refusal.Some? then (PolicyDenied, c.refusal.value)
    else if c.gateOpen then (Blocked, "automation_review_gate_open")
    else if c.found.None? then (Blocked, "task_unavailable")
    else if c.found.value.unfit != "" then (PolicyDenied, c.found.value.unfit)
    else (Blocked, "task_dependencies_not_done")
  }

  predicate EndsRefused(was: Run, end: Run, verdict: (Status, string)) {
    end == was.(status := verdict.0, failureCategory := verdict.1, finishedAt := end.updatedAt, updatedAt := end.updatedAt)
  }

  /** The run is blocked together with its task, which has used up its replacements. */
  predicate BlockedForGood(was: Run, end: Run) {
    end == was.(status := Blocked, workTaskStatus := end.workTaskStatus, failureCategory := RETRY_LIMIT, safeSummary := RETRY_LIMIT,
                finishedAt := FinishedBy(was, end.updatedAt), updatedAt := end.updatedAt)
  }

  /** The run has claimed the task and is starting it. */
  predicate Starts(was: Run, end: Run, task: Task) {
    end == was.(status := Starting, taskID := task.id, planID := task.planID, workTaskStatus := end.workTaskStatus, updatedAt := end.updatedAt)
  }

  /** The work-task service refused to let the run claim or start the task. */
  predicate FailsToStart(was: Run, end: Run, task: Task) {
    && end.failureCategory in {"claim_failed", "start_failed"}
    && end == was.(status := Blocked, taskID := task.id, planID := task.planID, workTaskStatus := end.workTaskStatus,
                   failureCategory := end.failureCategory, finishedAt := end.updatedAt, updatedAt := end.updatedAt)
  }

  // ------------------------------------------------------------------- claiming again

  /** What is found out about a run that may be claimed again: whether it is allowed, its task, and the task made ready for it. */
  datatype ClaimAnswers = ClaimAnswers(allowed: bool, task: Option<Task>, ready: Option<Task>)

  /** The task is started unless it has been already. */
  predicate Begun(before: seq<Request>, after: seq<Request>, task: Task, begun: Option<Task>) {
    if task.status == TaskInProgress then begun == Some(task) && after == before
    else after == before + [Request(task.id, TaskInProgress, begun)]
  }

  /** The task is claimed first; `owned` is what comes of that. */
  predicate ClaimedAndBegun(before: seq<Request>, after: seq<Request>, task: Task, owned: Option<Task>, begun: Option<Task>) {
    var claimed := before + [Request(task.id, TaskClaimed, owned)];
    if owned.None? then begun.None? && after == claimed else Begun(claimed, after, owned.value, begun)
  }

  predicate NeverLeased(r: Run) {
    r.claimedAt == 0 && r.lastHeartbeatAt == 0 && r.leaseExpiresAt == 0
  }

  datatype ClaimPass = RecoverStarting | RecoverPreExecution | RecoverGitOps | RecoverReview

  predicate Suits(run: Run, agentID: string) {
    agentID == "" || run.agentID == "" || run.agentID == agentID
  }

  /** Whether a pass claims the run, given what it finds out. */
  predicate Claimable(agents: Agents, pass: ClaimPass, r: Run, id: RunID, agentID: string, a: ClaimAnswers) {
    a.allowed && a.task.Some? &&
    match pass
    case RecoverStarting =>
      r.status in {Claiming, Starting} && r.taskID != "" && Suits(r, agentID) && NeverLeased(r) && !Guarded(r.safeSummary)
      && a.task.value.claimedByRunID == id && OpenTask(a.task.value.status) && a.ready.Some?
    case RecoverPreExecution => r.status == Failed && RecoverablePreExecution(r.failureCategory) && CanRetry(agents, r) && a.ready.Some?
    case RecoverGitOps =>
      r.status == Failed && RecoverableGitOps(r.failureCategory) && CanRetry(agents, r)
      && a.task.value.closeoutEvidence && OwnsRecovery(a.task.value, id, r)
    case RecoverReview =>
      r.status == Failed && r.safeSummary == REVIEW_QUEUED && RecoverableReview(r.failureCategory) && CanRetry(agents, r)
      && Suits(r, agentID) && a.task.value.status != TaskDone
  }

  /** The summary a run claimed by the pass runs under, and the failure it keeps on record. */
  function ClaimedSummary(pass: ClaimPass, r: Run): string {
    match pass
    case RecoverStarting => r.safeSummary
    case RecoverPreExecution => PRE_EXECUTION_RECOVERY
    case RecoverGitOps => GITOPS_POST_TASK_RECOVERY
    case RecoverReview => REVIEW_QUEUED
  }

  function ClaimedCategory(pass: ClaimPass, r: Run): string {
    if pass == RecoverGitOps then r.failureCategory else ""
  }

  /** One more attempt under a fresh claim, as the pass makes it. */
  predicate ClaimedAgain(agents: Agents, pass: ClaimPass, was: Run, end: Run, runner: string) {
    && Claims(agents, was, end, end.updatedAt) && end.runnerID == runner
    && end.safeSummary == ClaimedSummary(pass, was) && end.failureCategory == ClaimedCategory(pass, was)
  }

  function ClaimableStatuses(pass: ClaimPass): set<Status> {
    match pass
    case RecoverStarting => {Claiming, Starting}
    case RecoverPreExecution => {Failed, Blocked}
    case RecoverGitOps => {Failed}
    case RecoverReview => {Failed}
  }

  /** The passes in the order in which a call for a run makes them; between the first two and the last two it reconciles. */
  const FIRST_PASSES := [RecoverStarting]
  const MAIN_PASSES := [RecoverPreExecution, RecoverGitOps, RecoverReview, RecoverStarting]
  const LAST_PASSES := [RecoverStarting]
  const ROUNDS := [FIRST_PASSES, MAIN_PASSES, LAST_PASSES]

  /** A pass has asked for every run there is for it, and could claim none. */
  ghost predicate NoneClaimable(agents: Agents, pass: ClaimPass, runs: map<RunID, Run>, agentID: string, answers: map<RunID, ClaimAnswers>) {
    forall id :: id in runs && runs[id].status in ClaimableStatuses(pass) ==>
      id in answers && !Claimable(agents, pass, runs[id], id, agentID, answers[id])
  }

  /** A pass has claimed run `id`, after asking in vain for every run updated earlier. */
  ghost predicate FirstClaimable(agents: Agents, pass: ClaimPass, runs: map<RunID, Run>, agentID: string, answers: map<RunID, ClaimAnswers>, id: RunID)
    requires id in runs
  {
    && id in answers && Claimable(agents, pass, runs[id], id, agentID, answers[id])
    && forall other :: other in runs && runs[other].status in ClaimableStatuses(pass) && runs[other].updatedAt < runs[id].updatedAt ==>
         other in answers && !Claimable(agents, pass, runs[other], other, agentID, answers[other])
  }

  /** The first `k` passes have each asked in vain; `stages` are the runs that each of them found. */
  ghost predicate AskedInVain(agents: Agents, passes: seq<ClaimPass>, agentID: string, stages: seq<map<RunID, Run>>,
                              answers: seq<map<RunID, ClaimAnswers>>, k: int) {
    && 0 <= k <= |passes| && k <= |stages| && k <= |answers|
    && forall i :: 0 <= i < k ==> NoneClaimable(agents, passes[i], stages[i], agentID, answers[i])
  }

  /** The first `k` of `ids`, which are the runs for a pass by age, have been asked for in vain. */
  ghost predicate Asking(agents: Agents, pass: ClaimPass, runs: map<RunID, Run>, agentID: string, answers: map<RunID, ClaimAnswers>, ids: seq<RunID>, k: int) {
    && 0 <= k <= |ids| && (forall id :: id in ids <==> id in runs && runs[id].status in ClaimableStatuses(pass))
    && (forall i, j :: 0 <= i < j < |ids| ==> ids[i] != ids[j] && runs[ids[i]].updatedAt <= runs[ids[j]].updatedAt)
    && (forall i :: 0 <= i < k ==> ids[i] in answers && !Claimable(agents, pass, runs[ids[i]], ids[i], agentID, answers[ids[i]]))
  }

  /** From number `k` on, the runs are as they were. */
  ghost predicate AsBefore(was: map<RunID, Run>, runs: map<RunID, Run>, ids: seq<RunID>, k: int) {
    && 0 <= k && (forall i, j :: 0 <= i < j < |ids| ==> ids[i] != ids[j])
    && forall i :: k <= i < |ids| ==> ids[i] in was && ids[i] in runs && runs[ids[i]] == was[ids[i]]
  }

  lemma RestAsBefore(was: map<RunID, Run>, runs: map<RunID, Run>, next: map<RunID, Run>, ids: seq<RunID>, k: int)
    requires AsBefore(was, runs, ids, k) && k < |ids|
    requires forall id :: id in runs && id != ids[k] ==> id in next && next[id] == runs[id]
    ensures AsBefore(was, next, ids, k + 1)
  {
  }

  lemma AskingGoesOn(agents: Agents, pass: ClaimPass, runs: map<RunID, Run>, agentID: string, answers: map<RunID, ClaimAnswers>, ids: seq<RunID>, k: int,
                     a: ClaimAnswers)
    requires Asking(agents, pass, runs, agentID, answers, ids, k) && k < |ids| && !Claimable(agents, pass, runs[ids[k]], ids[k], agentID, a)
    ensures Asking(agents, pass, runs, agentID, answers[ids[k] := a], ids, k + 1)
  {
  }

  lemma AskedAll(agents: Agents, pass: ClaimPass, runs: map<RunID, Run>, agentID: string, answers: map<RunID, ClaimAnswers>, ids: seq<RunID>)
    requires Asking(agents, pass, runs, agentID, answers, ids, |ids|)
    ensures NoneClaimable(agents, pass, runs, agentID, answers)
  {
    forall id | id in runs && runs[id].status in ClaimableStatuses(pass)
      ensures id in answers && !Claimable(agents, pass, runs[id], id, agentID, answers[id])
    {
      assert id in ids;
      var i :| 0 <= i < |ids| && ids[i] == id;
    }
  }

  lemma AskedUpTo(agents: Agents, pass: ClaimPass, runs: map<RunID, Run>, agentID: string, answers: map<RunID, ClaimAnswers>, ids: seq<RunID>, k: int,
                  a: ClaimAnswers)
    requires Asking(agents, pass, runs, agentID, answers, ids, k) && k < |ids| && Claimable(agents, pass, runs[ids[k]], ids[k], agentID, a)
    ensures ids[k] in runs && FirstClaimable(agents, pass, runs, agentID, answers[ids[k] := a], ids[k])
  {
    assert ids[k] in ids;
    forall other | other in runs && runs[other].status in ClaimableStatuses(pass) && runs[other].updatedAt < runs[ids[k]].updatedAt
      ensures other in answers && other != ids[k] && !Claimable(agents, pass, runs[other], other, agentID, answers[other])
    {
      assert other in ids;
      var i :| 0 <= i < |ids| && ids[i] == other;
    }
  }

  /** The run gets past all checks. */
  ghost predicate LetThrough(runs: map<RunID, Run>, r: Run, c: Checks) {
    Passes(c) && !RetryLimitReached(runs, r, c.found.value)
  }

  /** What becomes of a queued run that is not handed out. */
  ghost predicate TurnedAwayAs(runs: map<RunID, Run>, was: Run, end: Run, c: Checks) {
    if ReachesTask(c) && RetryLimitReached(runs, was, c.found.value) then BlockedForGood(was, end) || end == was
    else if !Passes(c) then EndsRefused(was, end, Verdict(c))
    else FailsToStart(was, end, c.found.value) || (end.status == Failed && end.failureCategory == "governance_action_failed")
  }

  /**
    * One look at everything: the runs between the reconciling passes with what these found, and then the runs that each
    * claiming pass found with what it was answered.
    */
  datatype Round = Round(stages: seq<map<RunID, Run>>, findings: seq<map<RunID, Findings>>,
                         asked: seq<map<RunID, Run>>, answers: seq<map<RunID, ClaimAnswers>>)

  /** How a run comes to be handed out: claimed once more by a pass, as it was then, or from the queue, past its checks. */
  datatype Handing = ByPass(pass: ClaimPass, was: Run, answers: ClaimAnswers) | FromQueue(checks: Checks) | ByNobody

  /** Up to the pass that claimed the run, or altogether, the passes have asked in vain. */
  ghost predicate InVainUntil(agents: Agents, passes: seq<ClaimPass>, agentID: string, how: Handing,
                              asked: seq<map<RunID, Run>>, answers: seq<map<RunID, ClaimAnswers>>) {
    if how.ByPass? then |asked| < |passes| && how.pass == passes[|asked|] && AskedInVain(agents, passes, agentID, asked, answers, |asked|)
    else AskedInVain(agents, passes, agentID, asked, answers, |passes|)
  }

  /** All reconciling passes have been made, beginning with the runs `before`. */
  ghost predicate Reconciled(agents: Agents, serviceStart: Time, canUpdate: bool, r: Round, before: map<RunID, Run>) {
    PassesMade(agents, serviceStart, canUpdate, r.stages, r.findings, |PASSES|) && r.stages[0] == before
  }

  /** Each round but the first begins by reconciling; each but the last asked in vain, and `how` is how the last ended. */
  ghost predicate RoundsMade(agents: Agents, serviceStart: Time, canUpdate: bool, agentID: string, how: Handing, rounds: seq<Round>) {
    && 0 < |rounds| <= |ROUNDS|
    && (forall k :: 0 < k < |rounds| ==> PassesMade(agents, serviceStart, canUpdate, rounds[k].stages, rounds[k].findings, |PASSES|))
    && (forall k :: 0 <= k < |rounds| ==>
          InVainUntil(agents, ROUNDS[k], agentID, if k == |rounds| - 1 then how else ByNobody, rounds[k].asked, rounds[k].answers))
  }

  lemma OneMoreRound(agents: Agents, serviceStart: Time, canUpdate: bool, agentID: string, how: Handing, rounds: seq<Round>, round: Round,
                     before: map<RunID, Run>)
    requires |rounds| < |ROUNDS| && (rounds == [] || RoundsMade(agents, serviceStart, canUpdate, agentID, ByNobody, rounds))
    requires rounds == [] || Reconciled(agents, serviceStart, canUpdate, round, before)
    requires InVainUntil(agents, ROUNDS[|rounds|], agentID, how, round.asked, round.answers)
    ensures RoundsMade(agents, serviceStart, canUpdate, agentID, how, rounds + [round])
  {
  }

  /** The run is a replacement for a task that has failed too often to be replaced: it is to be blocked, if the task can be. */
  ghost predicate PastLimit(runs: map<RunID, Run>, r: Run) {
    exists t: Task :: RetryLimitReached(runs, r, t) && (r.taskID == "" || t.id == r.taskID)
  }

  /** How a queued run fares that is not started: it is refused or blocked, or has to wait for its task to be blocked. */
  ghost predicate TurnedAway(runs: map<RunID, Run>, r: Run) {
    r.status in {PolicyDenied, Blocked, Failed} || (r.status == Queued && PastLimit(runs, r))
  }

  /** The run waits to be handed out to the agent. */
  ghost predicate Waits(runs: map<RunID, Run>, r: Run, agentID: string) {
    r.status == Queued && Suits(r, agentID) && !PastLimit(runs, r)
  }

  /** A run that is not started has been refused or blocked, or has to wait for its task to be blocked. */
  lemma StaysPastLimit(runs: map<RunID, Run>, next: map<RunID, Run>, was: Run, end: Run, c: Checks)
    requires was.status == Queued && TurnedAwayAs(runs, was, end, c) && (end == was ==> next == runs)
    requires c.found.Some? && was.taskID != "" ==> c.found.value.id == was.taskID
    ensures TurnedAway(next, end)
  {
    if ReachesTask(c) && RetryLimitReached(runs, was, c.found.value) && end == was {
      assert PastLimit(next, end);
    }
  }

  /** Trying a queued run takes away no failure: a task that has failed too often still has. */
  lemma PastLimitStays(runs: map<RunID, Run>, next: map<RunID, Run>, id: RunID, r: Run)
    requires id in runs && runs[id].status == Queued && next.Keys == runs.Keys && PastLimit(runs, r)
    requires forall other :: other in runs && other != id ==> next[other] == runs[other]
    ensures PastLimit(next, r)
  {
    var t: Task :| RetryLimitReached(runs, r, t) && (r.taskID == "" || t.id == r.taskID);
    var a := AutomationOf(r);
    assert Failures(runs, a, t) <= Failures(next, a, t);
    SmallerSet(Failures(runs, a, t), Failures(next, a, t));
    assert RetryLimitReached(next, r, t);
  }

  lemma SmallerSet<T>(a: set<T>, b: set<T>)
    requires a <= b
    ensures |a| <= |b|
  {
    assert b == a + (b - a);
  }

  /** `ids` are the runs queued in `was`, oldest first; those before number `k` have been tried, and do not wait any more. */
  ghost predicate Tried(was: map<RunID, Run>, runs: map<RunID, Run>, ids: seq<RunID>, k: int, agentID: string) {
    && runs.Keys == was.Keys && 0 <= k <= |ids|
    && (forall id :: id in ids <==> id in was && was[id].status == Queued)
    && (forall i, j :: 0 <= i < j < |ids| ==> ids[i] != ids[j] && was[ids[i]].createdAt <= was[ids[j]].createdAt)
    && (forall id :: id in runs && id !in ids ==> runs[id] == was[id])
    && (forall i :: k <= i < |ids| ==> runs[ids[i]] == was[ids[i]])
    && (forall i :: 0 <= i < k ==> !Waits(runs, runs[ids[i]], agentID))
  }

  lemma StillTurnedAway(was: map<RunID, Run>, runs: map<RunID, Run>, next: map<RunID, Run>, ids: seq<RunID>, k: int, agentID: string, i: int)
    requires Tried(was, runs, ids, k, agentID) && 0 <= i < k < |ids| && next.Keys == runs.Keys
    requires forall id :: id in runs && id != ids[k] ==> next[id] == runs[id]
    ensures !Waits(next, next[ids[i]], agentID)
  {
    if PastLimit(runs, runs[ids[i]]) { PastLimitStays(runs, next, ids[k], runs[ids[i]]); }
  }

  lemma OneMoreTried(was: map<RunID, Run>, runs: map<RunID, Run>, next: map<RunID, Run>, ids: seq<RunID>, k: int, agentID: string)
    requires Tried(was, runs, ids, k, agentID) && k < |ids| && next.Keys == runs.Keys
    requires forall id :: id in runs && id != ids[k] ==> next[id] == runs[id]
    requires !Waits(next, next[ids[k]], agentID)
    ensures Tried(was, next, ids, k + 1, agentID)
  {
    forall i | 0 <= i < k ensures !Waits(next, next[ids[i]], agentID) {
      StillTurnedAway(was, runs, next, ids, k, agentID, i);
    }
  }

  lemma NoneWaits(was: map<RunID, Run>, runs: map<RunID, Run>, ids: seq<RunID>, agentID: string)
    requires Tried(was, runs, ids, |ids|, agentID)
    ensures forall id :: id in runs ==> !Waits(runs, runs[id], agentID)
  {
    forall id | id in runs ensures !Waits(runs, runs[id], agentID) {
      if id in ids { var i :| 0 <= i < |ids| && ids[i] == id; }
    }
  }

  /** Then number `k` is handed out: whoever still waits is younger. */
  lemma OldestOfWaiting(was: map<RunID, Run>, runs: map<RunID, Run>, next: map<RunID, Run>, ids: seq<RunID>, k: int, agentID: string)
    requires Tried(was, runs, ids, k, agentID) && k < |ids| && next.Keys == runs.Keys
    requires forall id :: id in runs && id != ids[k] ==> next[id] == runs[id]
    requires next[ids[k]].createdAt == runs[ids[k]].createdAt
    ensures forall id :: id in next && Waits(next, next[id], agentID) ==> next[ids[k]].createdAt <= next[id].createdAt
  {
    forall id | id in next && Waits(next, next[id], agentID) ensures next[ids[k]].createdAt <= next[id].createdAt {
      if id != ids[k] {
        assert id in ids;
        var i :| 0 <= i < |ids| && ids[i] == id;
        if i < k { StillTurnedAway(was, runs, next, ids, k, agentID, i); }
      }
    }
  }
}
