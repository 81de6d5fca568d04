/** When a task that is ready again gets a new run. */
module Replacement {
  import opened RunLifecycle

  const MAX_REPLACEMENT_RUNS := 3
  const REQUEUED := "dependency_ready_automation_queued"

  /**
    * A work task, reduced to what the service asks of it; the text heuristics about it are given as their answers.
    * `unfit` is the reason why it must not be executed now, "" if there is none.
    */
  datatype Task = Task(
    id: string, planID: string, ownerAgent: string, status: TaskStatus, claimedByRunID: RunID, updatedAt: Time, systemFixMarker: bool,
    unfit: string, closeoutEvidence: bool, listsRun: bool,
    needsGitOpsRecovery: bool, readyForCloseout: bool, unremediatedFinding: bool)

  /** `reviewsDone`: the automation asks for reviews, and all of them are done. */
  datatype Automation = Automation(id: string, agentID: string, reviewsDone: bool)

  predicate RecoverablePreExecution(category: string) {
    category in {"worktree_resolve_failed", "worktree_prepare_failed", "claim_failed", "start_failed", "gitops_pre_task_failed",
                 "gitops_dirty_worktree", "gitops_dirty_worktree_scope"}
  }

  predicate RecoverableGitOps(category: string) {
    category in {"gitops_post_task_failed", "gitops_branch_policy_failed", "gitops_command_failed", "gitops_invalid_input",
                 "gitops_verification_failed", "gitops_dirty_worktree_scope"}
  }

  predicate RecoverableReview(category: string) {
    category in {"gitops_dirty_worktree", "gitops_dirty_worktree_scope", "gitops_pre_task_failed"}
  }

  predicate HandedBack(category: string) {
    category in {"gitops_recovery_failed_requires_implementation", "pre_execution_recovery_failed_requires_implementation"}
  }

  predicate Contains(s: string, part: string) {
    part <= s || (s != "" && Contains(s[1..], part))
  }

  /** The run belongs to the automation and the task; a task without a plan is matched in every plan. */
  predicate Concerns(r: Run, a: Automation, t: Task) {
    r.automationID == a.id && (t.planID == "" || r.planID == t.planID) && r.taskID == t.id
  }

  predicate Active(r: Run) {
    r.status in {Queued, Claiming, Starting, Running, Verifying}
  }

  predicate IsReplacement(r: Run) {
    r.safeSummary == REQUEUED || "dependency-ready:" <= r.orchestratorRunID
  }

  /** A failure that has handed the task back; those before the last system fix no longer count. */
  predicate CountsAsFailure(r: Run, t: Task) {
    && r.status == Failed && HandedBack(r.failureCategory)
    && (t.systemFixMarker && t.updatedAt != 0 ==> t.updatedAt < r.updatedAt)
  }

  predicate Replaceable(r: Run, a: Automation, t: Task) {
    || (r.status == Failed && (RecoverablePreExecution(r.failureCategory) || RecoverableGitOps(r.failureCategory)
                               || RecoverableReview(r.failureCategory) || HandedBack(r.failureCategory)))
    || (r.status == Timeout && r.failureCategory == INTERRUPTED)
    || (t.status == TaskReady && ReplaceableOnceReady(r, a))
  }

  predicate ReplaceableOnceReady(r: Run, a: Automation) {
    || (r.status == PolicyDenied && Contains(r.failureCategory, "task_not_ready"))
    || (r.status == Failed && r.failureCategory == "gitops_dirty_worktree_scope_requires_plan")
    || (r.status == Blocked && r.failureCategory == "automation_review_gate_open" && a.reviewsDone)
    || (r.status == Blocked && r.failureCategory == "work_task_blocked")
  }

  ghost function Failures(runs: map<RunID, Run>, a: Automation, t: Task): set<RunID> {
    set id | id in runs && Concerns(runs[id], a, t) && CountsAsFailure(runs[id], t)
  }

  ghost function ActiveRuns(runs: map<RunID, Run>, a: Automation, t: Task): set<RunID> {
    set id | id in runs && Concerns(runs[id], a, t) && Active(runs[id])
  }

  function AutomationOf(r: Run): Automation {
    Automation(r.automationID, r.agentID, false)
  }

  /** The run is a replacement, and its task has failed too often to be replaced once more. */
  ghost predicate RetryLimitReached(runs: map<RunID, Run>, r: Run, t: Task) {
    && IsReplacement(r) && r.automationID != "" && t.planID != "" && t.id != ""
    && |Failures(runs, AutomationOf(r), t)| >= MAX_REPLACEMENT_RUNS
  }

  datatype Decision = Leave | BlockTask | QueueRun

  /** An active run of the first kind ends the matter; three failures block the task; one run that cannot be replaced is enough to wait. */
  ghost function Decide(runs: map<RunID, Run>, a: Automation, t: Task): Decision {
    if exists id :: id in runs && Concerns(runs[id], a, t) && Active(runs[id]) && !IsReplacement(runs[id]) then Leave
    else if |Failures(runs, a, t)| >= MAX_REPLACEMENT_RUNS then BlockTask
    else if exists id :: id in runs && Concerns(runs[id], a, t) && !Replaceable(runs[id], a, t) then Leave
    else QueueRun
  }

  lemma ActiveIsKept(r: Run, a: Automation, t: Task)
    ensures Active(r) ==> !Replaceable(r, a, t)
  {
  }

  /** A new run is queued exactly when none is active, fewer than three have failed, and every run there is can be replaced. */
  lemma QueuesExactly(runs: map<RunID, Run>, a: Automation, t: Task)
    ensures Decide(runs, a, t) == QueueRun <==>
              && ActiveRuns(runs, a, t) == {}
              && |Failures(runs, a, t)| < MAX_REPLACEMENT_RUNS
              && forall id :: id in runs && Concerns(runs[id], a, t) ==> Replaceable(runs[id], a, t)
  {
    var active := ActiveRuns(runs, a, t);
    assert forall id :: id in active <==> id in runs && Concerns(runs[id], a, t) && Active(runs[id]);
    forall id | id in runs ensures Active(runs[id]) ==> !Replaceable(runs[id], a, t) {
      ActiveIsKept(runs[id], a, t);
    }
    if Decide(runs, a, t) == QueueRun {
      assert forall id :: id in runs && Concerns(runs[id], a, t) ==> !Active(runs[id]);
      assert active == {};
    }
  }

  /** A run queued when no other is active is the only active one of its automation, plan and task. */
  lemma FirstIsAlone(runs: map<RunID, Run>, a: Automation, t: Task, id: RunID, run: Run)
    requires ActiveRuns(runs, a, t) == {} && id !in runs && Active(run) && Concerns(run, a, t)
    ensures ActiveRuns(runs[id := run], a, t) == {id}
  {
    var before, active := ActiveRuns(runs, a, t), ActiveRuns(runs[id := run], a, t);
    assert forall other :: other in before <==> other in runs && Concerns(runs[other], a, t) && Active(runs[other]);
    assert forall other :: other in active <==> other == id || other in before;
  }

  /** So is a replacement, since it is queued only then. */
  lemma QueuedRunIsAlone(runs: map<RunID, Run>, a: Automation, t: Task, id: RunID, run: Run)
    requires Decide(runs, a, t) == QueueRun && id !in runs && run.status == Queued && Concerns(run, a, t)
    ensures ActiveRuns(runs[id := run], a, t) == {id}
  {
    QueuesExactly(runs, a, t);
    FirstIsAlone(runs, a, t, id, run);
  }

  /** Three failures stop the replacing, whatever else there is: the task is blocked, unless some other run is still at work. */
  lemma ThreeFailuresStopReplacing(runs: map<RunID, Run>, a: Automation, t: Task)
    requires |Failures(runs, a, t)| >= MAX_REPLACEMENT_RUNS
    ensures Decide(runs, a, t) != QueueRun
    ensures Decide(runs, a, t) == BlockTask <==>
              forall id :: id in ActiveRuns(runs, a, t) ==> IsReplacement(runs[id])
  {
    if Decide(runs, a, t) == BlockTask {
      forall id | id in ActiveRuns(runs, a, t) ensures IsReplacement(runs[id]) {
      }
    } else {
      var id :| id in runs && Concerns(runs[id], a, t) && Active(runs[id]) && !IsReplacement(runs[id]);
      assert id in ActiveRuns(runs, a, t);
    }
  }
}
