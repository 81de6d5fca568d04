/** The operations of the automation service on externally executed runs. */
module AutomationService {
  import opened Wrappers
  import opened RunLifecycle
  import opened Replacement
  import opened RunOutcomes

  // ----------------------------------------------------- the environment, free to answer anything

  method Choose() returns (yes: bool) {
    yes := *;
  }

  /** The task asked for, if there is one; for a run without a task any of its plan may be the answer. */
  method GetWorkTask(taskID: string) returns (task: Option<Task>)
    ensures task.Some? && taskID != "" ==> task.value.id == taskID
  {
    task := *;
    if task.Some? && taskID != "" {
      task := Some(task.value.(id := taskID));
    }
  }

  class Service {
    const agents: Agents
    /** Whether the work-task service can change a task's status at all. */
    const canUpdateTasks: bool
    var runs: map<RunID, Run>
    var attempts: seq<Attempt>
    var serviceStart: Time
    var clock: Time
    var lastClaim: nat
    var lastRun: RunID
    /** Everything written to the store, and every restart. */
    ghost var history: seq<Event>
    /** Everything asked of the work-task service. */
    ghost var requests: seq<Request>

    function View(): State
      reads `runs, `attempts, `serviceStart, `clock, `lastClaim
    {
      State(runs, attempts, serviceStart, clock, lastClaim)
    }

    /** The store is what a well-formed history leaves. */
    ghost predicate Valid()
      reads `runs, `attempts, `serviceStart, `clock, `lastClaim, `lastRun, `history
    {
      && 0 < clock && WellFormed(agents, history)
      && After(history).clock <= clock && View() == After(history).(clock := clock)
      && forall id :: id in runs ==> 0 < id <= lastRun
    }

    /** Time goes on, and the past stays as it was. */
    twostate predicate GoesOn()
      reads this
    {
      && old(clock) <= clock && old(lastClaim) <= lastClaim && serviceStart == old(serviceStart)
      && old(history) <= history
      && old(requests) <= requests
    }

    /** Of the runs there were only run `id` may have changed; others may have been added. */
    twostate predicate TouchesRun(id: RunID)
      reads this
    {
      GoesOn() && forall other :: other in old(runs) ==> other in runs && (other != id ==> runs[other] == old(runs)[other])
    }

    /** And no attempt has been recorded. */
    twostate predicate Touches(id: RunID)
      reads this
    {
      TouchesRun(id) && attempts == old(attempts)
    }

    constructor (agents: Agents, canUpdateTasks: bool, at: Time)
      requires 0 < at
      ensures Valid() && runs == map[] && attempts == [] && serviceStart == at
    {
      this.agents, this.canUpdateTasks := agents, canUpdateTasks;
      runs, attempts, serviceStart, clock, lastClaim, lastRun := map[], [], at, at, 0, 0;
      history, requests := [Restart(at)], [];
      new;
      assert history[..0] == [];
    }

    method Now() returns (now: Time)
      requires Valid()
      modifies this`clock
      ensures Valid() && old(clock) <= clock == now
    {
      var reading: int := *;
      if reading > clock {
        clock := reading;
      }
      now := clock;
    }

    ghost method Remember(e: Event)
      requires Valid() && Legal(agents, View(), e)
      modifies this`history
      ensures history == old(history) + [e] && WellFormed(agents, history)
      ensures After(history) == Apply(old(After(history)), e)
    {
      history := history + [e];
      assert history[..|history| - 1] == old(history);
    }

    /** The service is started again on the same store. */
    method StartAgain()
      requires Valid()
      modifies `serviceStart, `history
      ensures Valid() && serviceStart == clock && history == old(history) + [Restart(clock)]
    {
      Remember(Restart(clock));
      serviceStart := clock;
    }

    /** Stores a new run under a fresh ID. */
    method CreateRun(run: Run) returns (id: RunID)
      requires Valid() && Legal(agents, View(), Create(clock, lastRun + 1, run))
      modifies `runs, `lastRun, `history
      ensures Valid() && Touches(id)
      ensures id == old(lastRun) + 1 && id !in old(runs) && runs == old(runs)[id := run]
    {
      id := lastRun + 1;
      Remember(Create(clock, id, run));
      runs := runs[id := run];
      lastRun := id;
    }

    /** The store's UpdateRun: it answers with what it holds afterwards, which need not be what it was sent. */
    method UpdateRun(id: RunID, kind: Kind, next: Run) returns (stored: Run)
      requires Valid() && Legal(agents, View(), Write(clock, id, kind, next))
      modifies `runs, `lastClaim, `history
      ensures Valid() && Touches(id)
      ensures lastClaim == if kind.Claim? then next.claimID else old(lastClaim)
      ensures stored == Stored(old(runs)[id], next) && runs == old(runs)[id := stored]
      ensures history == old(history) + [Write(clock, id, kind, next)]
    {
      Remember(Write(clock, id, kind, next));
      if kind.Claim? {
        lastClaim := next.claimID;
      }
      stored := Stored(runs[id], next);
      runs := runs[id := stored];
    }

    /** The store's CreateAttempt. */
    method CreateAttempt(claim: nat, runner: string, attempt: Attempt)
      requires Valid() && Legal(agents, View(), Record(clock, claim, runner, attempt))
      modifies `attempts, `history
      ensures Valid() && attempts == old(attempts) + [attempt]
      ensures old(history) <= history
    {
      Remember(Record(clock, claim, runner, attempt));
      attempts := attempts + [attempt];
    }

    // ----------------------------------------------------------- what is asked of the work-task service

    /** Asks for a task to be brought to a status. */
    method ChangeWorkTask(task: Task, status: TaskStatus) returns (changed: Option<Task>)
      modifies `requests
      ensures requests == old(requests) + [Request(task.id, status, changed)]
    {
      changed := *;
      requests := requests + [Request(task.id, status, changed)];
    }

    /** Widening the files a task may touch leaves it the same task. */
    method ExpandWorkTaskScope(task: Task) returns (expanded: Option<Task>)
      modifies `requests
      ensures requests == old(requests) + [Request(task.id, task.status, expanded)]
      ensures expanded.Some? ==> expanded.value.id == task.id && expanded.value.planID == task.planID
    {
      expanded := *;
      if expanded.Some? {
        expanded := Some(expanded.value.(id := task.id, planID := task.planID));
      }
      requests := requests + [Request(task.id, task.status, expanded)];
    }

    /** Completing a task yields a task that is done. */
    method CompleteWorkTask(task: Task) returns (completed: Option<Task>)
      modifies `requests
      ensures requests == old(requests) + [Request(task.id, TaskDone, completed)]
      ensures completed.Some? ==> completed.value.status == TaskDone
    {
      completed := *;
      if completed.Some? {
        completed := Some(completed.value.(status := TaskDone));
      }
      requests := requests + [Request(task.id, TaskDone, completed)];
    }

    /** What the invariant says of a stored run. */
    lemma StoredRunIsOk(id: RunID)
      requires Valid() && id in runs
      ensures RunOk(agents, View(), runs[id])
    {
      HistoryKeeps(agents, history);
      assert RunOk(agents, After(history), After(history).runs[id]);
    }

    // ------------------------------------------------------------------ ending a run

    /** The run is completed; after that the tasks that have become ready may get new runs, as far as that is not refused. */
    method CompleteRunAfterTaskDone(id: RunID, task: Task) returns (run: Run, ghost pairs: seq<(Automation, Task)>, ghost served: bool)
      requires Valid() && id in runs && runs[id].status != Completed && task.status == TaskDone
      modifies `runs, `lastRun, `lastClaim, `clock, `history, `requests
      ensures Valid() && Touches(id) && lastClaim == old(lastClaim)
      ensures run == runs[id] && SameClaim(run, old(runs)[id]) && Finishes(old(runs)[id], run, run.updatedAt)
      ensures if served then NoneIsCalledFor(runs, pairs) else !LastGranted(old(requests), requests)
    {
      var now := Now();
      run := runs[id].(status := Completed, workTaskStatus := task.status, safeSummary := VERIFIED_TASK_DONE, failureCategory := "",
                       finishedAt := FinishedBy(runs[id], now), updatedAt := now);
      run := UpdateRun(id, Finish, run);
      var ready := ListReady();
      var ok := QueueReplacements(ready);
      pairs, served := ready, ok;
    }

    method FinishRunAfterTaskTerminal(id: RunID, task: Task) returns (run: Run)
      requires Valid() && id in runs && runs[id].status != Completed && TerminalTask(task.status)
      modifies `runs, `lastClaim, `clock, `history
      ensures Valid() && Touches(id) && lastClaim == old(lastClaim)
      ensures run == runs[id] && EndsWithTask(old(runs)[id], run, task)
    {
      var status, category := Cancelled, "work_task_superseded";
      match task.status {
        case TaskBlocked => status, category := Blocked, "work_task_blocked";
        case TaskFailed => status, category := Failed, "work_task_failed";
        case TaskCancelled => category := "work_task_cancelled";
        case _ =>
      }
      var now := Now();
      run := UpdateRun(id, Adjust, runs[id].(status := status, workTaskStatus := task.status, failureCategory := category,
                                             safeSummary := "external_codex_cli_task_terminal",
                                             finishedAt := FinishedBy(runs[id], now), updatedAt := now));
    }

    method FailRun(id: RunID, status: Status, reason: string) returns (run: Run)
      requires Valid() && id in runs && runs[id].status != Completed && status in {Verifying, Failed, Blocked, PolicyDenied}
      modifies `runs, `lastClaim, `clock, `history
      ensures Valid() && Touches(id) && lastClaim == old(lastClaim)
      ensures run == runs[id] && runs == old(runs)[id := run] && clock >= old(clock)
      ensures run == old(runs)[id].(status := status, failureCategory := reason, finishedAt := clock, updatedAt := clock)
    {
      var now := Now();
      run := UpdateRun(id, Adjust, runs[id].(status := status, failureCategory := reason, finishedAt := now, updatedAt := now));
    }

    /** Records what has become of the task; a guarded running run does not take it. */
    method SyncTaskStatus(id: RunID, task: Task) returns (run: Run)
      requires Valid() && id in runs && runs[id].status != Completed
      modifies `runs, `lastClaim, `clock, `history
      ensures Valid() && Touches(id) && lastClaim == old(lastClaim)
      ensures run == runs[id] && Synced(old(runs)[id], run, task)
    {
      run := runs[id];
      if run.workTaskStatus != task.status {
        var now := Now();
        run := UpdateRun(id, Adjust, run.(workTaskStatus := task.status, updatedAt := now));
      }
    }

    /** Writes an end of `run`. */
    method WriteOutcome(id: RunID, run: Run, kind: Kind, next: Run)
      requires Valid() && id in runs && Underway(runs[id], run, kind) && EndOf(run, next, kind, clock)
      modifies `runs, `lastClaim, `history
      ensures Valid() && Touches(id) && lastClaim == old(lastClaim)
      ensures runs == old(runs)[id := next] && SameClaim(next, old(runs)[id])
      ensures history == old(history) + [Write(clock, id, kind, next)]
    {
      StoredRunIsOk(id);
      OutcomeIsLegal(agents, View(), id, run, kind, next);
      var stored := UpdateRun(id, kind, next);
    }

    // ------------------------------------------------------------------ new runs

    method HasActive(automation: Automation, listedPlan: string, task: Task) returns (found: bool)
      ensures found <==> ActiveRuns(runs, automation, task.(planID := listedPlan)) != {}
    {
      ghost var active := ActiveRuns(runs, automation, task.(planID := listedPlan));
      var existing := ListRuns(automation.id, listedPlan);
      for k := 0 to |existing|
        invariant forall i :: 0 <= i < k ==> existing[i] !in active
      {
        if runs[existing[k]].taskID == task.id && Active(runs[existing[k]]) {
          assert existing[k] in active;
          return true;
        }
      }
      assert active == {} by { assert forall id :: id in active ==> id in existing; }
      return false;
    }

    /** The first run of an automation, plan and task, unless one of them is active already. */
    method QueueUnlessActive(automation: Automation, listedPlan: string, planID: string, task: Task, orchestratorRunID: string, summary: string)
      returns (queued: Option<RunID>)
      requires Valid()
      modifies `runs, `lastRun, `clock, `history
      ensures Valid() && Touches(0)
      ensures queued.Some? <==> ActiveRuns(old(runs), automation, task.(planID := listedPlan)) == {}
      ensures queued.None? ==> runs == old(runs)
      ensures queued.Some? ==>
                && queued.value !in old(runs) && queued.value in runs && runs == old(runs)[queued.value := runs[queued.value]]
                && runs[queued.value] == QueuedRun(automation, planID, task, orchestratorRunID, summary, runs[queued.value].createdAt)
      ensures queued.Some? && listedPlan == planID ==> ActiveRuns(runs, automation, task.(planID := planID)) == {queued.value}
    {
      var active := HasActive(automation, listedPlan, task);
      if active {
        return None;
      }
      ghost var before := runs;
      var id := CreateQueued(automation, planID, task, orchestratorRunID, summary);
      if listedPlan == planID { FirstIsAlone(before, automation, task.(planID := planID), id, runs[id]); }
      return Some(id);
    }

    method CreateQueued(automation: Automation, planID: string, task: Task, orchestratorRunID: string, summary: string) returns (id: RunID)
      requires Valid()
      modifies `runs, `lastRun, `clock, `history
      ensures Valid() && Touches(0) && id !in old(runs) && id in runs && runs == old(runs)[id := runs[id]]
      ensures runs[id] == QueuedRun(automation, planID, task, orchestratorRunID, summary, clock)
    {
      var now := Now();
      var agentID := if task.ownerAgent != "" then task.ownerAgent else automation.agentID;
      id := CreateRun(Run(automation.id, planID, task.id, agentID, orchestratorRunID,
                          Queued, TaskUnknown, "", summary, 0, 0, "", 0, 0, 0, 0, 0, now, now));
    }

    /** The review is made ready if it is still planned, and a ready one gets a run unless it has an active one. */
    method EnsureReviewRun(automation: Automation, planID: string, review: string, orchestratorRunID: string)
      returns (ok: bool, ghost found: Option<Task>, ghost ready: Option<Task>)
      requires Valid()
      modifies `runs, `lastRun, `clock, `history, `requests
      ensures Valid() && Touches(0)
      ensures ok <==> ready.Some?
      ensures if found.Some? && found.value.status == TaskPlanned && canUpdateTasks
              then requests == old(requests) + [Request(found.value.id, TaskReady, ready)]
              else requests == old(requests) && ready == if found.Some? && found.value.status == TaskPlanned then None else found
      ensures if ready.Some? && ready.value.status == TaskReady && ActiveRuns(old(runs), automation, ready.value.(planID := planID)) == {}
              then exists id :: id !in old(runs) && id in runs && runs == old(runs)[id := runs[id]]
                                && runs[id] == QueuedRun(automation, ready.value.planID, ready.value, orchestratorRunID, GATE_QUEUED, runs[id].createdAt)
              else runs == old(runs)
    {
      ready := None;
      var answer := GetWorkTask(review);
      found := answer;
      if answer.None? {
        return false, found, ready;
      }
      var task := answer.value;
      if task.status == TaskPlanned {
        if !canUpdateTasks {
          return false, found, ready;
        }
        var updated := ChangeWorkTask(task, TaskReady);
        ready := updated;
        if updated.None? {
          return false, found, ready;
        }
        task := updated.value;
      }
      ready := Some(task);
      if task.status == TaskReady {
        var queued := QueueUnlessActive(automation, planID, task.planID, task, orchestratorRunID, GATE_QUEUED);
      }
      ok := true;
    }

    /**
      * Runs for the reviews that an automation must have before it may start. `ready` are the reviews as they are then, up
      * to the first that cannot be found or made ready; `ok` is false exactly when there is one.
      */
    method EnsureRequiredAutomationReviewRuns(automation: Automation, planID: string, reviews: seq<string>, orchestratorRunID: string)
      returns (ok: bool, ghost ready: seq<Option<Task>>)
      requires Valid()
      modifies `runs, `lastRun, `clock, `history, `requests
      ensures Valid() && Touches(0) && Grows(old(runs), runs)
      ensures forall id :: id in runs && id !in old(runs) ==> GateRun(runs[id])
      ensures reviews == [] ==> ok && runs == old(runs) && requests == old(requests)
      ensures ok <==> AllThere(|reviews|, ready)
      ensures ok ==> forall k :: 0 <= k < |ready| ==> IsGated(runs, automation, planID, ready[k].value)
    {
      ready := [];
      for k := 0 to |reviews|
        invariant Valid() && Touches(0) && Grows(old(runs), runs) && AllThere(k, ready)
        invariant forall id :: id in runs && id !in old(runs) ==> GateRun(runs[id])
        invariant k == 0 ==> runs == old(runs) && requests == old(requests)
        invariant forall i :: 0 <= i < k ==> IsGated(runs, automation, planID, ready[i].value)
      {
        ghost var was := runs;
        ghost var found, task;
        ok, found, task := EnsureReviewRun(automation, planID, reviews[k], orchestratorRunID);
        ready := ready + [task];
        if !ok {
          assert ready[k].None?;
          return;
        }
        GateHolds(was, runs, automation, planID, task.value, orchestratorRunID);
        forall i | 0 <= i < k ensures IsGated(runs, automation, planID, ready[i].value) { GateStays(was, runs, automation, planID, ready[i].value); }
      }
      ok := true;
    }

    /** Whether all reviews are done; `answers` are the reviews as they read, up to the first that is not. */
    method RequiredAutomationReviewsDone(reviews: seq<string>) returns (done: bool, ghost answers: seq<Option<Task>>)
      ensures done <==> AllDone(|reviews|, answers)
      ensures reviews == [] ==> done
    {
      answers := [];
      for k := 0 to |reviews|
        invariant AllDone(k, answers)
      {
        var task := GetWorkTask(reviews[k]);
        answers := answers + [task];
        if task.None? || task.value.status != TaskDone {
          assert answers[k] == task;
          return false, answers;
        }
      }
      done := true;
    }

    /**
      * A submitted run is queued, or refused at once with the reason on record: because of its runner (`unfit`), because
      * the reviews its automation asks for are not done, or for a reason found after those (`refusal`). The reviews may
      * get runs of their own first; nothing else changes. `gate` tells that all reviews could be made ready, as `ready`
      * says, and read as done, as `answers` say.
      */
    method SubmitRun(automation: Automation, automationPlan: string, planID: string, taskID: string, owner: string, orchestratorRunID: string,
                     unfit: Option<string>, reviews: seq<string>, refusal: Option<(Status, string)>)
      returns (id: RunID, ghost gate: bool, ghost ready: seq<Option<Task>>, ghost answers: seq<Option<Task>>)
      requires Valid() && (refusal.Some? ==> refusal.value.0 in {PolicyDenied, Blocked})
      modifies `runs, `lastRun, `clock, `history, `requests
      ensures Valid() && Touches(0) && id !in old(runs) && id in runs
      ensures runs[id] == RunSubmitted(automation.id, planID, taskID, owner, orchestratorRunID, Rejection(unfit, gate, refusal), runs[id].createdAt)
      ensures forall other :: other in runs && other !in old(runs) && other != id ==> unfit.None? && GateRun(runs[other])
      ensures reviews == [] ==> gate
      ensures unfit.None? ==> (gate <==> AllThere(|reviews|, ready) && AllDone(|reviews|, answers))
    {
      gate, ready, answers := true, [], [];
      var open := false;
      if unfit.None? {
        var ensured;
        ensured, ready := EnsureRequiredAutomationReviewRuns(automation, automationPlan, reviews, orchestratorRunID);
        var done := false;
        if ensured {
          done, answers := RequiredAutomationReviewsDone(reviews);
        }
        open := !done;
        gate := done;
      }
      var rejected := if unfit.Some? then Some((PolicyDenied, unfit.value))
                      else if open then Some((Blocked, "automation_review_gate_open")) else refusal;
      id := CreateSubmitted(automation.id, planID, taskID, owner, orchestratorRunID, rejected);
    }

    method CreateSubmitted(automationID: string, planID: string, taskID: string, owner: string, orchestratorRunID: string,
                           rejected: Option<(Status, string)>)
      returns (id: RunID)
      requires Valid() && (rejected.Some? ==> rejected.value.0 in {PolicyDenied, Blocked})
      modifies `runs, `lastRun, `clock, `history
      ensures Valid() && Touches(0) && id !in old(runs) && id in runs && runs == old(runs)[id := runs[id]]
      ensures runs[id] == RunSubmitted(automationID, planID, taskID, owner, orchestratorRunID, rejected, clock)
    {
      var now := Now();
      if rejected.Some? {
        id := CreateRun(Run(automationID, planID, taskID, owner, "", rejected.value.0,
                            TaskUnknown, rejected.value.1, "", 0, 0, "", 0, 0, 0, 0, now, now, now));
      } else {
        id := CreateRun(Run(automationID, planID, taskID, owner, orchestratorRunID, Queued,
                            TaskUnknown, "", "", 0, 0, "", 0, 0, 0, 0, 0, now, now));
      }
    }

    /** What RunNow and ExecuteQueuedRun do to a run that an external runner shall execute: it waits under a summary of its own. */
    method MarkExternallyQueued(id: RunID) returns (run: Run)
      requires Valid() && id in runs && runs[id].status != Running && runs[id].status != Completed
      modifies `runs, `lastClaim, `clock, `history
      ensures Valid() && Touches(id) && lastClaim == old(lastClaim)
      ensures run == runs[id] && runs == old(runs)[id := run] && run == old(runs)[id].(safeSummary := EXTERNALLY_QUEUED, updatedAt := clock)
    {
      var now := Now();
      run := UpdateRun(id, Adjust, runs[id].(safeSummary := EXTERNALLY_QUEUED, updatedAt := now));
    }

    method ExecuteQueuedRun(id: RunID) returns (r: Result<Run, Refusal>)
      requires Valid()
      modifies `runs, `lastClaim, `clock, `history
      ensures Valid() && Touches(id) && lastClaim == old(lastClaim)
      ensures r.Ok? <==> id in old(runs)
      ensures r.Err? || old(runs)[id].status != Queued ==> runs == old(runs)
      ensures r.Ok? ==> r.value == runs[id]
      ensures r.Ok? && old(runs)[id].status == Queued ==>
                runs[id] == old(runs)[id].(safeSummary := EXTERNALLY_QUEUED, updatedAt := runs[id].updatedAt)
    {
      if id !in runs {
        return Err(NotFound);
      }
      if runs[id].status != Queued {
        return Ok(runs[id]);
      }
      var run := MarkExternallyQueued(id);
      return Ok(run);
    }

    /** Ends a run that has just been submitted, without a time of finishing. */
    method Conclude(id: RunID, status: Status, taskStatus: TaskStatus, summary: string, category: string)
      requires Valid() && id in runs && runs[id].status != Completed && status in {PolicyDenied, Failed}
      modifies `runs, `lastClaim, `clock, `history
      ensures Valid() && Touches(id) && lastClaim == old(lastClaim)
      ensures runs == old(runs)[id := old(runs)[id].(status := status, workTaskStatus := taskStatus,
                                                     safeSummary := summary, failureCategory := category, updatedAt := clock)]
    {
      var now := Now();
      var run := UpdateRun(id, Adjust, runs[id].(status := status, workTaskStatus := taskStatus, safeSummary := summary, failureCategory := category,
                                                 updatedAt := now));
    }

    /**
      * A run submitted to publish work that is already done: it is made a failed one that can be claimed for that, or
      * refused; when the work-task service refuses, nothing is written. `found` is the task as it reads, and `task` as
      * it is after the service has been told.
      */
    method PrepareExternalGitOpsPostTaskRecoveryRun(id: RunID) returns (ok: bool, ghost found: Option<Task>, ghost task: Option<Task>)
      requires Valid() && id in runs && runs[id].status !in {Running, Completed}
      modifies `runs, `lastClaim, `clock, `history, `requests
      ensures Valid() && Touches(id) && lastClaim == old(lastClaim)
      ensures ReadiedForPublication(old(runs)[id], runs[id], id, found, task, ok)
      ensures if old(runs)[id].taskID == "" || found.None? || !found.value.closeoutEvidence then requests == old(requests)
              else if canUpdateTasks then requests == old(requests) + [Request(found.value.id, found.value.status, task)]
              else requests == old(requests) && task == found
    {
      ok, found, task := true, None, None;
      var run := runs[id];
      if run.taskID == "" {
        Conclude(id, PolicyDenied, run.workTaskStatus, run.safeSummary, "work_task_api_unavailable");
        return;
      }
      var answer := GetWorkTask(run.taskID);
      found := answer;
      if answer.None? || !answer.value.closeoutEvidence {
        Conclude(id, PolicyDenied, run.workTaskStatus, run.safeSummary, "gitops_recovery_closeout_missing");
        return;
      }
      var current := answer;
      if canUpdateTasks {
        current := ChangeWorkTask(answer.value, answer.value.status);
      }
      task := current;
      if current.None? {
        return false, found, task;
      }
      if !OwnsRecovery(current.value, id, run.(safeSummary := GITOPS_POST_TASK_RECOVERY)) {
        Conclude(id, PolicyDenied, run.workTaskStatus, GITOPS_POST_TASK_RECOVERY, "gitops_recovery_run_not_attached");
        return;
      }
      Conclude(id, Failed, current.value.status, GITOPS_POST_TASK_RECOVERY, "gitops_post_task_failed");
    }

    /** Submits a run and readies it for an external runner; whatever comes of it, it has made no attempt. */
    method RunNow(automation: Automation, automationPlan: string, planID: string, taskID: string, owner: string, orchestratorRunID: string,
                  unfit: Option<string>, reviews: seq<string>, refusal: Option<(Status, string)>, recoversGitOps: bool)
      returns (id: RunID, ok: bool, ghost gate: bool, ghost submitted: Run, ghost found: Option<Task>, ghost task: Option<Task>)
      requires Valid() && (refusal.Some? ==> refusal.value.0 in {PolicyDenied, Blocked})
      modifies `runs, `lastRun, `lastClaim, `clock, `history, `requests
      ensures Valid() && Touches(0) && lastClaim == old(lastClaim)
      ensures id !in old(runs) && id in runs && Unclaimed(runs[id])
      ensures submitted == RunSubmitted(automation.id, planID, taskID, owner, orchestratorRunID, Rejection(unfit, gate, refusal), submitted.createdAt)
      ensures reviews == [] ==> gate
      ensures if recoversGitOps then ReadiedForPublication(submitted, runs[id], id, found, task, ok)
              else ok && runs[id] == submitted.(safeSummary := EXTERNALLY_QUEUED, updatedAt := runs[id].updatedAt)
    {
      found, task := None, None;
      ghost var ready, answers;
      id, gate, ready, answers := SubmitRun(automation, automationPlan, planID, taskID, owner, orchestratorRunID, unfit, reviews, refusal);
      submitted := runs[id];
      if recoversGitOps {
        ok, found, task := PrepareExternalGitOpsPostTaskRecoveryRun(id);
      } else {
        var run := MarkExternallyQueued(id);
        ok := true;
      }
    }

    // -------------------------------------------------------------- replacement runs

    /** The runs of an automation, and of a plan if one is named, in some order. */
    method ListRuns(automationID: string, planID: string) returns (ids: seq<RunID>)
      ensures forall id :: id in ids <==> id in runs && runs[id].automationID == automationID && (planID == "" || runs[id].planID == planID)
      ensures forall i, j :: 0 <= i < j < |ids| ==> ids[i] != ids[j]
    {
      ids := [];
      var left := runs.Keys;
      while left != {}
        invariant left <= runs.Keys
        invariant forall id :: id in ids <==> id in runs && id !in left && runs[id].automationID == automationID && (planID == "" || runs[id].planID == planID)
        invariant forall i, j :: 0 <= i < j < |ids| ==> ids[i] != ids[j]
        decreases |left|
      {
        var id :| id in left;
        left := left - {id};
        if runs[id].automationID == automationID && (planID == "" || runs[id].planID == planID) {
          ids := ids + [id];
        }
      }
    }

    method CountFailures(existing: seq<RunID>, automation: Automation, task: Task) returns (count: nat)
      requires forall id :: id in existing ==> id in runs && (Concerns(runs[id], automation, task) <==> runs[id].taskID == task.id)
      requires forall id :: id in runs && Concerns(runs[id], automation, task) ==> id in existing
      requires forall i, j :: 0 <= i < j < |existing| ==> existing[i] != existing[j]
      ensures count == |Failures(runs, automation, task)|
    {
      count := 0;
      ghost var all := Failures(runs, automation, task);
      ghost var counted: set<RunID> := {};
      for k := 0 to |existing|
        invariant counted <= all && count == |counted|
        invariant forall i :: 0 <= i < |existing| ==> (existing[i] in counted <==> i < k && existing[i] in all)
      {
        var id := existing[k];
        if runs[id].taskID == task.id && CountsAsFailure(runs[id], task) {
          count := count + 1;
          counted := counted + {id};
        }
      }
      forall id | id in all ensures id in counted {
        assert id in existing;
      }
      assert counted == all;
    }

    method HasOtherActive(existing: seq<RunID>, automation: Automation, task: Task) returns (found: bool)
      requires forall id :: id in existing ==> id in runs && (Concerns(runs[id], automation, task) <==> runs[id].taskID == task.id)
      ensures found <==> exists id :: id in existing && Concerns(runs[id], automation, task) && Active(runs[id]) && !IsReplacement(runs[id])
    {
      for k := 0 to |existing|
        invariant forall i :: 0 <= i < k ==> !(Concerns(runs[existing[i]], automation, task) && Active(runs[existing[i]]) && !IsReplacement(runs[existing[i]]))
      {
        var run := runs[existing[k]];
        if run.taskID == task.id && Active(run) && !IsReplacement(run) {
          return true;
        }
      }
      return false;
    }

    method HasIrreplaceable(existing: seq<RunID>, automation: Automation, task: Task) returns (found: bool)
      requires forall id :: id in existing ==> id in runs && (Concerns(runs[id], automation, task) <==> runs[id].taskID == task.id)
      ensures found <==> exists id :: id in existing && Concerns(runs[id], automation, task) && !Replaceable(runs[id], automation, task)
    {
      for k := 0 to |existing|
        invariant forall i :: 0 <= i < k ==> !(Concerns(runs[existing[i]], automation, task) && !Replaceable(runs[existing[i]], automation, task))
      {
        var run := runs[existing[k]];
        if run.taskID != task.id {
          continue;
        }
        if !Replaceable(run, automation, task) {
          return true;
        }
      }
      return false;
    }

    /**
      * What to do about a ready task; `task` is the task after its scope may have been widened, which is tried only for
      * one that has failed too often. `ok` is false when that is refused.
      */
    method DecideReplacement(automation: Automation, ready: Task) returns (ok: bool, decision: Decision, task: Task)
      modifies `requests
      ensures task.id == ready.id && task.planID == ready.planID
      ensures if ok then decision == Replacement.Decide(runs, automation, task) else decision == Leave
      ensures if |requests| == |old(requests)| then requests == old(requests) && ok && task == ready
              else && Replacement.Decide(runs, automation, ready) != QueueRun
                   && requests == old(requests) + [Request(ready.id, ready.status, if ok then Some(task) else None)]
      ensures ok <==> LastGranted(old(requests), requests)
    {
      ok, decision, task := true, Leave, ready;
      var existing := ListRuns(automation.id, ready.planID);
      var other := HasOtherActive(existing, automation, ready);
      if other {
        return;
      }
      var failures := CountFailures(existing, automation, ready);
      ok, task := WidenScope(ready, failures);
      if !ok {
        return;
      }
      failures := CountFailures(existing, automation, task);
      if failures >= MAX_REPLACEMENT_RUNS {
        decision := BlockTask;
        return;
      }
      var irreplaceable := HasIrreplaceable(existing, automation, task);
      decision := if irreplaceable then Leave else QueueRun;
    }

    /** The scope of a task that has failed too often is widened, if widening it would cover what was in its way. */
    method WidenScope(ready: Task, failures: nat) returns (ok: bool, task: Task)
      modifies `requests
      ensures task.id == ready.id && task.planID == ready.planID
      ensures if |requests| == |old(requests)| then requests == old(requests) && ok && task == ready
              else && failures >= MAX_REPLACEMENT_RUNS
                   && requests == old(requests) + [Request(ready.id, ready.status, if ok then Some(task) else None)]
      ensures ok <==> LastGranted(old(requests), requests)
    {
      ok, task := true, ready;
      if ready.status == TaskReady && !ready.systemFixMarker && failures >= MAX_REPLACEMENT_RUNS {
        var covered := Choose();
        if covered {
          var expanded := ExpandWorkTaskScope(ready);
          ok := expanded.Some?;
          if ok {
            task := expanded.value;
          }
        }
      }
    }

    /**
      * Gives a ready task a new run, blocks it, or leaves it, as `Replacement.Decide` says. `ok` is false exactly when the
      * work-task service refuses what it is asked last; no run is stored then. Afterwards none is called for any more.
      */
    method QueueReadyDependentAutomation(automation: Automation, ready: Task)
      returns (ok: bool, decision: Decision, task: Task, newID: RunID)
      requires Valid()
      modifies `runs, `lastRun, `clock, `history, `requests
      ensures Valid() && Touches(0) && Grows(old(runs), runs)
      ensures task.id == ready.id && task.planID == ready.planID
      ensures ok ==> decision == Replacement.Decide(old(runs), automation, task)
      ensures ok <==> LastGranted(old(requests), requests)
      ensures decision == BlockTask ==> AskedFor(old(requests), requests, task.id, TaskBlocked, ok)
      ensures decision != QueueRun ==> runs == old(runs)
      ensures decision == QueueRun ==>
                && ok && newID !in old(runs) && newID in runs && runs == old(runs)[newID := runs[newID]]
                && runs[newID] == QueuedRun(automation, task.planID, task, "dependency-ready:" + task.planID + ":" + task.id + ":" + automation.id,
                                            REQUEUED, runs[newID].createdAt)
      ensures ok ==> Replacement.Decide(runs, automation, ready) != QueueRun
    {
      newID := 0;
      ok, decision, task := DecideReplacement(automation, ready);
      if ok {
        ghost var asked := requests;
        ok, newID := FollowDecision(automation, task, decision);
        if decision == BlockTask { StillAsked(old(requests), asked, requests, task.id, TaskBlocked, ok); }
        if decision == QueueRun { NewIsServed(runs, automation, ready, newID); }
      }
    }

    /** The task is blocked, or gets a new run, or is left as it is. */
    method FollowDecision(automation: Automation, task: Task, decision: Decision) returns (ok: bool, newID: RunID)
      requires Valid()
      modifies `runs, `lastRun, `clock, `history, `requests
      ensures Valid() && Touches(0)
      ensures if decision == BlockTask
              then AskedFor(old(requests), requests, task.id, TaskBlocked, ok) && |requests| > |old(requests)| && (ok <==> LastGranted(old(requests), requests))
              else ok && requests == old(requests)
      ensures if decision == QueueRun
              then && newID !in old(runs) && newID in runs && runs == old(runs)[newID := runs[newID]]
                   && runs[newID] == QueuedRun(automation, task.planID, task, "dependency-ready:" + task.planID + ":" + task.id + ":" + automation.id,
                                               REQUEUED, runs[newID].createdAt)
              else runs == old(runs)
    {
      ok, newID := true, 0;
      if decision == BlockTask {
        var blocked := ChangeWorkTask(task, TaskBlocked);
        Asks(old(requests), requests, Request(task.id, TaskBlocked, blocked));
        ok := blocked.Some?;
      } else if decision == QueueRun {
        newID := CreateQueued(automation, task.planID, task, "dependency-ready:" + task.planID + ":" + task.id + ":" + automation.id, REQUEUED);
      }
    }

    /** The enabled automations with the ready tasks that they may run, in any order. */
    method ListReady() returns (pairs: seq<(Automation, Task)>) {
      pairs := *;
    }

    /**
      * Looks at automations and ready tasks; runs that exist already stay as they are. Unless the work-task service
      * refuses in between, no new run is called for any more.
      */
    method QueueReplacements(pairs: seq<(Automation, Task)>) returns (ok: bool)
      requires Valid()
      modifies `runs, `lastRun, `clock, `history, `requests
      ensures Valid() && Touches(0) && Grows(old(runs), runs)
      ensures if ok then NoneIsCalledFor(runs, pairs) else !LastGranted(old(requests), requests)
    {
      for k := 0 to |pairs|
        invariant Valid() && Touches(0) && Grows(old(runs), runs)
        invariant NoneIsCalledFor(runs, pairs[..k])
      {
        ghost var was := runs;
        var decision, task, newID;
        ok, decision, task, newID := QueueReadyDependentAutomation(pairs[k].0, pairs[k].1);
        if !ok {
          return;
        }
        OneMoreIsServed(was, runs, pairs, k);
      }
      assert pairs[..|pairs|] == pairs;
      ok := true;
    }

    // ------------------------------------------------------------------ reconciling

    /** The task is made ready, and its automation, if that is still enabled, may give it a new run. */
    method MakeReadyAgain(task: Task) returns (ok: bool, ghost ready: Option<Task>, ghost automation: Option<Automation>)
      requires Valid()
      modifies `runs, `lastRun, `clock, `history, `requests
      ensures Valid() && Touches(0) && AskedFor(old(requests), requests, task.id, TaskReady, ready.Some?)
      ensures ready.None? ==> !ok && runs == old(runs)
      ensures ok && automation.Some? ==> Replacement.Decide(runs, automation.value, ready.value) != QueueRun
      ensures ok || !LastGranted(old(requests), requests)
    {
      var answer := ChangeWorkTask(task, TaskReady);
      ready, automation, ok := answer, None, false;
      if answer.Some? {
        ok, automation := QueueAgain(answer.value);
      }
      Asks(old(requests), requests, Request(task.id, TaskReady, ready));
    }

    /** The automation of a run, None if it is not to run by itself any more. */
    method EnabledAutomation() returns (automation: Option<Automation>) {
      automation := *;
    }

    /** A task that has just been made ready is seen to by its automation, if that is still enabled. */
    method QueueAgain(ready: Task) returns (ok: bool, ghost automation: Option<Automation>)
      requires Valid()
      modifies `runs, `lastRun, `clock, `history, `requests
      ensures Valid() && Touches(0) && Grows(old(runs), runs)
      ensures automation.None? ==> runs == old(runs) && requests == old(requests)
      ensures ok && automation.Some? ==> Replacement.Decide(runs, automation.value, ready) != QueueRun
      ensures ok || !LastGranted(old(requests), requests)
    {
      ok := true;
      var enabled := EnabledAutomation();
      automation := enabled;
      if enabled.Some? {
        var decision, task, newID;
        ok, decision, task, newID := QueueReadyDependentAutomation(enabled.value, ready);
      }
    }

    /** The run has handed its task back, but the task has not stayed ready for another. */
    predicate LeftStale(run: Run, id: RunID, seen: Option<Task>) {
      && canUpdateTasks && run.status == Failed && run.taskID != "" && run.workTaskStatus == TaskReady && HandedBack(run.failureCategory)
      && Owns(seen, id) && seen.value.status !in {TaskReady, TaskDone} && !TerminalTask(seen.value.status)
    }

    /** Such a task is made ready again; the run stays as it is. */
    method RepairStaleReadyTask(id: RunID) returns (ok: bool, ghost seen: Option<Task>)
      requires Valid() && id in runs
      modifies `runs, `lastRun, `clock, `history, `requests
      ensures Valid() && Touches(0)
      ensures if LeftStale(old(runs)[id], id, seen) then Asked(old(requests), requests, seen.value.id, TaskReady)
              else ok && runs == old(runs) && requests == old(requests)
      ensures ok || !LastGranted(old(requests), requests)
    {
      ok, seen := true, None;
      var run := runs[id];
      if !canUpdateTasks || run.status != Failed || run.taskID == "" || run.workTaskStatus != TaskReady || !HandedBack(run.failureCategory) {
        return;
      }
      var task := GetWorkTask(run.taskID);
      seen := task;
      if task.None? || task.value.claimedByRunID != id || task.value.status == TaskReady
         || task.value.status == TaskDone || TerminalTask(task.value.status) {
        return;
      }
      ghost var ready, automation;
      ok, ready, automation := MakeReadyAgain(task.value);
    }

    /**
      * A verifying run follows its task: to completion, to an end, back to recovery, or nowhere yet. `look` is what the
      * work-task service answers; `ok` is false when it refuses to complete the task.
      */
    method ReconcileVerifyingRun(id: RunID) returns (ok: bool, ghost look: Look)
      requires Valid() && id in runs
      modifies `runs, `lastRun, `lastClaim, `clock, `history, `requests
      ensures Valid() && Touches(id) && lastClaim == old(lastClaim)
      ensures FollowsVerification(old(runs)[id], runs[id], look)
      ensures ok <==> !Stalls(old(runs)[id], look)
      ensures ok || !LastGranted(old(requests), requests)
    {
      ok, look := true, Look(None, None);
      var run := runs[id];
      if run.status != Verifying || run.taskID == "" {
        return;
      }
      var answer := GetWorkTask(run.taskID);
      look := Look(answer, None);
      if answer.None? {
        return;
      }
      var task := answer.value;
      if task.status == TaskDone {
        ghost var pairs, served;
        run, pairs, served := CompleteRunAfterTaskDone(id, task);
      } else if TerminalTask(task.status) {
        run := FinishRunAfterTaskTerminal(id, task);
      } else if run.failureCategory == "" && AdvancedTask(task.status) && task.needsGitOpsRecovery {
        MarkRunForGitOpsPostTaskRecovery(id, task);
      } else if !(AdvancedTask(task.status) && task.readyForCloseout) {
        run := SyncTaskStatus(id, task);
      } else {
        ghost var completed;
        ok, completed := CloseOut(id, task);
        look := Look(answer, completed);
      }
    }

    /** The task is ready to be closed: it is completed, if the work-task service lets it, and the run with it. */
    method CloseOut(id: RunID, task: Task) returns (ok: bool, ghost completed: Option<Task>)
      requires Valid() && id in runs && runs[id].status != Completed
      modifies `runs, `lastRun, `lastClaim, `clock, `history, `requests
      ensures Valid() && Touches(id) && lastClaim == old(lastClaim) && ok == completed.Some?
      ensures if ok then Finishes(old(runs)[id], runs[id], runs[id].updatedAt) else runs == old(runs)
      ensures ok || !LastGranted(old(requests), requests)
    {
      var answer := CompleteWorkTask(task);
      completed, ok := answer, answer.Some?;
      if ok {
        ghost var pairs, served;
        var run;
        run, pairs, served := CompleteRunAfterTaskDone(id, answer.value);
      }
    }

    method MarkRunForGitOpsPostTaskRecovery(id: RunID, task: Task)
      requires Valid() && id in runs && runs[id].status != Completed
      modifies `runs, `lastClaim, `clock, `history
      ensures Valid() && Touches(id) && lastClaim == old(lastClaim)
      ensures AwaitsPublication(old(runs)[id], runs[id], task)
    {
      var now := Now();
      var run := runs[id];
      run := UpdateRun(id, Adjust, run.(status := Failed, workTaskStatus := task.status, safeSummary := GITOPS_POST_TASK_RECOVERY,
                                        failureCategory := "gitops_post_task_failed", finishedAt := FinishedBy(run, now), updatedAt := now));
    }

    /** The task has moved on to verification: the run follows it, and is looked at again at once. */
    method MoveToVerifying(id: RunID, task: Task, summary: string) returns (ok: bool, ghost moved: Run, ghost look: Look)
      requires Valid() && id in runs && runs[id].status != Completed
      modifies `runs, `lastRun, `lastClaim, `clock, `history, `requests
      ensures Valid() && Touches(id) && lastClaim == old(lastClaim)
      ensures MovesOn(old(runs)[id], moved, task, summary) && FollowsVerification(moved, runs[id], look)
      ensures ok <==> !Stalls(moved, look)
      ensures ok || !LastGranted(old(requests), requests)
    {
      var now := Now();
      var run := runs[id];
      run := UpdateRun(id, Adjust, run.(status := Verifying, workTaskStatus := task.status, safeSummary := summary, failureCategory := "",
                                        finishedAt := FinishedBy(run, now), updatedAt := now));
      moved := run;
      ok, look := ReconcileVerifyingRun(id);
    }

    /** `seen` is the run as it was read at some time in the past. */
    ghost predicate WasRead(id: RunID, seen: Run)
      reads `history
    {
      exists n :: 0 <= n <= |history| && id in After(history[..n]).runs && After(history[..n]).runs[id] == seen
    }

    lemma ReadNow(id: RunID)
      requires Valid() && id in runs
      ensures WasRead(id, runs[id])
    {
      assert history[..|history|] == history;
    }

    /** What has been read of a run stays behind what is stored. */
    lemma ReadBefore(id: RunID, seen: Run)
      requires Valid() && WasRead(id, seen)
      ensures id in runs && Ages(seen, runs[id]) && RunOk(agents, View(), runs[id])
      ensures seen.claimedAt <= seen.updatedAt && 0 < seen.updatedAt
    {
      var n :| 0 <= n <= |history| && id in After(history[..n]).runs && After(history[..n]).runs[id] == seen;
      RunAges(agents, history, n, id);
      PrefixIsWellFormed(agents, history, n);
      HistoryKeeps(agents, history[..n]);
      assert RunOk(agents, After(history[..n]), seen);
      StoredRunIsOk(id);
    }

    method WriteInterrupt(id: RunID, task: Task, seenAt: Time)
      requires Valid() && id in runs && runs[id].status in {Claiming, Starting, Running}
      requires runs[id].claimedAt <= seenAt <= runs[id].updatedAt
      requires LeaseExpired(runs[id], clock) || StartedBeforeService(runs[id].(updatedAt := seenAt), serviceStart)
      modifies `runs, `lastClaim, `clock, `history
      ensures Valid() && Touches(id) && lastClaim == old(lastClaim)
      ensures Interrupts(serviceStart, old(runs)[id], runs[id], runs[id].updatedAt, seenAt)
    {
      var now := Now();
      var current := runs[id];
      var next := current.(status := Timeout, workTaskStatus := task.status, safeSummary := "external_codex_cli_abandoned_after_restart",
                           failureCategory := INTERRUPTED, finishedAt := FinishedBy(current, now), updatedAt := now);
      var run := UpdateRun(id, Interrupt(seenAt), next);
    }

    method GiveUp(id: RunID, task: Task, seenAt: Time)
      requires Valid() && id in runs && runs[id].status in {Claiming, Starting, Running}
      requires runs[id].claimedAt <= seenAt <= runs[id].updatedAt
      requires LeaseExpired(runs[id], clock) || StartedBeforeService(runs[id].(updatedAt := seenAt), serviceStart)
      modifies `runs, `lastRun, `lastClaim, `clock, `history, `requests
      ensures Valid() && Touches(id) && lastClaim == old(lastClaim)
      ensures Interrupts(serviceStart, old(runs)[id], runs[id], runs[id].updatedAt, seenAt) && Asked(old(requests), requests, task.id, TaskReady)
    {
      WriteInterrupt(id, task, seenAt);
      var queued;
      ghost var ready, automation;
      queued, ready, automation := MakeReadyAgain(task);
      AskedAtAll(old(requests), requests, task.id, TaskReady, ready.Some?);
    }

    /**
      * Gives up a run that was read as `seen`, with its lease over or last written before the service started. Nothing
      * is written unless the run still has the status, claim, runner and lease it was read with; then its task is to
      * be made ready.
      */
    method RequeueAbandonedRunningRun(id: RunID, seen: Run, task: Task)
      requires Valid() && id in runs && WasRead(id, seen)
      requires LeaseExpired(seen, clock) || StartedBeforeService(seen, serviceStart)
      modifies `runs, `lastRun, `lastClaim, `clock, `history, `requests
      ensures Valid() && Touches(id) && lastClaim == old(lastClaim)
      ensures var was := old(runs)[id];
              if canUpdateTasks && was.status == seen.status && was.claimID == seen.claimID && was.runnerID == seen.runnerID
                 && was.leaseExpiresAt == seen.leaseExpiresAt && was.status in {Claiming, Starting, Running}
              then Interrupts(serviceStart, was, runs[id], runs[id].updatedAt, seen.updatedAt)
                   && Asked(old(requests), requests, task.id, TaskReady)
              else runs == old(runs) && requests == old(requests)
    {
      if !canUpdateTasks {
        return;
      }
      var current := runs[id];
      if current.status != seen.status || current.claimID != seen.claimID || current.runnerID != seen.runnerID
         || current.leaseExpiresAt != seen.leaseExpiresAt {
        return;
      }
      if current.status != Claiming && current.status != Starting && current.status != Running {
        return;
      }
      ReadBefore(id, seen);
      GiveUp(id, task, seen.updatedAt);
    }

    /** A running run whose task is neither open nor ended, or whose lease is not over. */
    method FollowRunningTask(id: RunID, task: Task) returns (ok: bool, ghost c: Course)
      requires Valid() && id in runs && runs[id].status == Running
      modifies `runs, `lastRun, `lastClaim, `clock, `history, `requests
      ensures Valid() && Touches(id) && lastClaim == old(lastClaim)
      ensures FollowsRunning(old(runs)[id], runs[id], task, c, ok) && old(clock) <= c.now <= clock
      ensures ok || !LastGranted(old(requests), requests)
    {
      ok := true;
      var run := runs[id];
      c := Course(clock, clock, run, Look(None, None));
      if !AdvancedTask(task.status) {
        run := SyncTaskStatus(id, task);
        return;
      }
      if !task.unremediatedFinding {
        ghost var moved, look;
        ok, moved, look := MoveToVerifying(id, task, VERIFICATION_REQUIRED);
        c := c.(moved := moved, look := look);
        return;
      }
      var now := Now();
      c := c.(now := now);
      if run.claimID != 0 && run.leaseExpiresAt != 0 && now < run.leaseExpiresAt {
        run := SyncTaskStatus(id, task);
        return;
      }
      ok := FailRunningAuditWithoutRemediation(id, task);
    }

    /** An audit that confirmed a finding without handing over its remediation fails, once its task could be failed. */
    method FailRunningAuditWithoutRemediation(id: RunID, task: Task) returns (ok: bool)
      requires Valid() && id in runs && runs[id].status == Running
      modifies `runs, `lastClaim, `clock, `history, `requests
      ensures Valid() && Touches(id) && lastClaim == old(lastClaim)
      ensures AskedFor(old(requests), requests, task.id, TaskFailed, ok)
      ensures if ok then AuditFails(old(runs)[id], runs[id]) else runs == old(runs)
      ensures ok || !LastGranted(old(requests), requests)
    {
      var failed := ChangeWorkTask(task, TaskFailed);
      Asks(old(requests), requests, Request(task.id, TaskFailed, failed));
      if failed.None? {
        return false;
      }
      var now := Now();
      var run := UpdateRun(id, Adjust, runs[id].(status := Failed, workTaskStatus := TaskFailed,
                                                 failureCategory := "confirmed_finding_remediation_missing", finishedAt := now, updatedAt := now));
      ok := true;
    }

    /**
      * An active run follows its task. It is given up only if its lease is over, or if it was last written before the
      * service started.
      */
    method ReconcileRunningRun(id: RunID) returns (ok: bool, ghost seen: Option<Task>, ghost c: Course)
      requires Valid() && id in runs
      modifies `runs, `lastRun, `lastClaim, `clock, `history, `requests
      ensures Valid() && Touches(id) && lastClaim == old(lastClaim)
      ensures FollowsActive(old(runs)[id], runs[id], seen, c, ok, serviceStart, canUpdateTasks)
      ensures old(clock) <= c.began <= clock && old(clock) <= c.now <= clock
      ensures ok || !LastGranted(old(requests), requests)
    {
      ok := true;
      var run := runs[id];
      seen, c := None, Course(clock, clock, run, Look(None, None));
      if run.taskID == "" || (run.status != Claiming && run.status != Starting && run.status != Running) {
        return;
      }
      var answer := GetWorkTask(run.taskID);
      seen := answer;
      if answer.None? {
        return;
      }
      var task := answer.value;
      if task.status == TaskDone {
        ghost var pairs, served;
        run, pairs, served := CompleteRunAfterTaskDone(id, task);
        return;
      }
      if TerminalTask(task.status) {
        run := FinishRunAfterTaskTerminal(id, task);
        return;
      }
      ok, c := FollowUnfinishedTask(id, task);
    }

    /** The task is neither done nor at an end: the run is given up, follows it, or goes on. */
    method FollowUnfinishedTask(id: RunID, task: Task) returns (ok: bool, ghost c: Course)
      requires Valid() && id in runs && runs[id].status in {Claiming, Starting, Running}
      modifies `runs, `lastRun, `lastClaim, `clock, `history, `requests
      ensures Valid() && Touches(id) && lastClaim == old(lastClaim)
      ensures FollowsUnfinished(old(runs)[id], runs[id], task, c, ok, serviceStart, canUpdateTasks)
      ensures old(clock) <= c.began <= clock && old(clock) <= c.now <= clock
      ensures ok || !LastGranted(old(requests), requests)
    {
      ok := true;
      var run := runs[id];
      var now := Now();
      c := Course(now, now, run, Look(None, None));
      if OpenTask(task.status) && (LeaseExpired(run, now) || StartedBeforeService(run, serviceStart)) {
        ReadNow(id);
        RequeueAbandonedRunningRun(id, run, task);
      } else if run.status == Running {
        ok, c := FollowRunningTask(id, task);
        c := c.(began := now);
      } else if AdvancedTask(task.status) {
        ghost var moved, look;
        ok, moved, look := MoveToVerifying(id, task, VERIFICATION_REQUIRED);
        c := c.(moved := moved, look := look);
      }
    }

    /** An interrupted run, or one that failed before execution, whose task got further all the same. */
    method ReconcileProgressedRun(id: RunID) returns (ok: bool, ghost seen: Option<Task>, ghost c: Course)
      requires Valid() && id in runs
      modifies `runs, `lastRun, `lastClaim, `clock, `history, `requests
      ensures Valid() && Touches(id) && lastClaim == old(lastClaim)
      ensures FollowsProgress(old(runs)[id], runs[id], id, seen, c, ok)
      ensures ok || !LastGranted(old(requests), requests)
    {
      ok := true;
      var run := runs[id];
      seen, c := None, Course(clock, clock, run, Look(None, None));
      var interrupted := run.status == Timeout;
      if !CanHaveProgressed(run) || run.taskID == "" {
        return;
      }
      var answer := GetWorkTask(run.taskID);
      seen := answer;
      if answer.None? || answer.value.claimedByRunID != id {
        return;
      }
      var task := answer.value;
      if task.status == TaskDone {
        ghost var pairs, served;
        run, pairs, served := CompleteRunAfterTaskDone(id, task);
      } else if TerminalTask(task.status) {
        run := FinishRunAfterTaskTerminal(id, task);
      } else if AdvancedTask(task.status) {
        ghost var moved, look;
        ok, moved, look := MoveToVerifying(id, task, if interrupted then "external_runner_timeout_task_progressed_verification_required"
                                                     else "pre_execution_recovery_progressed_task_verifying");
        c := c.(moved := moved, look := look);
      }
    }

    /** A run whose publication cannot be retried any more hands its task back for a fresh implementation. */
    method ReconcileExhaustedGitOpsRun(id: RunID) returns (ok: bool, ghost seen: Option<Task>, ghost way: HandBack)
      requires Valid() && id in runs
      modifies `runs, `lastRun, `lastClaim, `clock, `history, `requests
      ensures Valid() && Touches(id) && lastClaim == old(lastClaim)
      ensures var was := old(runs)[id];
              if !PublicationExhausted(agents, was, id, seen) then ok && runs == old(runs)
              else if ok then PublicationHandedBack(was, runs[id], was.failureCategory, way) && way != OutOfScope
              else runs == old(runs)
      ensures ok || !LastGranted(old(requests), requests)
    {
      ok, seen, way := true, None, NotAsked;
      var run := runs[id];
      if run.status != Failed || !RecoverableGitOps(run.failureCategory) || CanRetry(agents, run) || run.safeSummary != GITOPS_POST_TASK_RECOVERY {
        return;
      }
      var answer := GetWorkTask(run.taskID);
      seen := answer;
      if answer.None? || !answer.value.closeoutEvidence || !OwnsRecovery(answer.value, id, run) {
        return;
      }
      StoredRunIsOk(id);
      ghost var found, outside;
      ok, found, outside := RequeueTaskAfterGitOpsRecoveryFailure(id, run, Adjust, run.failureCategory, false);
      way := WayBack(canUpdateTasks, run, found, run.failureCategory, false, outside);
    }

    /** So does a run whose preparation cannot be retried any more. */
    method ReconcileExhaustedPreExecutionRun(id: RunID) returns (ok: bool, ghost seen: Option<Task>, ghost way: HandBack)
      requires Valid() && id in runs
      modifies `runs, `lastRun, `lastClaim, `clock, `history, `requests
      ensures Valid() && Touches(id) && lastClaim == old(lastClaim)
      ensures var was := old(runs)[id];
              if !PreparationExhausted(agents, was, id, seen) then ok && runs == old(runs)
              else if ok then PreparationHandedBack(was, runs[id], was.failureCategory, way)
              else runs == old(runs)
      ensures ok || !LastGranted(old(requests), requests)
    {
      ok, seen, way := true, None, NotAsked;
      var run := runs[id];
      if (run.status != Failed && run.status != Blocked) || !RecoverablePreExecution(run.failureCategory) || CanRetry(agents, run) {
        return;
      }
      var answer := GetWorkTask(run.taskID);
      seen := answer;
      if answer.None? || answer.value.claimedByRunID != id || !OpenTask(answer.value.status) {
        return;
      }
      var dirty := Choose();
      ghost var found, outside;
      ok, found, outside := RequeueTaskAfterPreExecutionRecoveryFailure(id, run.failureCategory, dirty);
      way := WayBack(canUpdateTasks, run, found, run.failureCategory, dirty, outside);
    }

    // ------------------------------------------------------------------- handing a task back

    /** What a run looks like that ends as failed at time `now`. */
    function FailedRun(run: Run, taskStatus: TaskStatus, category: string, summary: string, finishedAt: Time, now: Time): Run {
      run.(status := Failed, workTaskStatus := taskStatus, failureCategory := category, safeSummary := summary,
           finishedAt := finishedAt, updatedAt := now)
    }

    method EndFailed(id: RunID, run: Run, kind: Kind, taskStatus: TaskStatus, category: string, summary: string, finish: bool)
      requires Valid() && id in runs && Underway(runs[id], run, kind) && run.updatedAt <= clock
      modifies `runs, `lastClaim, `clock, `history
      ensures Valid() && Touches(id) && lastClaim == old(lastClaim) && SameClaim(runs[id], old(runs)[id])
      ensures runs == old(runs)[id := runs[id]]
      ensures runs[id] == FailedRun(run, taskStatus, category, summary, if finish then FinishedBy(run, clock) else run.finishedAt, clock)
    {
      var now := Now();
      var next := FailedRun(run, taskStatus, category, summary, if finish then FinishedBy(run, now) else run.finishedAt, now);
      WriteOutcome(id, run, kind, next);
    }

    /** Paths outside the task's scope are dirty: the task is blocked, and the run fails for want of a new plan. */
    method BlockTaskAfterOutOfScopeDirtyPaths(id: RunID, run: Run, kind: Kind, task: Task) returns (ok: bool)
      requires Valid() && id in runs && Underway(runs[id], run, kind) && run.updatedAt <= clock
      modifies `runs, `lastClaim, `clock, `history, `requests
      ensures Valid() && Touches(id) && lastClaim == old(lastClaim) && SameClaim(runs[id], old(runs)[id])
      ensures runs == old(runs)[id := runs[id]] && AskedFor(old(requests), requests, task.id, TaskBlocked, ok)
      ensures |requests| == |old(requests)| + 1
      ensures if ok then
                && requests[|old(requests)|].answer.Some?
                && runs[id] == FailedRun(run, requests[|old(requests)|].answer.value.status, REQUIRES_PLAN, BLOCKED_DIRTY_PATHS,
                                         FinishedBy(run, clock), clock)
              else runs == old(runs)
      ensures ok || !LastGranted(old(requests), requests)
    {
      var blocked := ChangeWorkTask(task, TaskBlocked);
      Asks(old(requests), requests, Request(task.id, TaskBlocked, blocked));
      if blocked.None? {
        return false;
      }
      EndFailed(id, run, kind, blocked.value.status, REQUIRES_PLAN, BLOCKED_DIRTY_PATHS, true);
      ok := true;
    }

    /** The task is given back for implementation, if the work-task service lets it; `run` ends as failed. */
    method ReturnTask(id: RunID, run: Run, kind: Kind, task: Task, category: string, summary: string)
      returns (ok: bool, ghost ready: Option<Task>, ghost automation: Option<Automation>, ghost served: bool)
      requires Valid() && id in runs && Underway(runs[id], run, kind) && run.updatedAt <= clock
      modifies `runs, `lastRun, `lastClaim, `clock, `history, `requests
      ensures Valid() && Touches(id) && lastClaim == old(lastClaim) && SameClaim(runs[id], old(runs)[id])
      ensures AskedFor(old(requests), requests, task.id, TaskReady, ok)
      ensures ok == ready.Some? && (ok || !LastGranted(old(requests), requests))
      ensures served ==> ok && (automation.Some? ==> Replacement.Decide(runs, automation.value, ready.value) != QueueRun)
      ensures ok && !served ==> !LastGranted(old(requests), requests)
      ensures if ok then run.updatedAt <= runs[id].updatedAt && FailsAs(run, runs[id], category, summary, true)
              else runs == old(runs)
    {
      var answer := ChangeWorkTask(task, TaskReady);
      ok, ready, automation, served := answer.Some?, answer, None, false;
      if ok {
        EndFailed(id, run, kind, answer.value.status, category, summary, true);
        var queued;
        queued, automation := QueueAgain(answer.value);
        served := queued;
      }
      Asks(old(requests), requests, Request(task.id, TaskReady, ready));
    }

    /**
      * A failed recovery of a run's publication. The failure stays as it is when the task cannot be changed or read;
      * nothing is written when the work-task service refuses. `found` is the task as it was read, and `outside` whether
      * dirty paths lie outside its scope.
      */
    method RequeueTaskAfterGitOpsRecoveryFailure(id: RunID, run: Run, kind: Kind, category: string, dirty: bool)
      returns (ok: bool, ghost found: Option<Task>, ghost outside: bool)
      requires Valid() && id in runs && Underway(runs[id], run, kind) && run.updatedAt <= clock
      modifies `runs, `lastRun, `lastClaim, `clock, `history, `requests
      ensures Valid() && Touches(id) && lastClaim == old(lastClaim) && SameClaim(runs[id], old(runs)[id])
      ensures var way := WayBack(canUpdateTasks, run, found, category, dirty, outside);
              && (if ok then PublicationHandedBack(run, runs[id], category, way) else runs == old(runs) && way in {OutOfScope, Returned})
              && (way == OutOfScope ==> AskedFor(old(requests), requests, found.value.id, TaskBlocked, ok))
              && (way == Returned ==> AskedFor(old(requests), requests, found.value.id, TaskReady, ok))
      ensures ok || !LastGranted(old(requests), requests)
    {
      found, outside := None, false;
      if !canUpdateTasks || run.taskID == "" {
        EndFailed(id, run, kind, run.workTaskStatus, category, REQUEUED_IMPLEMENTATION + "_after_" + category, false);
        return true, found, outside;
      }
      var answer := GetWorkTask(run.taskID);
      found := answer;
      if answer.None? {
        EndFailed(id, run, kind, run.workTaskStatus, category, REQUEUED_IMPLEMENTATION, false);
        return true, found, outside;
      }
      ok, outside := GiveBack(id, run, kind, answer.value, category, dirty);
    }

    /** The task has been read: it is blocked for dirty paths outside its scope, or given back, possibly with a wider scope. */
    method GiveBack(id: RunID, run: Run, kind: Kind, found: Task, category: string, dirty: bool) returns (ok: bool, ghost outside: bool)
      requires Valid() && id in runs && Underway(runs[id], run, kind) && run.updatedAt <= clock
      modifies `runs, `lastRun, `lastClaim, `clock, `history, `requests
      ensures Valid() && Touches(id) && lastClaim == old(lastClaim) && SameClaim(runs[id], old(runs)[id])
      ensures if category == DIRTY_SCOPE && dirty && outside then
                && AskedFor(old(requests), requests, found.id, TaskBlocked, ok)
                && if ok then PublicationHandedBack(run, runs[id], category, OutOfScope) else runs == old(runs)
              else
                && AskedFor(old(requests), requests, found.id, TaskReady, ok)
                && if ok then PublicationHandedBack(run, runs[id], category, Returned) else runs == old(runs)
      ensures ok || !LastGranted(old(requests), requests)
    {
      outside := false;
      var task := found;
      if category == DIRTY_SCOPE && dirty {
        var outOfScope := Choose();
        outside := outOfScope;
        if outOfScope {
          ok := BlockTaskAfterOutOfScopeDirtyPaths(id, run, kind, task);
          return;
        }
        var expandable := Choose();
        if expandable {
          var expanded := ExpandWorkTaskScope(task);
          if expanded.Some? {
            task := expanded.value;
          }
        }
      }
      ghost var asked := requests;
      ghost var ready, automation, served;
      ok, ready, automation, served := ReturnTask(id, run, kind, task, GITOPS_HANDED_BACK, REQUEUED_IMPLEMENTATION + "_after_" + category);
      StillAsked(old(requests), asked, requests, found.id, TaskReady, ok);
    }

    /** Dirty paths of a run that failed before execution: the task's scope is widened, or the task blocked and the run ended. */
    method ExpandOrBlockPreExecutionDirtyScope(id: RunID, found: Task, dirty: bool)
      returns (ok: bool, blocked: bool, task: Task, ghost outside: bool)
      requires Valid() && id in runs && runs[id].status in {Failed, Blocked}
      modifies `runs, `lastClaim, `clock, `history, `requests
      ensures Valid() && Touches(id) && lastClaim == old(lastClaim) && SameClaim(runs[id], old(runs)[id])
      ensures task.id == found.id
      ensures var was := old(runs)[id];
              if was.failureCategory == DIRTY_SCOPE && dirty && outside && canUpdateTasks then
                && blocked == ok && AskedFor(old(requests), requests, found.id, TaskBlocked, ok)
                && if ok then PreparationHandedBack(was, runs[id], was.failureCategory, OutOfScope) else runs == old(runs)
              else
                && !blocked && runs == old(runs)
                && if was.failureCategory != DIRTY_SCOPE || !dirty || outside || |requests| == |old(requests)|
                   then ok && task == found && requests == old(requests)
                   else requests == old(requests) + [Request(found.id, found.status, if ok then Some(task) else None)]
      ensures ok || !LastGranted(old(requests), requests)
    {
      ok, blocked, task, outside := true, false, found, false;
      if runs[id].failureCategory != DIRTY_SCOPE || !dirty {
        return;
      }
      var outOfScope := Choose();
      outside := outOfScope;
      if outOfScope {
        if canUpdateTasks {
          StoredRunIsOk(id);
          ok := BlockTaskAfterOutOfScopeDirtyPaths(id, runs[id], Adjust, task);
          blocked := ok;
        }
        return;
      }
      var expandable := Choose();
      if expandable {
        var expanded := ExpandWorkTaskScope(task);
        if expanded.None? {
          ok := false;
          return;
        }
        task := expanded.value;
      }
    }

    method RequeueTaskAfterPreExecutionRecoveryFailure(id: RunID, category: string, dirty: bool)
      returns (ok: bool, ghost found: Option<Task>, ghost outside: bool)
      requires Valid() && id in runs && runs[id].status in {Failed, Blocked} && category == runs[id].failureCategory
      modifies `runs, `lastRun, `lastClaim, `clock, `history, `requests
      ensures Valid() && Touches(id) && lastClaim == old(lastClaim) && SameClaim(runs[id], old(runs)[id])
      ensures var was := old(runs)[id];
              var way := WayBack(canUpdateTasks, was, found, category, dirty, outside);
              if ok then PreparationHandedBack(was, runs[id], category, way) else runs == old(runs) && way in {OutOfScope, Returned}
      ensures ok && WayBack(canUpdateTasks, old(runs)[id], found, category, dirty, outside) == OutOfScope ==>
                AskedFor(old(requests), requests, found.value.id, TaskBlocked, true)
      ensures ok && WayBack(canUpdateTasks, old(runs)[id], found, category, dirty, outside) == Returned ==>
                AskedFor(old(requests), requests, found.value.id, TaskReady, true)
      ensures ok || !LastGranted(old(requests), requests)
    {
      found, outside := None, false;
      StoredRunIsOk(id);
      var run, summary := runs[id], PRE_EXECUTION_REQUEUED + category;
      if !canUpdateTasks || run.taskID == "" {
        EndFailed(id, run, Adjust, run.workTaskStatus, PRE_EXECUTION_HANDED_BACK, summary, false);
        return true, found, outside;
      }
      var answer := GetWorkTask(run.taskID);
      found := answer;
      if answer.None? {
        EndFailed(id, run, Adjust, run.workTaskStatus, PRE_EXECUTION_HANDED_BACK, summary, false);
        return true, found, outside;
      }
      var blocked, task;
      ok, blocked, task, outside := ExpandOrBlockPreExecutionDirtyScope(id, answer.value, dirty);
      if !ok || blocked {
        return;
      }
      ghost var asked := requests;
      ghost var ready, automation, served;
      ok, ready, automation, served := ReturnTask(id, run, Adjust, task, PRE_EXECUTION_HANDED_BACK, summary);
      StillAsked(old(requests), asked, requests, task.id, TaskReady, ok);
    }

    // ------------------------------------------------------------------------ claiming

    /** The claim fields of a new claim at time `now`. */
    function NewClaim(run: Run, runner: string, now: Time): Run
      reads this
    {
      run.(status := Running, attemptCount := run.attemptCount + 1, startedAt := now,
           claimID := lastClaim + 1, runnerID := runner, claimedAt := now, lastHeartbeatAt := now,
           leaseExpiresAt := now + LEASE_TTL, updatedAt := now)
    }

    /** What the caller of a claim operation gets: one more attempt under a fresh claim, with a lease from now on. */
    twostate predicate Leased(id: RunID, runner: string)
      requires id in old(runs) && id in runs
      reads this
    {
      var was, run := old(runs)[id], runs[id];
      && run.status == Running && run.attemptCount == was.attemptCount + 1
      && run.claimID == lastClaim > old(lastClaim) && run.runnerID == runner
      && run.claimedAt == run.lastHeartbeatAt == run.startedAt && run.leaseExpiresAt == run.claimedAt + LEASE_TTL
    }

    /** And nothing else about the run is different. */
    twostate predicate Claimed(id: RunID, runner: string)
      requires id in old(runs) && id in runs
      reads this
    {
      Leased(id, runner) && Claims(agents, old(runs)[id], runs[id], runs[id].updatedAt)
    }

    /** Writes a claim at time `now`; the store may drop it. */
    method WriteClaim(id: RunID, task: Task, runner: string, summary: string, category: string, finishedAt: Time)
      returns (stored: Run, now: Time)
      requires Valid() && id in runs && runs[id].status in {Claiming, Starting, Failed, Blocked}
      requires runs[id].status in {Failed, Blocked} ==> CanRetry(agents, runs[id])
      requires Guarded(summary) || (summary == runs[id].safeSummary && runs[id].status in {Claiming, Starting})
      modifies `runs, `lastClaim, `clock, `history
      ensures Valid() && Touches(id) && lastClaim == old(lastClaim) + 1 && now == clock
      ensures stored == runs[id] && runs == old(runs)[id := stored]
      ensures if Guarded(summary) && old(runs)[id].status != Failed then stored == old(runs)[id]
              else Claimed(id, runner) && stored.safeSummary == summary && stored.failureCategory == category && stored.startedAt == now
    {
      now := Now();
      var run := NewClaim(runs[id], runner, now);
      stored := UpdateRun(id, Claim, run.(workTaskStatus := task.status, safeSummary := summary,
                                          failureCategory := category, finishedAt := finishedAt));
    }

    /** Claims a run that failed or got stuck; `summary` is the one it runs under from now on. */
    method Reclaim(id: RunID, task: Task, runner: string, summary: string, category: string) returns (claimed: bool)
      requires Valid() && id in runs && runs[id].status in {Claiming, Starting, Failed, Blocked}
      requires runs[id].status in {Failed, Blocked} ==> CanRetry(agents, runs[id])
      requires Guarded(summary) || (summary == runs[id].safeSummary && runs[id].status in {Claiming, Starting})
      modifies `runs, `lastClaim, `clock, `history
      ensures Valid() && Touches(id)
      ensures claimed <==> !Guarded(summary) || old(runs)[id].status == Failed
      ensures if claimed then Claimed(id, runner) && runs[id].safeSummary == summary && runs[id].failureCategory == category
              else runs == old(runs)
    {
      var stored, now := WriteClaim(id, task, runner, summary, category, 0);
      claimed := stored.status == Running && stored.safeSummary == summary && stored.startedAt == now;
    }

    /** The claimed run, as the pass leaves it. */
    twostate predicate ClaimedIn(pass: ClaimPass, id: RunID, runner: string)
      requires id in old(runs) && id in runs
      reads this
    {
      && Claimed(id, runner) && runs[id].safeSummary == ClaimedSummary(pass, old(runs)[id])
      && runs[id].failureCategory == ClaimedCategory(pass, old(runs)[id])
    }

    /** A run stuck between claiming its task and starting is claimed for the first time. */
    method ClaimInterruptedStartingRun(id: RunID, agentID: string, runner: string) returns (claimed: bool, ghost a: ClaimAnswers)
      requires Valid() && id in runs
      modifies `runs, `lastClaim, `clock, `history, `requests
      ensures Valid() && Touches(id)
      ensures claimed <==> Claimable(agents, RecoverStarting, old(runs)[id], id, agentID, a)
      ensures if claimed then ClaimedIn(RecoverStarting, id, runner) && runs[id].attemptCount == 1 else runs == old(runs)
      ensures claimed && a.task.value.status != TaskInProgress ==> requests == old(requests) + [Request(a.task.value.id, TaskInProgress, a.ready)]
    {
      claimed, a := false, ClaimAnswers(false, None, None);
      var run := runs[id];
      StoredRunIsOk(id);
      if (run.status != Claiming && run.status != Starting) || run.taskID == "" {
        return;
      }
      if !Suits(run, agentID) {
        return;
      }
      if run.claimedAt != 0 || run.lastHeartbeatAt != 0 || run.leaseExpiresAt != 0 {
        return;
      }
      var answer := GetWorkTask(run.taskID);
      a := a.(task := answer);
      if answer.None? || answer.value.claimedByRunID != id || !OpenTask(answer.value.status) {
        return;
      }
      var allowed := Choose();
      a := a.(allowed := allowed);
      if !allowed {
        return;
      }
      ghost var ready;
      claimed, ready := ClaimStarting(id, answer.value, runner);
      a := a.(ready := ready);
    }

    /** The task is started if need be, and then the run is claimed; the store drops the claim of a guarded one. */
    method ClaimStarting(id: RunID, task: Task, runner: string) returns (claimed: bool, ghost ready: Option<Task>)
      requires Valid() && id in runs && runs[id].status in {Claiming, Starting}
      modifies `runs, `lastClaim, `clock, `history, `requests
      ensures Valid() && Touches(id)
      ensures claimed <==> ready.Some? && !Guarded(old(runs)[id].safeSummary)
      ensures if claimed then ClaimedIn(RecoverStarting, id, runner) else runs == old(runs)
      ensures if task.status == TaskInProgress then ready == Some(task) && requests == old(requests)
              else requests == old(requests) + [Request(task.id, TaskInProgress, ready)]
    {
      var started := Some(task);
      if task.status != TaskInProgress {
        started := ChangeWorkTask(task, TaskInProgress);
      }
      ready := started;
      if started.None? {
        return false, ready;
      }
      claimed := Reclaim(id, started.value, runner, runs[id].safeSummary, "");
    }

    /**
      * A run that failed before execution is claimed again; a blocked one never is, since the store keeps it as it was.
      * `ok` is false when the work-task service refuses to widen or to block the task.
      */
    method ClaimPreExecutionRecovery(id: RunID, runner: string) returns (ok: bool, claimed: bool, ghost a: ClaimAnswers)
      requires Valid() && id in runs
      modifies `runs, `lastClaim, `clock, `history, `requests
      ensures Valid() && Touches(id)
      ensures claimed <==> Claimable(agents, RecoverPreExecution, old(runs)[id], id, "", a)
      ensures claimed ==> ok && ClaimedIn(RecoverPreExecution, id, runner)
      ensures !claimed ==> SameClaim(runs[id], old(runs)[id])
                           && (runs == old(runs) || PreparationHandedBack(old(runs)[id], runs[id], DIRTY_SCOPE, OutOfScope))
      ensures ok || !LastGranted(old(requests), requests)
    {
      ok, claimed, a := true, false, ClaimAnswers(false, None, None);
      var run := runs[id];
      if (run.status != Failed && run.status != Blocked) || !RecoverablePreExecution(run.failureCategory) || !CanRetry(agents, run) {
        return;
      }
      var allowed := Choose();
      var answer := GetWorkTask(run.taskID);
      a := ClaimAnswers(allowed, answer, None);
      if !allowed || answer.None? {
        return;
      }
      var dirty := Choose();
      var blocked, task;
      ghost var outside;
      ok, blocked, task, outside := ExpandOrBlockPreExecutionDirtyScope(id, answer.value, dirty);
      if !ok || blocked {
        return;
      }
      ghost var ready;
      claimed, ready := ClaimPrepared(id, task, runner);
      a := a.(ready := ready);
    }

    /** The task is claimed and started for the run, if need be; a task that another run has claimed is not. */
    method PrepareTaskForPreExecutionRecovery(id: RunID, task: Task) returns (prepared: Option<Task>)
      modifies `requests
      ensures task.claimedByRunID !in {0, id} ==> prepared.None? && requests == old(requests)
      ensures task.claimedByRunID == id ==> Begun(old(requests), requests, task, prepared)
      ensures task.claimedByRunID == 0 != id ==>
                exists owned :: ClaimedAndBegun(old(requests), requests, task, owned, prepared)
    {
      prepared := Some(task);
      if task.claimedByRunID != id {
        if task.claimedByRunID != 0 {
          return None;
        }
        prepared := ChangeWorkTask(task, TaskClaimed);
        assert prepared.None? ==> ClaimedAndBegun(old(requests), requests, task, None, prepared);
        if prepared.None? {
          return;
        }
      }
      ghost var owned := prepared;
      if prepared.value.status != TaskInProgress {
        prepared := ChangeWorkTask(prepared.value, TaskInProgress);
      }
      if task.claimedByRunID != id { assert ClaimedAndBegun(old(requests), requests, task, owned, prepared); }
    }

    method ClaimPrepared(id: RunID, task: Task, runner: string) returns (claimed: bool, ghost ready: Option<Task>)
      requires Valid() && id in runs && runs[id].status in {Failed, Blocked} && CanRetry(agents, runs[id])
      modifies `runs, `lastClaim, `clock, `history, `requests
      ensures Valid() && Touches(id)
      ensures claimed <==> old(runs)[id].status == Failed && ready.Some?
      ensures if claimed then ClaimedIn(RecoverPreExecution, id, runner) else runs == old(runs)
    {
      var prepared := PrepareTaskForPreExecutionRecovery(id, task);
      ready := prepared;
      if prepared.None? {
        return false, ready;
      }
      claimed := Reclaim(id, prepared.value, runner, PRE_EXECUTION_RECOVERY, "");
    }

    /** A run whose work is done but not yet published is claimed again; its failure stays on record. */
    method ClaimGitOpsPostTaskRecovery(id: RunID, runner: string) returns (claimed: bool, ghost a: ClaimAnswers)
      requires Valid() && id in runs
      modifies `runs, `lastClaim, `clock, `history
      ensures Valid() && Touches(id)
      ensures claimed <==> Claimable(agents, RecoverGitOps, old(runs)[id], id, "", a)
      ensures if claimed then ClaimedIn(RecoverGitOps, id, runner) else runs == old(runs)
    {
      claimed, a := false, ClaimAnswers(false, None, None);
      var run := runs[id];
      if run.status != Failed || !RecoverableGitOps(run.failureCategory) || !CanRetry(agents, run) {
        return;
      }
      var allowed := Choose();
      var answer := GetWorkTask(run.taskID);
      a := ClaimAnswers(allowed, answer, None);
      if !allowed || answer.None? || !answer.value.closeoutEvidence {
        return;
      }
      if !OwnsRecovery(answer.value, id, run) {
        return;
      }
      claimed := Reclaim(id, answer.value, runner, GITOPS_POST_TASK_RECOVERY, run.failureCategory);
    }

    /** A review run that failed over its worktree is claimed again. */
    method ClaimPostImplementationReviewRecovery(id: RunID, agentID: string, runner: string) returns (claimed: bool, ghost a: ClaimAnswers)
      requires Valid() && id in runs
      modifies `runs, `lastClaim, `clock, `history
      ensures Valid() && Touches(id)
      ensures claimed <==> Claimable(agents, RecoverReview, old(runs)[id], id, agentID, a)
      ensures if claimed then ClaimedIn(RecoverReview, id, runner) else runs == old(runs)
    {
      claimed, a := false, ClaimAnswers(false, None, None);
      var run := runs[id];
      if run.status != Failed || run.safeSummary != REVIEW_QUEUED || !RecoverableReview(run.failureCategory) || !CanRetry(agents, run) {
        return;
      }
      if !Suits(run, agentID) {
        return;
      }
      var allowed := Choose();
      var answer := GetWorkTask(run.taskID);
      a := ClaimAnswers(allowed, answer, None);
      if !allowed || answer.None? || answer.value.status == TaskDone {
        return;
      }
      claimed := Reclaim(id, answer.value, runner, REVIEW_QUEUED, "");
    }

    /** Whether the run is a replacement whose task has used up its replacements. */
    method ReplacementRetryLimitReached(run: Run, task: Task) returns (reached: bool)
      ensures reached <==> RetryLimitReached(runs, run, task)
    {
      if !IsReplacement(run) || run.automationID == "" || task.planID == "" || task.id == "" {
        return false;
      }
      var existing := ListRuns(run.automationID, task.planID);
      var count := CountFailures(existing, AutomationOf(run), task);
      reached := count >= MAX_REPLACEMENT_RUNS;
    }

    /** The task is blocked, and the run with it; when the work-task service refuses the run stays as it is. */
    method BlockRunAfterReplacementRetryLimit(id: RunID, task: Task) returns (ghost done: bool)
      requires Valid() && id in runs && runs[id].status == Queued
      modifies `runs, `lastClaim, `clock, `history, `requests
      ensures Valid() && Touches(id) && lastClaim == old(lastClaim) && SameClaim(runs[id], old(runs)[id]) && runs.Keys == old(runs).Keys
      ensures AskedFor(old(requests), requests, task.id, TaskBlocked, done)
      ensures if done then BlockedForGood(old(runs)[id], runs[id]) else runs == old(runs)
    {
      var blocked := ChangeWorkTask(task, TaskBlocked);
      Asks(old(requests), requests, Request(task.id, TaskBlocked, blocked));
      done := blocked.Some?;
      if blocked.Some? {
        WriteBlockedForGood(id, blocked.value);
      }
    }

    method WriteBlockedForGood(id: RunID, task: Task)
      requires Valid() && id in runs && runs[id].status == Queued
      modifies `runs, `lastClaim, `clock, `history
      ensures Valid() && Touches(id) && lastClaim == old(lastClaim) && runs.Keys == old(runs).Keys
      ensures BlockedForGood(old(runs)[id], runs[id])
    {
      var now := Now();
      var run := UpdateRun(id, Adjust, runs[id].(status := Blocked, workTaskStatus := task.status, failureCategory := RETRY_LIMIT,
                                                 safeSummary := RETRY_LIMIT, finishedAt := FinishedBy(runs[id], now), updatedAt := now));
    }

    /**
      * A queued run is checked, and claims and starts its task; None when it has been turned away instead. `c` is what
      * the checks find. Past the limit of replacements the task is blocked, and the run with it, and nothing is started;
      * otherwise the run is handed on if all checks pass, and else refused for the first that fails.
      */
    method PrepareRun(id: RunID) returns (task: Option<Task>, ghost c: Checks)
      requires Valid() && id in runs && runs[id].status == Queued
      modifies `runs, `lastClaim, `clock, `history, `requests
      ensures Valid() && Touches(id) && lastClaim == old(lastClaim) && SameClaim(runs[id], old(runs)[id]) && runs.Keys == old(runs).Keys
      ensures c.found.Some? && old(runs)[id].taskID != "" ==> c.found.value.id == old(runs)[id].taskID
      ensures var was, end := old(runs)[id], runs[id];
              if ReachesTask(c) && RetryLimitReached(old(runs), was, c.found.value) then
                && task.None? && Asked(old(requests), requests, c.found.value.id, TaskBlocked)
                && (BlockedForGood(was, end) || runs == old(runs))
              else if !Passes(c) then task.None? && EndsRefused(was, end, Verdict(c)) && requests == old(requests)
              else if task.Some? then Starts(was, end, c.found.value)
              else FailsToStart(was, end, c.found.value)
    {
      task, c := None, Checks(false, None, false, None, false);
      var available := Choose();
      c := c.(available := available);
      if !available {
        var failed := FailRun(id, Blocked, "automation_unavailable");
        return;
      }
      var refusal := PolicyRefusal();
      c := c.(refusal := refusal);
      if refusal.Some? {
        var failed := FailRun(id, PolicyDenied, refusal.value);
        return;
      }
      var gateOpen := Choose();
      c := c.(gateOpen := gateOpen);
      if gateOpen {
        var failed := FailRun(id, Blocked, "automation_review_gate_open");
        return;
      }
      var answer := GetWorkTask(runs[id].taskID);
      c := c.(found := answer);
      if answer.None? {
        var failed := FailRun(id, Blocked, "task_unavailable");
        return;
      }
      var reached := ReplacementRetryLimitReached(runs[id], answer.value);
      if reached {
        ghost var done := BlockRunAfterReplacementRetryLimit(id, answer.value);
        return;
      }
      ghost var dependencies;
      task, dependencies := PrepareFound(id, answer.value);
      c := c.(dependenciesDone := dependencies);
    }

    /** The task has been found, and may be given to the run: if it is fit to be executed, and what it depends on is done. */
    method PrepareFound(id: RunID, found: Task) returns (task: Option<Task>, ghost dependenciesDone: bool)
      requires Valid() && id in runs && runs[id].status == Queued
      modifies `runs, `lastClaim, `clock, `history, `requests
      ensures Valid() && Touches(id) && lastClaim == old(lastClaim) && SameClaim(runs[id], old(runs)[id]) && runs.Keys == old(runs).Keys
      ensures var was, end := old(runs)[id], runs[id];
              if found.unfit != "" then task.None? && EndsRefused(was, end, (PolicyDenied, found.unfit)) && requests == old(requests)
              else if !dependenciesDone then task.None? && EndsRefused(was, end, (Blocked, "task_dependencies_not_done")) && requests == old(requests)
              else if task.Some? then Starts(was, end, found)
              else FailsToStart(was, end, found)
    {
      task, dependenciesDone := None, false;
      if found.unfit != "" {
        var failed := FailRun(id, PolicyDenied, found.unfit);
        return;
      }
      var done := Choose();
      dependenciesDone := done;
      if !done {
        var failed := FailRun(id, Blocked, "task_dependencies_not_done");
        return;
      }
      task := TakeTask(id, found);
    }

    /** Why policy refuses a run; None if it does not. */
    method PolicyRefusal() returns (refusal: Option<string>) {
      refusal := *;
    }

    /** The run moves through claiming and starting while its task does. */
    method TakeTask(id: RunID, found: Task) returns (task: Option<Task>)
      requires Valid() && id in runs && runs[id].status == Queued
      modifies `runs, `lastClaim, `clock, `history, `requests
      ensures Valid() && Touches(id) && lastClaim == old(lastClaim) && runs.Keys == old(runs).Keys
      ensures SameClaim(runs[id], old(runs)[id]) && Asked(old(requests), requests, found.id, TaskClaimed)
      ensures if task.Some? then Starts(old(runs)[id], runs[id], found) else FailsToStart(old(runs)[id], runs[id], found)
    {
      WritePrepared(id, Claiming, found);
      var owned := ChangeWorkTask(found, TaskClaimed);
      task := StartClaimed(id, owned);
      Asks(old(requests), requests, Request(found.id, TaskClaimed, owned));
    }

    method StartClaimed(id: RunID, owned: Option<Task>) returns (task: Option<Task>)
      requires Valid() && id in runs && runs[id].status == Claiming
      modifies `runs, `lastClaim, `clock, `history, `requests
      ensures Valid() && Touches(id) && lastClaim == old(lastClaim) && runs.Keys == old(runs).Keys
      ensures if task.Some? then runs[id] == old(runs)[id].(status := Starting, workTaskStatus := runs[id].workTaskStatus, updatedAt := runs[id].updatedAt)
              else && runs[id].failureCategory in {"claim_failed", "start_failed"}
                   && EndsRefused(old(runs)[id].(workTaskStatus := runs[id].workTaskStatus), runs[id], (Blocked, runs[id].failureCategory))
    {
      task := None;
      if owned.None? {
        var failed := FailRun(id, Blocked, "claim_failed");
      } else {
        task := StartTask(id, owned.value);
      }
    }

    method StartTask(id: RunID, owned: Task) returns (task: Option<Task>)
      requires Valid() && id in runs && runs[id].status == Claiming
      modifies `runs, `lastClaim, `clock, `history, `requests
      ensures Valid() && Touches(id) && lastClaim == old(lastClaim) && runs.Keys == old(runs).Keys && SameClaim(runs[id], old(runs)[id])
      ensures requests == old(requests) + [Request(owned.id, TaskInProgress, task)]
      ensures var starting := old(runs)[id].(status := Starting, workTaskStatus := owned.status);
              if task.Some? then runs[id] == starting.(updatedAt := runs[id].updatedAt)
              else EndsRefused(starting, runs[id], (Blocked, "start_failed"))
    {
      WritePrepared(id, Starting, owned.(id := runs[id].taskID, planID := runs[id].planID));
      task := ChangeWorkTask(owned, TaskInProgress);
      if task.None? {
        var failed := FailRun(id, Blocked, "start_failed");
      }
    }

    method WritePrepared(id: RunID, status: Status, task: Task)
      requires Valid() && id in runs
      requires (runs[id].status == Queued && status == Claiming) || (runs[id].status == Claiming && status == Starting)
      modifies `runs, `lastClaim, `clock, `history
      ensures Valid() && Touches(id) && lastClaim == old(lastClaim) && runs == old(runs)[id := runs[id]] && clock >= old(clock)
      ensures runs[id] == old(runs)[id].(taskID := task.id, planID := task.planID, workTaskStatus := task.status, status := status, updatedAt := clock)
    {
      var now := Now();
      var run := UpdateRun(id, Prepare, runs[id].(taskID := task.id, planID := task.planID, workTaskStatus := task.status,
                                                  status := status, updatedAt := now));
    }

    /**
      * A queued run is prepared and claimed. If its summary is a guarded one the store drops that last write: the
      * caller gets the run without an attempt, a claim or a lease.
      */
    method PrepareRunForExecution(id: RunID, runner: string) returns (ok: bool, ghost c: Checks)
      requires Valid() && id in runs && runs[id].status == Queued
      modifies `runs, `lastClaim, `clock, `history, `requests
      ensures Valid() && Touches(id) && runs.Keys == old(runs).Keys
      ensures c.found.Some? && old(runs)[id].taskID != "" ==> c.found.value.id == old(runs)[id].taskID
      ensures ok ==> LetThrough(old(runs), old(runs)[id], c) && lastClaim > old(lastClaim)
      ensures ok ==> runs[id].taskID == c.found.value.id && runs[id].planID == c.found.value.planID
      ensures ok && !Guarded(old(runs)[id].safeSummary) ==> Leased(id, runner) && runs[id].attemptCount == 1
      ensures ok && Guarded(old(runs)[id].safeSummary) ==> runs[id].status == Starting && Unclaimed(runs[id]) && Guarded(runs[id].safeSummary)
      ensures !ok ==> TurnedAwayAs(old(runs), old(runs)[id], runs[id], c) && TurnedAway(runs, runs[id])
    {
      StoredRunIsOk(id);
      var task;
      task, c := PrepareRun(id);
      if task.None? {
        StaysPastLimit(old(runs), runs, old(runs)[id], runs[id], c);
        return false, c;
      }
      ghost var prepared := history;
      ok := ClaimStarted(id, task.value, runner);
    }

    /** The claim of a run that has been prepared; should its governance record fail, so does the run. */
    method ClaimStarted(id: RunID, task: Task, runner: string) returns (ok: bool)
      requires Valid() && id in runs && runs[id].status == Starting
      modifies `runs, `lastClaim, `clock, `history
      ensures Valid() && Touches(id) && runs.Keys == old(runs).Keys && lastClaim > old(lastClaim)
      ensures ok && !Guarded(old(runs)[id].safeSummary) ==> Leased(id, runner) && Claims(agents, old(runs)[id], runs[id], runs[id].updatedAt)
      ensures ok && Guarded(old(runs)[id].safeSummary) ==> runs == old(runs)
      ensures !ok ==> runs[id].status == Failed && runs[id].failureCategory == "governance_action_failed"
    {
      var run, now := WriteClaim(id, task, runner, runs[id].safeSummary, runs[id].failureCategory, runs[id].finishedAt);
      ok := Choose();
      if !ok {
        run := FailRun(id, Failed, "governance_action_failed");
      }
    }

    // ------------------------------------------------------------------ the next claim

    /** Whatever has changed, no run is forgotten and no attempt recorded. */
    twostate predicate Continues()
      reads this
    {
      GoesOn() && attempts == old(attempts) && forall id :: id in old(runs) ==> id in runs
    }

    function AgeOf(id: RunID, byCreation: bool): Time
      requires id in runs
      reads `runs
    {
      if byCreation then runs[id].createdAt else runs[id].updatedAt
    }

    method PickOldest(left: set<RunID>, byCreation: bool) returns (id: RunID)
      requires left != {} && left <= runs.Keys
      ensures id in left && forall other :: other in left ==> AgeOf(id, byCreation) <= AgeOf(other, byCreation)
    {
      id :| id in left;
      var rest := left - {id};
      while rest != {}
        invariant id in left && rest <= left
        invariant forall other :: other in left - rest ==> AgeOf(id, byCreation) <= AgeOf(other, byCreation)
        decreases |rest|
      {
        var other :| other in rest;
        rest := rest - {other};
        if AgeOf(other, byCreation) < AgeOf(id, byCreation) {
          id := other;
        }
      }
    }

    /** Stands for ListRuns and sort.Slice: the runs of the given statuses, oldest first, by creation or by last update. */
    method ListOldestFirst(statuses: set<Status>, byCreation: bool) returns (ids: seq<RunID>)
      ensures forall id :: id in ids <==> id in runs && runs[id].status in statuses
      ensures forall i, j :: 0 <= i < j < |ids| ==> ids[i] != ids[j] && AgeOf(ids[i], byCreation) <= AgeOf(ids[j], byCreation)
    {
      ids := [];
      var left := runs.Keys;
      while left != {}
        invariant left <= runs.Keys
        invariant forall id :: id in ids <==> id in runs && id !in left && runs[id].status in statuses
        invariant forall i, id :: 0 <= i < |ids| && id in left ==> AgeOf(ids[i], byCreation) <= AgeOf(id, byCreation)
        invariant forall i, j :: 0 <= i < j < |ids| ==> ids[i] != ids[j] && AgeOf(ids[i], byCreation) <= AgeOf(ids[j], byCreation)
        decreases |left|
      {
        var id := PickOldest(left, byCreation);
        left := left - {id};
        if runs[id].status in statuses {
          ids := ids + [id];
        }
      }
    }

    /** What a pass does to one of its runs. */
    method ReconcileRun(pass: ReconcilePass, id: RunID) returns (ok: bool, ghost f: Findings)
      requires Valid() && id in runs && runs[id].status in PassStatuses(pass)
      modifies `runs, `lastRun, `lastClaim, `clock, `history, `requests
      ensures Valid() && Touches(id) && lastClaim == old(lastClaim)
      ensures f.ok == ok && ReconciledAs(agents, serviceStart, canUpdateTasks, pass, old(runs)[id], runs[id], id, f)
      ensures ok || !LastGranted(old(requests), requests)
    {
      f := Findings(true, None, Course(clock, clock, runs[id], Look(None, None)), Look(None, None), NotAsked);
      ghost var seen, c, look, way := f.seen, f.course, f.look, f.way;
      match pass {
        case PassRunning => ok, seen, c := ReconcileRunningRun(id);
        case PassVerifying => ok, look := ReconcileVerifyingRun(id);
        case PassInterrupted => ok, seen, c := ReconcileProgressedRun(id);
        case PassPreExecution => ok, seen, c := ReconcileProgressedRun(id);
        case PassExhaustedPreExecution => ok, seen, way := ReconcileExhaustedPreExecutionRun(id);
        case PassExhaustedGitOps => ok, seen, way := ReconcileExhaustedGitOpsRun(id);
        case PassStaleTasks => ok, seen := RepairStaleReadyTask(id);
      }
      f := Findings(ok, seen, c, look, way);
    }

    /** Number `k` of the runs of a pass; `before` are the runs there were when the pass began. */
    method ReconcileNext(pass: ReconcilePass, ghost before: map<RunID, Run>, ids: seq<RunID>, k: nat, ghost f: map<RunID, Findings>)
      returns (ok: bool, ghost g: map<RunID, Findings>)
      requires Valid() && ClaimsStay(before, runs) && PassUnderway(agents, serviceStart, canUpdateTasks, pass, before, runs, f, ids, k) && k < |ids|
      modifies `runs, `lastRun, `lastClaim, `clock, `history, `requests
      ensures Valid() && Continues() && lastClaim == old(lastClaim) && ClaimsStay(before, runs)
      ensures ok ==> PassUnderway(agents, serviceStart, canUpdateTasks, pass, before, runs, g, ids, k + 1)
      ensures ok || !LastGranted(old(requests), requests)
    {
      assert ids[k] in ids;
      ghost var made;
      ok, made := ReconcileRun(pass, ids[k]);
      ReconciledKeepsClaim(agents, serviceStart, canUpdateTasks, pass, old(runs)[ids[k]], runs[ids[k]], ids[k], made);
      ClaimsStillStay(before, old(runs), runs, ids[k]);
      g := f[ids[k] := made];
      if ok { PassGoesOn(agents, serviceStart, canUpdateTasks, pass, before, old(runs), runs, f, ids, k, made); }
    }

    /** All runs of a pass, oldest first; `ok` is false when the work-task service refuses in between. */
    method Reconcile(pass: ReconcilePass) returns (ok: bool, ghost f: map<RunID, Findings>)
      requires Valid()
      modifies `runs, `lastRun, `lastClaim, `clock, `history, `requests
      ensures Valid() && Continues() && lastClaim == old(lastClaim)
      ensures ClaimsStay(old(runs), runs)
      ensures ok ==> PassMade(agents, serviceStart, canUpdateTasks, pass, old(runs), runs, f)
      ensures ok || !LastGranted(old(requests), requests)
    {
      ok, f := true, map[];
      var ids := ListOldestFirst(PassStatuses(pass), false);
      for k := 0 to |ids|
        invariant Valid() && Continues() && lastClaim == old(lastClaim)
        invariant ClaimsStay(old(runs), runs) && PassUnderway(agents, serviceStart, canUpdateTasks, pass, old(runs), runs, f, ids, k)
      {
        ok, f := ReconcileNext(pass, old(runs), ids, k, f);
        if !ok {
          return;
        }
      }
      PassIsMade(agents, serviceStart, canUpdateTasks, pass, old(runs), runs, f, ids);
      ok := true;
    }

    /** All passes, one after the other; no run gets or loses a claim. `stages` are the runs between the passes. */
    method ReconcileAll() returns (ok: bool, ghost stages: seq<map<RunID, Run>>, ghost f: seq<map<RunID, Findings>>)
      requires Valid()
      modifies `runs, `lastRun, `lastClaim, `clock, `history, `requests
      ensures Valid() && Continues() && lastClaim == old(lastClaim)
      ensures ClaimsStay(old(runs), runs)
      ensures ok ==> PassesMade(agents, serviceStart, canUpdateTasks, stages, f, |PASSES|) && stages[0] == old(runs) && stages[|PASSES|] == runs
      ensures ok || !LastGranted(old(requests), requests)
    {
      ok, stages, f := true, [runs], [];
      for k := 0 to |PASSES|
        invariant Valid() && Continues() && lastClaim == old(lastClaim)
        invariant ClaimsStay(old(runs), runs)
        invariant PassesMade(agents, serviceStart, canUpdateTasks, stages, f, k) && stages[0] == old(runs) && stages[k] == runs
      {
        ghost var g;
        ok, g := Reconcile(PASSES[k]);
        if !ok {
          return;
        }
        OneMorePass(agents, serviceStart, canUpdateTasks, stages, f, k, runs, g);
        stages, f := stages + [runs], f + [g];
      }
      ok := true;
    }

    /** Listing runs brings the running and then the verifying ones up to date first; what is refused is passed over. */
    method RefreshRuns() returns (ghost running: bool, ghost verifying: bool, ghost between: map<RunID, Run>, ghost f: seq<map<RunID, Findings>>)
      requires Valid()
      modifies `runs, `lastRun, `lastClaim, `clock, `history, `requests
      ensures Valid() && Continues() && lastClaim == old(lastClaim) && |f| == 2
      ensures ClaimsStay(old(runs), runs)
      ensures running ==> PassMade(agents, serviceStart, canUpdateTasks, PassRunning, old(runs), between, f[0])
      ensures verifying ==> PassMade(agents, serviceStart, canUpdateTasks, PassVerifying, between, runs, f[1])
    {
      ghost var g, h;
      var ok;
      ok, g := Reconcile(PassRunning);
      running, between := ok, runs;
      ok, h := Reconcile(PassVerifying);
      verifying, f := ok, [g, h];
    }

    method ClaimOneAgain(pass: ClaimPass, id: RunID, agentID: string, runner: string) returns (ok: bool, claimed: bool, ghost a: ClaimAnswers)
      requires Valid() && id in runs
      modifies `runs, `lastClaim, `clock, `history, `requests
      ensures Valid() && Touches(id)
      ensures claimed <==> Claimable(agents, pass, old(runs)[id], id, agentID, a)
      ensures claimed ==> ok && Leased(id, runner) && ClaimedAgain(agents, pass, old(runs)[id], runs[id], runner)
      ensures !claimed ==> SameClaim(runs[id], old(runs)[id])
      ensures ok || !LastGranted(old(requests), requests)
    {
      ok := true;
      match pass {
        case RecoverStarting => claimed, a := ClaimInterruptedStartingRun(id, agentID, runner);
        case RecoverPreExecution => ok, claimed, a := ClaimPreExecutionRecovery(id, runner);
        case RecoverGitOps => claimed, a := ClaimGitOpsPostTaskRecovery(id, runner);
        case RecoverReview => claimed, a := ClaimPostImplementationReviewRecovery(id, agentID, runner);
      }
    }

    /** Number `k` of the runs of a pass is asked for; `before` are the runs there were when the pass began. */
    method ClaimNumber(pass: ClaimPass, ghost before: map<RunID, Run>, ids: seq<RunID>, k: nat, agentID: string, runner: string,
                       ghost answers: map<RunID, ClaimAnswers>)
      returns (ok: bool, done: bool, ghost next: map<RunID, ClaimAnswers>)
      requires Valid() && k < |ids| && AsBefore(before, runs, ids, k) && ClaimsStay(before, runs)
      requires Asking(agents, pass, before, agentID, answers, ids, k)
      modifies `runs, `lastClaim, `clock, `history, `requests
      ensures Valid() && Continues() && ids[k] in before && ids[k] in old(runs)
      ensures done ==> ok && Leased(ids[k], runner) && FirstClaimable(agents, pass, before, agentID, next, ids[k])
      ensures done ==> ClaimedAgain(agents, pass, before[ids[k]], runs[ids[k]], runner)
      ensures done ==> forall id :: id in before && id != ids[k] ==> SameClaim(runs[id], before[id])
      ensures !done ==> ClaimsStay(before, runs)
      ensures ok && !done ==> AsBefore(before, runs, ids, k + 1) && Asking(agents, pass, before, agentID, next, ids, k + 1)
      ensures ok || !LastGranted(old(requests), requests)
    {
      ghost var a;
      ok, done, a := ClaimOneAgain(pass, ids[k], agentID, runner);
      next := answers[ids[k] := a];
      if done {
        AskedUpTo(agents, pass, before, agentID, answers, ids, k, a);
      } else {
        ClaimsStillStay(before, old(runs), runs, ids[k]);
        RestAsBefore(before, old(runs), runs, ids, k);
        AskingGoesOn(agents, pass, before, agentID, answers, ids, k, a);
      }
    }

    /** The first run, oldest first, that can be claimed again; no other run gets a claim. */
    method ClaimAgain(pass: ClaimPass, agentID: string, runner: string)
      returns (ok: bool, claimed: Option<RunID>, ghost answers: map<RunID, ClaimAnswers>)
      requires Valid()
      modifies `runs, `lastClaim, `clock, `history, `requests
      ensures Valid() && Continues()
      ensures claimed.Some? ==> ok && claimed.value in old(runs) && Leased(claimed.value, runner)
                                && FirstClaimable(agents, pass, old(runs), agentID, answers, claimed.value)
                                && ClaimedAgain(agents, pass, old(runs)[claimed.value], runs[claimed.value], runner)
      ensures ok && claimed.None? ==> NoneClaimable(agents, pass, old(runs), agentID, answers)
      ensures forall id :: id in old(runs) && claimed != Some(id) ==> SameClaim(runs[id], old(runs)[id])
      ensures ok || !LastGranted(old(requests), requests)
    {
      ok, claimed, answers := true, None, map[];
      var ids := ListOldestFirst(ClaimableStatuses(pass), false);
      for k := 0 to |ids|
        invariant Valid() && Continues() && AsBefore(old(runs), runs, ids, k) && ClaimsStay(old(runs), runs)
        invariant Asking(agents, pass, old(runs), agentID, answers, ids, k)
      {
        var done;
        ok, done, answers := ClaimNumber(pass, old(runs), ids, k, agentID, runner, answers);
        if !ok || done {
          return ok, if done then Some(ids[k]) else None, answers;
        }
      }
      AskedAll(agents, pass, old(runs), agentID, answers, ids);
      ok := true;
    }

    /**
      * The queued runs, oldest first. Whoever waited longer than the run that is handed out has been turned away; when
      * none is handed out nobody waits any more.
      */
    method ClaimQueued(agentID: string, runner: string) returns (claimed: Option<RunID>, ghost c: Checks)
      requires Valid()
      modifies `runs, `lastClaim, `clock, `history, `requests
      ensures Valid() && Continues()
      ensures claimed.Some? ==> claimed.value in old(runs) && old(runs)[claimed.value].status == Queued && Suits(old(runs)[claimed.value], agentID)
      ensures claimed.Some? ==> Handed(claimed.value, runner) && lastClaim > old(lastClaim)
      ensures claimed.Some? ==> Passes(c) && runs[claimed.value].taskID == c.found.value.id
      ensures forall id :: id in runs && Waits(runs, runs[id], agentID) ==>
                claimed.Some? && runs[claimed.value].createdAt <= runs[id].createdAt
    {
      claimed, c := None, Checks(false, None, false, None, false);
      var ids := ListOldestFirst({Queued}, true);
      for k := 0 to |ids|
        invariant Valid() && Continues() && Tried(old(runs), runs, ids, k, agentID)
      {
        ghost var tried := runs;
        var done;
        done, c := TryQueued(ids[k], agentID, runner);
        if done {
          OldestOfWaiting(old(runs), tried, runs, ids, k, agentID);
          return Some(ids[k]), c;
        }
        OneMoreTried(old(runs), tried, runs, ids, k, agentID);
      }
      NoneWaits(old(runs), runs, ids, agentID);
    }

    /** Hands out one queued run, if it suits the agent and gets through. */
    method TryQueued(id: RunID, agentID: string, runner: string) returns (done: bool, ghost c: Checks)
      requires Valid() && id in runs && runs[id].status == Queued
      modifies `runs, `lastClaim, `clock, `history, `requests
      ensures Valid() && Touches(id) && runs.Keys == old(runs).Keys && runs[id].createdAt == old(runs)[id].createdAt
      ensures if done then Suits(old(runs)[id], agentID) && Handed(id, runner) && lastClaim > old(lastClaim)
              else !Waits(runs, runs[id], agentID)
      ensures if done then LetThrough(old(runs), old(runs)[id], c) && runs[id].taskID == c.found.value.id
              else if Suits(old(runs)[id], agentID) then TurnedAwayAs(old(runs), old(runs)[id], runs[id], c)
              else runs == old(runs)
    {
      c := Checks(false, None, false, None, false);
      if !Suits(runs[id], agentID) {
        return false, c;
      }
      done, c := PrepareRunForExecution(id, runner);
      assert history[..|old(history)|] == old(history);
      RunAges(agents, history, |old(history)|, id);
    }

    /** What a runner is handed: a run under the latest claim, or a guarded one without any claim. */
    predicate Handed(id: RunID, runner: string)
      reads `runs, `lastClaim
    {
      && id in runs
      && (|| (runs[id].status == Running && runs[id].claimID == lastClaim && runs[id].runnerID == runner
              && runs[id].leaseExpiresAt == runs[id].claimedAt + LEASE_TTL)
          || (runs[id].status == Starting && Guarded(runs[id].safeSummary) && Unclaimed(runs[id])))
    }

    /** Runs that can be claimed again, pass by pass; when there is none, all passes have asked in vain. */
    method ClaimRecoveries(passes: seq<ClaimPass>, agentID: string, runner: string)
      returns (ok: bool, claimed: Option<RunID>, ghost how: Handing, ghost stages: seq<map<RunID, Run>>, ghost answers: seq<map<RunID, ClaimAnswers>>)
      requires Valid()
      modifies `runs, `lastClaim, `clock, `history, `requests
      ensures Valid() && Continues()
      ensures claimed.Some? ==> ok && Handed(claimed.value, runner) && lastClaim > old(lastClaim) && how.ByPass? && how.pass in passes
                                && Claimable(agents, how.pass, how.was, claimed.value, agentID, how.answers)
                                && ClaimedAgain(agents, how.pass, how.was, runs[claimed.value], runner)
      ensures ok ==> InVainUntil(agents, passes, agentID, how, stages, answers)
      ensures claimed.None? ==> how == ByNobody
      ensures ok || !LastGranted(old(requests), requests)
    {
      ok, claimed, how, stages, answers := true, None, ByNobody, [], [];
      for k := 0 to |passes|
        invariant Valid() && Continues() && claimed.None? && how == ByNobody && |stages| == |answers| == k
        invariant AskedInVain(agents, passes, agentID, stages, answers, k)
      {
        ghost var stage := runs;
        ghost var a;
        ok, claimed, a := ClaimAgain(passes[k], agentID, runner);
        if !ok || claimed.Some? {
          if claimed.Some? { how := ByPass(passes[k], stage[claimed.value], a[claimed.value]); }
          return;
        }
        stages, answers := stages + [stage], answers + [a];
      }
      ok := true;
    }

    /** New runs for the tasks that are ready, then the queued runs. */
    method ClaimReady(agentID: string, runner: string) returns (ok: bool, claimed: Option<RunID>, ghost c: Checks)
      requires Valid()
      modifies `runs, `lastRun, `lastClaim, `clock, `history, `requests
      ensures Valid() && Continues()
      ensures claimed.Some? ==> ok && Handed(claimed.value, runner) && lastClaim > old(lastClaim) && Passes(c) && runs[claimed.value].taskID == c.found.value.id
      ensures ok ==> forall id :: id in runs && Waits(runs, runs[id], agentID) ==>
                       claimed.Some? && runs[claimed.value].createdAt <= runs[id].createdAt
      ensures ok || !LastGranted(old(requests), requests)
    {
      claimed, c := None, Checks(false, None, false, None, false);
      var pairs := ListReady();
      ok := QueueReplacements(pairs);
      if !ok {
        return;
      }
      claimed, c := ClaimQueued(agentID, runner);
    }

    /** One look at everything: reconciling, reviews that are outstanding, runs to be claimed again, and the queue. */
    method ClaimRound(passes: seq<ClaimPass>, reviews: bool, agentID: string, runner: string)
      returns (ok: bool, claimed: Option<RunID>, ghost how: Handing, ghost round: Round)
      requires Valid()
      modifies `runs, `lastRun, `lastClaim, `clock, `history, `requests
      ensures Valid() && Continues()
      ensures ok ==> Reconciled(agents, serviceStart, canUpdateTasks, round, old(runs))
      ensures ok ==> InVainUntil(agents, passes, agentID, how, round.asked, round.answers)
      ensures claimed.Some? ==> ok && Handed(claimed.value, runner) && lastClaim > old(lastClaim) && ComesFrom(claimed.value, agentID, runner, how, passes)
      ensures claimed.None? ==> how == ByNobody
      ensures ok && !how.ByPass? ==>
                forall id :: id in runs && Waits(runs, runs[id], agentID) ==> claimed.Some? && runs[claimed.value].createdAt <= runs[id].createdAt
      ensures ok || reviews || !LastGranted(old(requests), requests)
    {
      claimed, how := None, ByNobody;
      ghost var stages, findings, asked, answers;
      ok, stages, findings := ReconcileAll();
      round := Round(stages, findings, [], []);
      if !ok {
        return;
      }
      if reviews {
        ghost var heard;
        ok, heard := QueueOutstandingReviews();
        if !ok {
          return;
        }
      }
      ok, claimed, how, asked, answers := ClaimFrom(passes, agentID, runner);
      round := Round(stages, findings, asked, answers);
    }

    method ClaimFrom(passes: seq<ClaimPass>, agentID: string, runner: string)
      returns (ok: bool, claimed: Option<RunID>, ghost how: Handing, ghost asked: seq<map<RunID, Run>>, ghost answers: seq<map<RunID, ClaimAnswers>>)
      requires Valid()
      modifies `runs, `lastRun, `lastClaim, `clock, `history, `requests
      ensures Valid() && Continues()
      ensures ok ==> InVainUntil(agents, passes, agentID, how, asked, answers)
      ensures claimed.Some? ==> ok && Handed(claimed.value, runner) && lastClaim > old(lastClaim) && ComesFrom(claimed.value, agentID, runner, how, passes)
      ensures claimed.None? ==> how == ByNobody
      ensures ok && !how.ByPass? ==>
                forall id :: id in runs && Waits(runs, runs[id], agentID) ==> claimed.Some? && runs[claimed.value].createdAt <= runs[id].createdAt
      ensures ok || !LastGranted(old(requests), requests)
    {
      ok, claimed, how, asked, answers := ClaimRecoveries(passes, agentID, runner);
      if !ok || claimed.Some? {
        return;
      }
      ghost var c;
      ok, claimed, c := ClaimReady(agentID, runner);
      how := if claimed.Some? then FromQueue(c) else ByNobody;
    }

    /** How the run that is handed out was come by. */
    ghost predicate ComesFrom(id: RunID, agentID: string, runner: string, how: Handing, passes: seq<ClaimPass>)
      reads `runs
    {
      && id in runs
      && match how
         case ByPass(pass, was, a) =>
           pass in passes && Claimable(agents, pass, was, id, agentID, a) && ClaimedAgain(agents, pass, was, runs[id], runner)
         case FromQueue(c) => Passes(c) && runs[id].taskID == c.found.value.id
         case ByNobody => false
    }

    /**
      * A run stuck while starting comes first; then, after reconciling, runs that can be claimed again, then queued
      * ones. If there is none, everything is looked at once more. A run from the queue is the oldest that waited, and
      * when there is no run to hand out nobody waits. `rounds` is what has been looked at: in all but the last round
      * every pass asked in vain, and the last handed out the run, if there is one.
      */
    method ClaimNextRun(agentID: string, runner: string) returns (r: Result<RunID, Refusal>, ghost how: Handing, ghost rounds: seq<Round>)
      requires Valid()
      modifies `runs, `lastRun, `lastClaim, `clock, `history, `requests
      ensures Valid() && Continues()
      ensures r.Ok? ==> Handed(r.value, runner) && lastClaim > old(lastClaim)
      ensures r.Ok? ==> 0 < |rounds| <= |ROUNDS| && ComesFrom(r.value, agentID, runner, how, ROUNDS[|rounds| - 1])
      ensures r.Ok? && how.FromQueue? ==> forall id :: id in runs && Waits(runs, runs[id], agentID) ==> runs[r.value].createdAt <= runs[id].createdAt
      ensures r == Err(NoQueuedRun) ==> |rounds| == |ROUNDS| && how == ByNobody && forall id :: id in runs ==> !Waits(runs, runs[id], agentID)
      ensures r != Err(Refused) ==> RoundsMade(agents, serviceStart, canUpdateTasks, agentID, how, rounds)
      ensures r.Err? ==> r == Err(NoQueuedRun) || (r == Err(Refused) && (|rounds| == |ROUNDS| || !LastGranted(old(requests), requests)))
    {
      ghost var asked, answers;
      var ok, claimed;
      ok, claimed, how, asked, answers := ClaimRecoveries(FIRST_PASSES, agentID, runner);
      rounds := [Round([], [], asked, answers)];
      if ok { OneMoreRound(agents, serviceStart, canUpdateTasks, agentID, how, [], rounds[0], runs); }
      if !ok || claimed.Some? {
        return if claimed.Some? then Ok(claimed.value) else Err(Refused), how, rounds;
      }
      ok, claimed, how, rounds := NextRound(rounds, false, agentID, runner);
      if !ok || claimed.Some? {
        return if claimed.Some? then Ok(claimed.value) else Err(Refused), how, rounds;
      }
      ok, claimed, how, rounds := NextRound(rounds, true, agentID, runner);
      if !ok {
        return Err(Refused), how, rounds;
      }
      return if claimed.Some? then Ok(claimed.value) else Err(NoQueuedRun), how, rounds;
    }

    /** The second look at everything, or the `last`. */
    method NextRound(ghost rounds: seq<Round>, last: bool, agentID: string, runner: string)
      returns (ok: bool, claimed: Option<RunID>, ghost how: Handing, ghost next: seq<Round>)
      requires Valid() && |rounds| == (if last then 2 else 1) && RoundsMade(agents, serviceStart, canUpdateTasks, agentID, ByNobody, rounds)
      modifies `runs, `lastRun, `lastClaim, `clock, `history, `requests
      ensures Valid() && Continues() && |next| == |rounds| + 1
      ensures ok ==> RoundsMade(agents, serviceStart, canUpdateTasks, agentID, how, next)
      ensures claimed.Some? ==> ok && Handed(claimed.value, runner) && lastClaim > old(lastClaim)
                                && ComesFrom(claimed.value, agentID, runner, how, ROUNDS[|rounds|])
      ensures claimed.None? ==> how == ByNobody
      ensures ok && !how.ByPass? ==>
                forall id :: id in runs && Waits(runs, runs[id], agentID) ==> claimed.Some? && runs[claimed.value].createdAt <= runs[id].createdAt
      ensures ok || last || !LastGranted(old(requests), requests)
    {
      ghost var round;
      ok, claimed, how, round := ClaimRound(if last then LAST_PASSES else MAIN_PASSES, last, agentID, runner);
      next := rounds + [round];
      if ok { OneMoreRound(agents, serviceStart, canUpdateTasks, agentID, how, rounds, round, old(runs)); }
    }

    // --------------------------------------------------------------------- review runs

    /** Whether the task needs a review, going by its files and what has been reviewed. */
    method NeedsReview(target: Task) returns (needed: bool) {
      needed := *;
    }

    /** The open task that reviews another; None if there is none. */
    method FindReview() returns (review: Option<Task>) {
      review := *;
    }

    /** The automation that runs reviews, made if need be; None if that fails. */
    method ReviewAutomation() returns (automation: Option<Automation>) {
      automation := *;
    }

    /**
      * The review of a finished implementation gets a run of its own, unless one is active. `r` is what is found out on
      * the way; `ok` is false when the review cannot be made ready or run.
      */
    method QueuePostImplementationReview(parent: Run, target: Option<Task>) returns (ok: bool, ghost r: ReviewAnswers)
      requires Valid()
      modifies `runs, `lastRun, `clock, `history, `requests
      ensures Valid() && Touches(0) && Grows(old(runs), runs)
      ensures ok <==> !ReviewFails(parent, target, r, canUpdateTasks)
      ensures ok ==> IsReviewed(runs, parent, target, r, canUpdateTasks)
      ensures if ReviewIsDue(parent, target, r, canUpdateTasks) && r.automation.Some?
                 && ActiveRuns(old(runs), r.automation.value, r.ready.value.(planID := parent.planID)) == {}
              then exists id :: id !in old(runs) && id in runs && runs == old(runs)[id := runs[id]]
                                && runs[id] == QueuedRun(r.automation.value, parent.planID, r.ready.value, "post-review", REVIEW_QUEUED, runs[id].createdAt)
              else runs == old(runs)
    {
      ok, r := true, ReviewAnswers(false, None, None, None);
      if parent.planID == "" || parent.taskID == "" || target.None? {
        return;
      }
      var needed := NeedsReview(target.value);
      r := r.(needed := needed);
      if !needed {
        return;
      }
      var review := FindReview();
      r := r.(review := review, ready := review);
      if review.Some? && review.value.status == TaskPlanned && !canUpdateTasks {
        return false, r;
      }
      if review.None? || review.value.status == TaskPlanned {
        review := MakeReview(review);
        r := r.(ready := review);
        if review.None? {
          return false, r;
        }
      }
      if review.value.status != TaskReady {
        return;
      }
      var automation := ReviewAutomation();
      r := r.(automation := automation);
      if automation.None? {
        return false, r;
      }
      var queued := QueueUnlessActive(automation.value, parent.planID, parent.planID, review.value, "post-review", REVIEW_QUEUED);
    }

    /** A planned review is made ready, and one that is not there yet is created as ready. */
    method MakeReview(review: Option<Task>) returns (ready: Option<Task>)
      modifies `requests
      ensures old(requests) <= requests
      ensures review.Some? ==> requests == old(requests) + [Request(review.value.id, TaskReady, ready)]
      ensures review.None? && ready.Some? ==> ready.value.status == TaskReady
    {
      if review.Some? {
        ready := ChangeWorkTask(review.value, TaskReady);
      } else {
        ready := *;
        if ready.Some? {
          ready := Some(ready.value.(status := TaskReady));
        }
      }
    }

    /**
      * Every verifying run that needs a review gets one; `heard` is what is found out about each. `ok` is false exactly
      * when the review of one of them cannot be made ready or run.
      */
    method QueueOutstandingReviews() returns (ok: bool, ghost heard: map<RunID, (Option<Task>, ReviewAnswers)>)
      requires Valid()
      modifies `runs, `lastRun, `clock, `history, `requests
      ensures Valid() && Touches(0) && Grows(old(runs), runs)
      ensures ok ==> forall id :: id in old(runs) && old(runs)[id].status == Verifying ==>
                       id in heard && IsReviewed(runs, old(runs)[id], heard[id].0, heard[id].1, canUpdateTasks)
      ensures !ok ==> exists id :: id in old(runs) && old(runs)[id].status == Verifying
                                   && id in heard && ReviewFails(old(runs)[id], heard[id].0, heard[id].1, canUpdateTasks)
    {
      heard := map[];
      var ids := ListOldestFirst({Verifying}, false);
      for k := 0 to |ids|
        invariant Valid() && Touches(0) && Grows(old(runs), runs)
        invariant AllReviewed(old(runs), runs, ids[..k], heard, canUpdateTasks)
      {
        assert ids[k] in ids;
        ghost var was := runs;
        var target := GetWorkTask(runs[ids[k]].taskID);
        ghost var r;
        ok, r := QueuePostImplementationReview(runs[ids[k]], target);
        if !ok {
          heard := heard[ids[k] := (target, r)];
          return;
        }
        OneMoreReviewed(old(runs), was, runs, ids, k, heard, target, r, canUpdateTasks);
        heard := heard[ids[k] := (target, r)];
      }
      assert ids[..|ids|] == ids;
      return true, heard;
    }

    // ------------------------------------------------------------------- the runner reports

    /**
      * A heartbeat renews the lease, unless the store drops it; a heartbeat under another claim changes nothing. No
      * heartbeat touches attempts or tasks.
      */
    method HeartbeatRun(id: RunID, claim: nat, runner: string) returns (r: Result<Run, Refusal>)
      requires Valid()
      modifies `runs, `lastClaim, `clock, `history
      ensures Valid() && Touches(id) && lastClaim == old(lastClaim)
      ensures attempts == old(attempts) && requests == old(requests)
      ensures r.Ok? <==> id in old(runs) && AcceptsHeartbeat(old(runs)[id], claim, runner)
      ensures r.Err? ==> runs == old(runs) && history == old(history)
      ensures r.Ok? ==> r.value == runs[id] && r.value.attemptCount == old(runs)[id].attemptCount && r.value.claimID == claim
      ensures r.Ok? && Guarded(old(runs)[id].safeSummary) ==> runs == old(runs)
      ensures r.Ok? && !Guarded(old(runs)[id].safeSummary) ==> Beats(old(runs)[id], r.value, clock, claim, runner)
    {
      if id !in runs {
        return Err(NotFound);
      }
      StoredRunIsOk(id);
      var run := runs[id];
      if run.status != Running && run.status != Claiming && run.status != Starting {
        return Err(NotClaimed);
      }
      if claim == 0 || run.claimID == 0 || run.claimID != claim {
        return Err(WrongClaim);
      }
      if run.runnerID != "" && runner != "" && run.runnerID != runner {
        return Err(WrongClaim);
      }
      run := RenewLease(id, claim, runner);
      return Ok(run);
    }

    /**
      * A running run is heard of when its lease has just run out, and then looked at, with its task still open. Under a
      * guarded summary the heartbeat is answered and the run timed out all the same; otherwise not before the lease that
      * the heartbeat brought is over as well.
      */
    method FollowAfterHeartbeat(id: RunID, claim: nat, runner: string, task: Task) returns (answer: Result<Run, Refusal>)
      requires Valid() && canUpdateTasks && id in runs && runs[id].status == Running && AcceptsHeartbeat(runs[id], claim, runner)
      requires OpenTask(task.status) && LeaseExpired(runs[id], clock)
      modifies `runs, `lastRun, `lastClaim, `clock, `history, `requests
      ensures Valid() && TouchesRun(id) && answer.Ok?
      ensures Guarded(old(runs)[id].safeSummary) ==> runs[id].status == Timeout && SameClaim(runs[id], old(runs)[id])
      ensures !Guarded(old(runs)[id].safeSummary) && runs[id].status == Timeout ==>
                old(clock) + LEASE_TTL <= runs[id].leaseExpiresAt <= clock
    {
      answer := HeartbeatRun(id, claim, runner);
      ghost var heard := runs[id];
      assert serviceStart <= clock by { HistoryKeeps(agents, history); }
      ghost var c;
      var ok;
      ok, c := FollowUnfinishedTask(id, task);
      GivenUpWhenOverdue(heard, runs[id], task, c, ok, serviceStart);
    }

    method RenewLease(id: RunID, claim: nat, runner: string) returns (run: Run)
      requires Valid() && id in runs && AcceptsHeartbeat(runs[id], claim, runner)
      modifies `runs, `lastClaim, `clock, `history
      ensures Valid() && Touches(id) && lastClaim == old(lastClaim) && run == runs[id]
      ensures if Guarded(old(runs)[id].safeSummary) && old(runs)[id].status == Running then runs == old(runs)
              else Beats(old(runs)[id], run, clock, claim, runner)
    {
      var now := Now();
      run := runs[id];
      if runner != "" {
        run := run.(runnerID := runner);
      }
      run := UpdateRun(id, Heartbeat(claim, runner), run.(lastHeartbeatAt := now, leaseExpiresAt := now + LEASE_TTL, updatedAt := now));
    }

    /**
      * Whether a report about a run that is not running is taken all the same, given what the work-task service answers
      * when it is asked whether the task belongs to the run (`owner`), and how far it got (`reached`).
      */
    method TakesLateReport(id: RunID, reported: Status, owner: Option<Task>, reached: Option<Task>) returns (takes: bool)
      requires id in runs && runs[id].status != Running
      ensures takes <==> TakesLate(runs[id], id, reported, owner, reached)
    {
      var run := runs[id];
      if run.taskID != "" && owner.Some? && owner.value.claimedByRunID == id && (run.status == Claiming || run.status == Starting) {
        return true;
      }
      if reported != Completed {
        return false;
      }
      if run.status == Verifying {
        return true;
      }
      if run.taskID == "" {
        return false;
      }
      if run.status == Failed && RecoverableGitOps(run.failureCategory) {
        return reached.Some? && OwnsRecovery(reached.value, id, run) && reached.value.closeoutEvidence;
      }
      if run.status != Blocked || !RecoverablePreExecution(run.failureCategory) || reached.None? || reached.value.claimedByRunID != id {
        return false;
      }
      return AdvancedTask(reached.value.status) || reached.value.status == TaskDone;
    }

    /** Reports that tell nothing new: on record already, overtaken by the task, or about a failure the service found itself. */
    method IsSettled(id: RunID, claim: nat, runner: string, reported: Status, answer: Option<Task>) returns (settled: bool)
      requires id in runs && runs[id].status != Running
      ensures settled <==> Settled(runs[id], id, claim, runner, reported, answer)
    {
      var run := runs[id];
      if run.status == reported && (run.claimID == 0 || claim == 0 || run.claimID == claim) {
        return true;
      }
      if reported == Failed && (run.status == Verifying || run.status == Completed) && run.taskID != "" {
        if answer.Some? && answer.value.claimedByRunID == id && (AdvancedTask(answer.value.status) || answer.value.status == TaskDone) {
          return true;
        }
      }
      return reported == Completed && run.status == Failed && run.failureCategory == "confirmed_finding_remediation_missing"
          && ClaimMatchesTerminal(run, claim, runner);
    }

    /**
      * The report that ends an attempt; `h` is what is found out on the way. A report that is not taken is answered
      * without any effect: on the runs, on the attempts on record, or on any task. One that is taken puts its attempt on
      * record and ends the run as reported. No report changes how many attempts have been made, or under which claim.
      */
    method CompleteAttempt(id: RunID, claim: nat, runner: string, reported: Status, failureCategory: string, dirty: bool)
      returns (r: Result<Run, Refusal>, ghost h: Hearing)
      requires Valid()
      modifies `runs, `attempts, `lastRun, `lastClaim, `clock, `history, `requests
      ensures Valid() && TouchesRun(id) && lastClaim == old(lastClaim)
      ensures id in old(runs) ==> SameClaim(runs[id], old(runs)[id])
      ensures id !in old(runs) ==> r == Err(NotFound)
      ensures id in old(runs) && !IsOutcome(reported) ==> r == Err(InvalidStatus)
      ensures id in old(runs) && IsOutcome(reported) && !IsTaken(old(runs)[id], id, claim, runner, reported, h) ==>
                r == if old(runs)[id].status == Running then Err(WrongClaim)
                     else if Settled(old(runs)[id], id, claim, runner, reported, h.settled) then Ok(old(runs)[id])
                     else Err(NotClaimed)
      ensures id !in old(runs) || !IsOutcome(reported) || !IsTaken(old(runs)[id], id, claim, runner, reported, h) ==>
                runs == old(runs) && history == old(history) && attempts == old(attempts) && requests == old(requests)
      ensures id in old(runs) && IsOutcome(reported) && IsTaken(old(runs)[id], id, claim, runner, reported, h) ==>
                && Heard(id, claim, runner, reported, failureCategory, h, r)
                && (reported != Completed && HandsBack(old(runs)[id], reported, failureCategory) && h.way == OutOfScope ==>
                      failureCategory == DIRTY_SCOPE && dirty)
    {
      h := NOT_HEARD;
      if id !in runs {
        return Err(NotFound), h;
      }
      if reported !in {Completed, Failed, Timeout, Blocked, Cancelled} {
        return Err(InvalidStatus), h;
      }
      var answer;
      answer, h := HearReport(id, claim, runner, reported);
      if answer.Some? {
        return answer.value, h;
      }
      TakenIsReportable(runs[id], id, claim, runner, reported, h);
      r, h := RecordReport(id, claim, runner, reported, failureCategory, dirty, h);
    }

    /** Whether a report is to be written down; if not, what is answered. */
    method HearReport(id: RunID, claim: nat, runner: string, reported: Status) returns (answer: Option<Result<Run, Refusal>>, ghost h: Hearing)
      requires id in runs
      ensures answer.None? <==> IsTaken(runs[id], id, claim, runner, reported, h)
      ensures answer.Some? ==>
                answer.value == if runs[id].status == Running then Err(WrongClaim)
                                else if Settled(runs[id], id, claim, runner, reported, h.settled) then Ok(runs[id])
                                else Err(NotClaimed)
    {
      h := NOT_HEARD;
      var run := runs[id];
      if run.status != Running {
        var task := GetWorkTask(run.taskID);
        h := h.(settled := task);
        var settled := IsSettled(id, claim, runner, reported, task);
        if settled {
          return Some(Ok(run)), h;
        }
        var owner := GetWorkTask(run.taskID);
        var reached := GetWorkTask(run.taskID);
        h := h.(owner := owner, reached := reached);
        var takes := TakesLateReport(id, reported, owner, reached);
        return if takes then None else Some(Err(NotClaimed)), h;
      }
      if run.claimID != 0 && run.runnerID != "" {
        if claim == 0 || claim != run.claimID {
          return Some(Err(WrongClaim)), h;
        }
        if runner != "" && runner != run.runnerID {
          return Some(Err(WrongClaim)), h;
        }
      }
      answer := None;
    }

    /**
      * What a report that is taken does. Unless the governance record is refused, the attempt is put on record, and then
      * the run ends as reported; if the attempt cannot be put on record the run fails for that.
      */
    twostate predicate Heard(id: RunID, claim: nat, runner: string, reported: Status, category: string, h: Hearing, new r: Result<Run, Refusal>)
      requires id in old(runs) && id in runs
      reads this
    {
      var was, end := old(runs)[id], runs[id];
      && (r.Ok? ==> r.value == end)
      && (r.Err? ==> r == Err(Refused))
      && if !h.governed then r.Err? && runs == old(runs) && history == old(history) && attempts == old(attempts) && requests == old(requests)
         else if !h.recorded then r.Ok? && Lost(was, end) && attempts == old(attempts) && requests == old(requests)
         else
           && attempts == old(attempts) + [Attempt(id, was.attemptCount, reported, category)]
           && EndsOnReport(was, end, runner, reported, category, h, r.Ok?)
           && (reported == Completed ==> WritesReport(old(history), history, id, claim, runner,
                                                      if h.reviewed then Verifies(Reported(was, h.at, runner, category)) else end))
    }

    method LoseAttempt(id: RunID, claim: nat, runner: string)
      requires Valid() && id in runs && Reportable(runs[id].status) && ClaimMatches(runs[id], claim, runner)
      modifies `runs, `lastClaim, `clock, `history
      ensures Valid() && Touches(id) && lastClaim == old(lastClaim) && SameClaim(runs[id], old(runs)[id])
      ensures Lost(old(runs)[id], runs[id])
    {
      StoredRunIsOk(id);
      var now := Now();
      var lost := runs[id].(status := Failed, failureCategory := ATTEMPT_LOST, finishedAt := now, updatedAt := now);
      WriteOutcome(id, runs[id], Report(claim, runner), lost);
    }

    /** The part of CompleteAttempt that writes: the attempt first, then how the run ends. */
    method RecordReport(id: RunID, claim: nat, runner: string, reported: Status, failureCategory: string, dirty: bool, ghost heard: Hearing)
      returns (r: Result<Run, Refusal>, ghost h: Hearing)
      requires Valid() && id in runs && Reportable(runs[id].status)
      requires ClaimMatches(runs[id], claim, runner) && IsOutcome(reported)
      modifies `runs, `attempts, `lastRun, `lastClaim, `clock, `history, `requests
      ensures Valid() && TouchesRun(id) && lastClaim == old(lastClaim) && SameClaim(runs[id], old(runs)[id])
      ensures Heard(id, claim, runner, reported, failureCategory, h, r)
      ensures h.settled == heard.settled && h.owner == heard.owner && h.reached == heard.reached
      ensures reported != Completed && HandsBack(old(runs)[id], reported, failureCategory) && h.way == OutOfScope ==>
                failureCategory == DIRTY_SCOPE && dirty
    {
      h := NOT_HEARD.(settled := heard.settled, owner := heard.owner, reached := heard.reached);
      var governed := Choose();
      h := h.(governed := governed);
      if !governed {
        return Err(Refused), h;
      }
      var recorded := Choose();
      h := h.(recorded := recorded);
      if !recorded {
        LoseAttempt(id, claim, runner);
        return Ok(runs[id]), h;
      }
      var run := RecordAttempt(id, claim, runner, reported, failureCategory);
      ghost var g := h;
      var ok;
      ok, g := EndAttempt(id, run, claim, runner, reported, dirty);
      h := h.(at := run.updatedAt, reviewed := g.reviewed, look := g.look, way := g.way);
      return if ok then Ok(runs[id]) else Err(Refused), h;
    }

    /** Puts the attempt on record, and enters the report into a copy of the run. */
    method RecordAttempt(id: RunID, claim: nat, runner: string, reported: Status, failureCategory: string) returns (run: Run)
      requires Valid() && id in runs && Reportable(runs[id].status) && ClaimMatches(runs[id], claim, runner)
      modifies `attempts, `clock, `history
      ensures Valid() && TouchesRun(id) && attempts == old(attempts) + [Attempt(id, runs[id].attemptCount, reported, failureCategory)]
      ensures run == Reported(runs[id], clock, runner, failureCategory) && Underway(runs[id], run, Report(claim, runner)) && run.updatedAt <= clock
    {
      StoredRunIsOk(id);
      var now := Now();
      CreateAttempt(claim, runner, Attempt(id, runs[id].attemptCount, reported, failureCategory));
      run := Reported(runs[id], now, runner, failureCategory);
    }

    /** How the run ends, once the attempt is on record. */
    method EndAttempt(id: RunID, run: Run, claim: nat, runner: string, reported: Status, dirty: bool) returns (ok: bool, ghost h: Hearing)
      requires Valid() && id in runs && Underway(runs[id], run, Report(claim, runner)) && run.updatedAt <= clock && IsOutcome(reported)
      modifies `runs, `lastRun, `lastClaim, `clock, `history, `requests
      ensures Valid() && Touches(id) && lastClaim == old(lastClaim) && SameClaim(runs[id], old(runs)[id])
      ensures reported == Completed ==>
                && CompletedAs(run, runs[id], h, ok)
                && WritesReport(old(history), history, id, claim, runner, if h.reviewed then Verifies(run) else runs[id])
      ensures reported != Completed ==> EndsOtherwise(run, old(runs)[id], runs[id], reported, dirty, h.way, ok)
    {
      h := NOT_HEARD;
      if reported == Completed {
        ghost var reviewed, look;
        ok, reviewed, look := EndCompleted(id, run, claim, runner);
        h := h.(reviewed := reviewed, look := look);
      } else {
        ghost var way;
        ok, way := EndOtherwise(id, run, claim, runner, reported, dirty);
        h := h.(way := way);
      }
    }

    /** A completion leads to verification, once the review is queued that the task needs. */
    method EndCompleted(id: RunID, run: Run, claim: nat, runner: string) returns (ok: bool, ghost reviewed: bool, ghost look: Look)
      requires Valid() && id in runs && Underway(runs[id], run, Report(claim, runner)) && run.updatedAt <= clock
      modifies `runs, `lastRun, `lastClaim, `clock, `history, `requests
      ensures Valid() && Touches(id) && lastClaim == old(lastClaim) && SameClaim(runs[id], old(runs)[id])
      ensures if !reviewed then ok && LosesReview(run, runs[id])
              else FollowsVerification(Verifies(run), runs[id], look) && (ok <==> !Stalls(Verifies(run), look))
      ensures WritesReport(old(history), history, id, claim, runner, if reviewed then Verifies(run) else runs[id])
    {
      look := Look(None, None);
      var target := GetWorkTask(run.taskID);
      var queued;
      ghost var answers;
      queued, answers := QueuePostImplementationReview(run, target);
      reviewed := queued;
      ghost var asked := history;
      if queued {
        ok, look := EnterVerification(id, run, claim, runner);
      } else {
        LoseReview(id, run, claim, runner);
        ok := true;
      }
      StillWritten(old(history), asked, history, id, claim, runner, if reviewed then Verifies(run) else runs[id]);
    }

    method EnterVerification(id: RunID, run: Run, claim: nat, runner: string) returns (ok: bool, ghost look: Look)
      requires Valid() && id in runs && Underway(runs[id], run, Report(claim, runner)) && run.updatedAt <= clock
      modifies `runs, `lastRun, `lastClaim, `clock, `history, `requests
      ensures Valid() && Touches(id) && lastClaim == old(lastClaim) && SameClaim(runs[id], old(runs)[id])
      ensures FollowsVerification(Verifies(run), runs[id], look) && (ok <==> !Stalls(Verifies(run), look))
      ensures WritesReport(old(history), history, id, claim, runner, Verifies(run))
    {
      var verifying := run.(status := Verifying, safeSummary := VERIFICATION_REQUIRED);
      WriteOutcome(id, run, Report(claim, runner), verifying);
      ghost var written := history;
      assert written[|old(history)|] == Write(clock, id, Report(claim, runner), verifying);
      ok, look := ReconcileVerifyingRun(id);
      assert history[|old(history)|] == written[|old(history)|];
    }

    method LoseReview(id: RunID, run: Run, claim: nat, runner: string)
      requires Valid() && id in runs && Underway(runs[id], run, Report(claim, runner)) && run.updatedAt <= clock
      modifies `runs, `lastClaim, `clock, `history
      ensures Valid() && Touches(id) && lastClaim == old(lastClaim) && SameClaim(runs[id], old(runs)[id])
      ensures LosesReview(run, runs[id]) && WritesReport(old(history), history, id, claim, runner, runs[id])
    {
      var now := Now();
      var failed := run.(status := Failed, safeSummary := VERIFICATION_REQUIRED, failureCategory := REVIEW_LOST, finishedAt := now, updatedAt := now);
      WriteOutcome(id, run, Report(claim, runner), failed);
      assert history[|old(history)|] == Write(clock, id, Report(claim, runner), failed);
    }

    /** Any other report ends the run as it says; the task of a failed publication goes back to implementation. */
    method EndOtherwise(id: RunID, run: Run, claim: nat, runner: string, reported: Status, dirty: bool) returns (ok: bool, ghost way: HandBack)
      requires Valid() && id in runs && Underway(runs[id], run, Report(claim, runner)) && run.updatedAt <= clock
      requires reported in {Failed, Timeout, Blocked, Cancelled}
      modifies `runs, `lastRun, `lastClaim, `clock, `history, `requests
      ensures Valid() && Touches(id) && lastClaim == old(lastClaim) && SameClaim(runs[id], old(runs)[id])
      ensures EndsOtherwise(run, old(runs)[id], runs[id], reported, dirty, way, ok)
    {
      way := NotAsked;
      if reported == Failed && run.safeSummary == GITOPS_POST_TASK_RECOVERY && GitOpsRecoveryFailure(run.failureCategory) {
        ghost var found, outside;
        ok, found, outside := RequeueTaskAfterGitOpsRecoveryFailure(id, run, Report(claim, runner), run.failureCategory, dirty);
        way := WayBack(canUpdateTasks, run, found, run.failureCategory, dirty, outside);
        return;
      }
      WriteOutcome(id, run, Report(claim, runner), run.(status := reported));
      ok := true;
    }
  }
}
