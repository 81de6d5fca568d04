/**
  * The life of automation runs, as the history of what has been written to the run store. Every rule a write
  * must follow is stated here; that the service follows them is proved in AutomationService.
  */
module RunLifecycle {
  /** Runs and claims are numbered; 0 is the empty identifier. */
  type RunID = nat

  /** Seconds; 0 is Go's zero time. */
  type Time = nat

  const LEASE_TTL: Time := 90
  const DEFAULT_MAX_RETRIES: nat := 3

  const PRE_EXECUTION_RECOVERY := "pre_execution_recovery"
  const GITOPS_POST_TASK_RECOVERY := "gitops_post_task_recovery"
  const REVIEW_QUEUED := "post_implementation_review_queued"
  const VERIFIED_TASK_DONE := "external_codex_cli_verified_task_done"
  const INTERRUPTED := "external_runner_interrupted"

  datatype Status =
    | Queued | Claiming | Starting | Running | Verifying
    | Completed | Failed | Blocked | Cancelled | PolicyDenied | RunnerUnavailable | Timeout

  datatype TaskStatus =
    | TaskUnknown | TaskPlanned | TaskReady | TaskClaimed | TaskInProgress | TaskNeedsReview | TaskVerifying
    | TaskDone | TaskBlocked | TaskFailed | TaskCancelled | TaskSuperseded

  /** An externally executed run. */
  datatype Run = Run(
    automationID: string, planID: string, taskID: string, agentID: string, orchestratorRunID: string,
    status: Status, workTaskStatus: TaskStatus, failureCategory: string, safeSummary: string,
    attemptCount: nat,
    claimID: nat, runnerID: string,
    claimedAt: Time, lastHeartbeatAt: Time, leaseExpiresAt: Time,
    startedAt: Time, finishedAt: Time, createdAt: Time, updatedAt: Time)

  /** What CompleteAttempt records of an attempt of run `run`. */
  datatype Attempt = Attempt(run: RunID, number: nat, status: Status, failureCategory: string)

  type Agents = map<string, int>

  function MaxRetries(agents: Agents, agentID: string): nat {
    if agentID in agents && agents[agentID] > 0 then agents[agentID] else DEFAULT_MAX_RETRIES
  }

  // ------------------------------------------------------------------------ the store

  /** The summaries under which the store refuses to overwrite a run with a running one. */
  predicate Guarded(summary: string) {
    summary == PRE_EXECUTION_RECOVERY || summary == GITOPS_POST_TASK_RECOVERY || summary == REVIEW_QUEUED
  }

  predicate ShouldPreserve(existing: Run, next: Run) {
    next.status == Running && existing.status != Failed && Guarded(next.safeSummary)
  }

  function Stored(existing: Run, next: Run): Run {
    if ShouldPreserve(existing, next) then existing else next
  }

  // ------------------------------------------------------------- what a write may change

  /** Nothing has been claimed yet. */
  predicate Unclaimed(r: Run) {
    r.attemptCount == 0 && r.claimID == 0 && r.claimedAt == 0 && r.lastHeartbeatAt == 0 && r.leaseExpiresAt == 0
  }

  predicate InPreparation(s: Status) {
    s == Queued || s == Claiming || s == Starting
  }

  predicate Prepares(before: Run, next: Run, at: Time) {
    && ((before.status == Queued && next.status == Claiming) || (before.status == Claiming && next.status == Starting))
    && next == before.(status := next.status, workTaskStatus := next.workTaskStatus, taskID := next.taskID,
                       planID := next.planID, updatedAt := at)
  }

  predicate CanRetry(agents: Agents, r: Run) {
    r.attemptCount < MaxRetries(agents, r.agentID)
  }

  /** A claim: the first one of a prepared run, or one more of a run that failed and may be retried, under a guarded summary. */
  predicate Claims(agents: Agents, before: Run, next: Run, at: Time) {
    && (before.status == Claiming || before.status == Starting || ((before.status == Failed || before.status == Blocked) && CanRetry(agents, before)))
    && (Guarded(next.safeSummary) || (next.safeSummary == before.safeSummary && (before.status == Claiming || before.status == Starting)))
    && next == before.(status := Running, workTaskStatus := next.workTaskStatus, attemptCount := before.attemptCount + 1,
                       safeSummary := next.safeSummary, failureCategory := next.failureCategory,
                       startedAt := at, finishedAt := next.finishedAt,
                       claimID := next.claimID, runnerID := next.runnerID,
                       claimedAt := at, lastHeartbeatAt := at, leaseExpiresAt := at + LEASE_TTL, updatedAt := at)
  }

  predicate AcceptsHeartbeat(before: Run, claim: nat, runner: string) {
    && (before.status == Running || before.status == Claiming || before.status == Starting)
    && before.claimID != 0 && claim == before.claimID
    && (before.runnerID == "" || runner == "" || runner == before.runnerID)
  }

  predicate Beats(before: Run, next: Run, at: Time, claim: nat, runner: string) {
    && AcceptsHeartbeat(before, claim, runner)
    && next == before.(runnerID := if runner != "" then runner else before.runnerID,
                       lastHeartbeatAt := at, leaseExpiresAt := at + LEASE_TTL, updatedAt := at)
  }

  /** The claim check of a report; it applies to a running run that carries both a claim and a runner. */
  predicate ClaimMatches(before: Run, claim: nat, runner: string) {
    before.status == Running && before.claimID != 0 && before.runnerID != "" ==>
      claim == before.claimID && (runner == "" || runner == before.runnerID)
  }

  predicate Reports(before: Run, next: Run, at: Time, claim: nat, runner: string) {
    && ClaimMatches(before, claim, runner)
    && before.status in {Claiming, Starting, Running, Verifying, Failed, Blocked}
    && next.status in {Verifying, Timeout, Failed, Blocked, Cancelled}
    && before.updatedAt <= next.updatedAt <= at
    && next == before.(status := next.status, workTaskStatus := next.workTaskStatus, failureCategory := next.failureCategory,
                       safeSummary := next.safeSummary, runnerID := next.runnerID, finishedAt := next.finishedAt,
                       updatedAt := next.updatedAt)
  }

  predicate LeaseExpired(r: Run, now: Time) {
    r.leaseExpiresAt != 0 && r.leaseExpiresAt <= now
  }

  predicate StartedBeforeService(r: Run, serviceStart: Time) {
    var marker := if r.updatedAt != 0 then r.updatedAt else r.startedAt;
    serviceStart != 0 && marker != 0 && marker < serviceStart
  }

  function FinishedBy(r: Run, at: Time): Time {
    if r.finishedAt == 0 then at else r.finishedAt
  }

  /** `seenAt` is the last update of the run as it was read; it was under the same claim then. */
  predicate Interrupts(serviceStart: Time, before: Run, next: Run, at: Time, seenAt: Time) {
    && (before.status == Claiming || before.status == Starting || before.status == Running)
    && before.claimedAt <= seenAt <= before.updatedAt
    && (LeaseExpired(before, at) || StartedBeforeService(before.(updatedAt := seenAt), serviceStart))
    && next == before.(status := Timeout, workTaskStatus := next.workTaskStatus, failureCategory := INTERRUPTED,
                       safeSummary := "external_codex_cli_abandoned_after_restart",
                       finishedAt := FinishedBy(before, at), updatedAt := at)
  }

  predicate Finishes(before: Run, next: Run, at: Time) {
    && before.status != Completed
    && next == before.(status := Completed, workTaskStatus := TaskDone, failureCategory := "",
                       safeSummary := VERIFIED_TASK_DONE, finishedAt := FinishedBy(before, at), updatedAt := at)
  }

  /** Any other write: it reports on the task or ends the run, and leaves attempts and claim alone. */
  predicate Adjusts(before: Run, next: Run, at: Time) {
    && before.status != Completed
    && (next.status == before.status || next.status in {Verifying, Failed, Blocked, Cancelled, PolicyDenied})
    && (next.status == Running ==> next.safeSummary == before.safeSummary)
    && next == before.(status := next.status, workTaskStatus := next.workTaskStatus, failureCategory := next.failureCategory,
                       safeSummary := next.safeSummary, finishedAt := next.finishedAt, updatedAt := at)
  }

  // -------------------------------------------------------------------------- histories

  datatype Kind =
    | Prepare | Claim | Heartbeat(claim: nat, runner: string) | Report(claim: nat, runner: string)
    | Interrupt(seenAt: Time) | Finish | Adjust

  datatype Event =
    | Restart(at: Time)
    | Create(at: Time, id: RunID, run: Run)
    | Write(at: Time, id: RunID, kind: Kind, next: Run)
    | Record(at: Time, claim: nat, runner: string, attempt: Attempt)

  datatype State = State(runs: map<RunID, Run>, attempts: seq<Attempt>, serviceStart: Time, clock: Time, lastClaim: nat)

  const NOTHING := State(map[], [], 0, 0, 0)

  predicate Follows(agents: Agents, s: State, before: Run, e: Event)
    requires e.Write?
  {
    match e.kind
    case Prepare => Prepares(before, e.next, e.at)
    case Claim => Claims(agents, before, e.next, e.at) && e.next.claimID > s.lastClaim
    case Heartbeat(claim, runner) => Beats(before, e.next, e.at, claim, runner)
    case Report(claim, runner) => Reports(before, e.next, e.at, claim, runner)
    case Interrupt(seenAt) => Interrupts(s.serviceStart, before, e.next, e.at, seenAt)
    case Finish => Finishes(before, e.next, e.at)
    case Adjust => Adjusts(before, e.next, e.at)
  }

  predicate Legal(agents: Agents, s: State, e: Event) {
    && 0 < e.at && s.clock <= e.at
    && match e
       case Restart(_) => true
       case Create(at, id, run) => id !in s.runs && Unclaimed(run) && run.createdAt == run.updatedAt == at
                                   && run.status in {Queued, PolicyDenied, RunnerUnavailable, Blocked}
       case Write(_, id, _, _) => id in s.runs && Follows(agents, s, s.runs[id], e)
       case Record(_, claim, runner, attempt) =>
         && attempt.run in s.runs && ClaimMatches(s.runs[attempt.run], claim, runner)
         && attempt.number == s.runs[attempt.run].attemptCount
  }

  function Apply(s: State, e: Event): State {
    var s := s.(clock := e.at);
    match e
    case Restart(at) => s.(serviceStart := at)
    case Create(_, id, run) => s.(runs := s.runs[id := run])
    case Write(_, id, kind, next) =>
      if id !in s.runs then s else
      s.(runs := s.runs[id := Stored(s.runs[id], next)], lastClaim := if kind.Claim? then next.claimID else s.lastClaim)
    case Record(_, _, _, attempt) => s.(attempts := s.attempts + [attempt])
  }

  function After(h: seq<Event>): State {
    if h == [] then NOTHING else Apply(After(h[..|h| - 1]), h[|h| - 1])
  }

  ghost predicate WellFormed(agents: Agents, h: seq<Event>) {
    h == [] || (WellFormed(agents, h[..|h| - 1]) && Legal(agents, After(h[..|h| - 1]), h[|h| - 1]))
  }

  // -------------------------------------------------------------------------- invariant

  ghost predicate RunOk(agents: Agents, s: State, r: Run) {
    && r.attemptCount <= MaxRetries(agents, r.agentID)
    && (r.status == Completed ==> r.workTaskStatus == TaskDone)
    && (InPreparation(r.status) ==> Unclaimed(r))
    && (r.claimedAt == 0 <==> r.attemptCount == 0)
    && (r.claimedAt == 0 <==> r.claimID == 0)
    && (r.status == Running ==> r.claimID != 0)
    && r.claimID <= s.lastClaim
    && r.leaseExpiresAt == (if r.claimedAt == 0 then 0 else r.lastHeartbeatAt + LEASE_TTL)
    && r.claimedAt <= r.lastHeartbeatAt <= r.updatedAt <= s.clock
    && 0 < r.createdAt <= r.updatedAt
  }

  /** The attempt belongs to a run, and to one of the claims that the run has had. */
  ghost predicate AttemptOk(s: State, a: Attempt) {
    a.run in s.runs && a.number <= s.runs[a.run].attemptCount
  }

  ghost predicate Inv(agents: Agents, s: State) {
    && s.serviceStart <= s.clock
    && (forall id :: id in s.runs ==> RunOk(agents, s, s.runs[id]))
    && (forall a :: a in s.attempts ==> AttemptOk(s, a))
  }

  lemma WriteKeeps(agents: Agents, s: State, before: Run, e: Event)
    requires e.Write? && RunOk(agents, s, before) && 0 < e.at && s.clock <= e.at && Follows(agents, s, before, e)
    ensures var t := s.(clock := e.at, lastClaim := if e.kind.Claim? then e.next.claimID else s.lastClaim);
            RunOk(agents, t, Stored(before, e.next))
  {
  }

  lemma StepKeepsRun(agents: Agents, s: State, e: Event, id: RunID)
    requires Inv(agents, s) && Legal(agents, s, e) && id in Apply(s, e).runs
    ensures RunOk(agents, Apply(s, e), Apply(s, e).runs[id])
  {
    if id in s.runs { assert RunOk(agents, s, s.runs[id]); }
    if e.Write? && e.id == id { WriteKeeps(agents, s, s.runs[id], e); }
  }

  lemma StepKeepsAttempt(agents: Agents, s: State, e: Event, a: Attempt)
    requires Inv(agents, s) && Legal(agents, s, e) && a in Apply(s, e).attempts
    ensures AttemptOk(Apply(s, e), a)
  {
    if a in s.attempts { assert AttemptOk(s, a); }
  }

  lemma StepKeeps(agents: Agents, s: State, e: Event)
    requires Inv(agents, s) && Legal(agents, s, e)
    ensures Inv(agents, Apply(s, e))
  {
    forall id | id in Apply(s, e).runs ensures RunOk(agents, Apply(s, e), Apply(s, e).runs[id]) {
      StepKeepsRun(agents, s, e, id);
    }
    forall a | a in Apply(s, e).attempts ensures AttemptOk(Apply(s, e), a) {
      StepKeepsAttempt(agents, s, e, a);
    }
  }

  /** The invariant holds after every history of the service, over any number of restarts. */
  lemma {:induction false} HistoryKeeps(agents: Agents, h: seq<Event>)
    requires WellFormed(agents, h)
    ensures Inv(agents, After(h))
    decreases |h|
  {
    if h != [] {
      HistoryKeeps(agents, h[..|h| - 1]);
      StepKeeps(agents, After(h[..|h| - 1]), h[|h| - 1]);
    }
  }

  lemma {:induction false} PrefixIsWellFormed(agents: Agents, h: seq<Event>, n: nat)
    requires WellFormed(agents, h) && n <= |h|
    ensures WellFormed(agents, h[..n])
    decreases |h|
  {
    if n == |h| {
      assert h[..n] == h;
    } else {
      assert h[..|h| - 1][..n] == h[..n];
      PrefixIsWellFormed(agents, h[..|h| - 1], n);
    }
  }

  // ---------------------------------------------------------------------- retry bound

  /** The event claims run `id`, and the store keeps the claim. */
  predicate TakesEffect(s: State, e: Event, id: RunID) {
    e.Write? && e.id == id && e.kind.Claim? && id in s.runs && !ShouldPreserve(s.runs[id], e.next)
  }

  /** The claims of a run that took effect. */
  function ClaimsIssued(h: seq<Event>, id: RunID): nat {
    if h == [] then 0 else
    var s, e := After(h[..|h| - 1]), h[|h| - 1];
    ClaimsIssued(h[..|h| - 1], id) + if TakesEffect(s, e, id) then 1 else 0
  }

  lemma {:induction false} NotCreatedNotClaimed(h: seq<Event>, id: RunID)
    requires id !in After(h).runs
    ensures ClaimsIssued(h, id) == 0
    decreases |h|
  {
    if h != [] { NotCreatedNotClaimed(h[..|h| - 1], id); }
  }

  lemma StepCounts(agents: Agents, s: State, e: Event, id: RunID)
    requires Legal(agents, s, e) && id in Apply(s, e).runs
    ensures Apply(s, e).runs[id].attemptCount
            == (if id in s.runs then s.runs[id].attemptCount else 0) + (if TakesEffect(s, e, id) then 1 else 0)
  {
  }

  /** In every history a run's attempts are its claims, and there are never more than its agent may retry. */
  lemma {:induction false} RetryBound(agents: Agents, h: seq<Event>, id: RunID)
    requires WellFormed(agents, h) && id in After(h).runs
    ensures After(h).runs[id].attemptCount == ClaimsIssued(h, id) <= MaxRetries(agents, After(h).runs[id].agentID)
    decreases |h|
  {
    var past, e := h[..|h| - 1], h[|h| - 1];
    StepCounts(agents, After(past), e, id);
    if id in After(past).runs {
      RetryBound(agents, past, id);
    } else {
      NotCreatedNotClaimed(past, id);
    }
    HistoryKeeps(agents, h);
    assert RunOk(agents, After(h), After(h).runs[id]);
  }

  /** A run that waits for its first claim has made no attempt, and neither has a run that was never claimed. */
  lemma NoAttemptWithoutClaim(agents: Agents, h: seq<Event>, id: RunID)
    requires WellFormed(agents, h) && id in After(h).runs
    ensures var r := After(h).runs[id];
            && (r.status == Queued ==> r.attemptCount == 0)
            && (r.claimedAt == 0 ==> r.attemptCount == 0)
  {
    HistoryKeeps(agents, h);
    assert RunOk(agents, After(h), After(h).runs[id]);
  }

  // ------------------------------------------------------------------------ completion

  lemma CompletedIsUntouched(agents: Agents, s: State, e: Event, id: RunID)
    requires Legal(agents, s, e) && id in s.runs && s.runs[id].status == Completed
    ensures id in Apply(s, e).runs && Apply(s, e).runs[id] == s.runs[id]
  {
  }

  /** A completed run carries a task that is done, and nothing that happens later changes it. */
  lemma {:induction false} CompletedForGood(agents: Agents, h: seq<Event>, n: nat, id: RunID)
    requires WellFormed(agents, h) && n <= |h|
    requires id in After(h[..n]).runs && After(h[..n]).runs[id].status == Completed
    ensures id in After(h).runs && After(h).runs[id] == After(h[..n]).runs[id]
    ensures After(h).runs[id].workTaskStatus == TaskDone
    decreases |h|
  {
    HistoryKeeps(agents, h);
    if n == |h| {
      assert h[..n] == h;
      assert RunOk(agents, After(h), After(h).runs[id]);
    } else {
      var past := h[..|h| - 1];
      assert past[..n] == h[..n];
      CompletedForGood(agents, past, n, id);
      CompletedIsUntouched(agents, After(past), h[|h| - 1], id);
    }
  }

  // --------------------------------------------------------------------------- fencing

  /** `c` is a claim the run was given at some time in `h`. */
  ghost predicate Held(h: seq<Event>, id: RunID, c: nat) {
    exists n :: 0 < n <= |h| && id in After(h[..n]).runs && After(h[..n]).runs[id].claimID == c != 0
  }

  /** What `now` may have become of `was`: claims only grow, and without a new claim nothing starts running. */
  predicate Ages(was: Run, now: Run) {
    && was.createdAt == now.createdAt && was.claimID <= now.claimID && was.updatedAt <= now.updatedAt
    && (was.claimID == now.claimID ==>
          && was.claimedAt == now.claimedAt
          && (now.status == Running ==> was.status == Running && now.safeSummary == was.safeSummary))
  }

  lemma WriteAges(agents: Agents, s: State, before: Run, e: Event)
    requires RunOk(agents, s, before) && e.Write? && 0 < e.at && s.clock <= e.at && Follows(agents, s, before, e)
    ensures Ages(before, Stored(before, e.next))
  {
  }

  /** A run's claim never goes back; a running run that still has the claim it had has run under the same summary since. */
  lemma {:induction false} RunAges(agents: Agents, h: seq<Event>, n: nat, id: RunID)
    requires WellFormed(agents, h) && n <= |h| && id in After(h[..n]).runs
    ensures id in After(h).runs
    ensures Ages(After(h[..n]).runs[id], After(h).runs[id])
    decreases |h|
  {
    if n == |h| {
      assert h[..n] == h;
    } else {
      var past := h[..|h| - 1];
      assert past[..n] == h[..n];
      RunAges(agents, past, n, id);
      HistoryKeeps(agents, past);
      assert RunOk(agents, After(past), After(past).runs[id]);
      var e := h[|h| - 1];
      if e.Write? && e.id == id { WriteAges(agents, After(past), After(past).runs[id], e); }
    }
  }

  /** What a runner sends about run `id` under `claim`: a heartbeat, a report, or the attempt that goes with it. */
  predicate Carries(e: Event, id: RunID, claim: nat, runner: string) {
    || (e.Write? && e.id == id && (e.kind == Heartbeat(claim, runner) || e.kind == Report(claim, runner)))
    || (e.Record? && e.attempt.run == id && e.claim == claim && e.runner == runner)
  }

  /**
    * Once a running run has been claimed again, with a runner, no earlier claim gets anywhere: neither a report nor
    * a heartbeat that carries it is a legal write, nor is an attempt recorded for it, at any later time before the
    * next claim.
    */
  lemma StaleClaimIsFenced(agents: Agents, h: seq<Event>, id: RunID, stale: nat, runner: string, e: Event)
    requires WellFormed(agents, h) && id in After(h).runs && After(h).runs[id].status == Running && After(h).runs[id].runnerID != ""
    requires Held(h, id, stale) && stale != After(h).runs[id].claimID && Carries(e, id, stale, runner)
    ensures stale < After(h).runs[id].claimID
    ensures !Legal(agents, After(h), e)
  {
    var n :| 0 < n <= |h| && id in After(h[..n]).runs && After(h[..n]).runs[id].claimID == stale != 0;
    RunAges(agents, h, n, id);
    HistoryKeeps(agents, h);
    assert RunOk(agents, After(h), After(h).runs[id]);
  }

  /** A failure reported about a running run now, before anything else happens. */
  function FailureReport(s: State, id: RunID, claim: nat, runner: string): Event
    requires id in s.runs
  {
    Write(s.clock, id, Report(claim, runner), s.runs[id].(status := Failed, finishedAt := s.clock, updatedAt := s.clock))
  }

  /** Which reports on a running run are legal: those under its own claim, and all of them if it carries no runner. */
  lemma ReportsAcceptedExactly(agents: Agents, h: seq<Event>, id: RunID, claim: nat, runner: string)
    requires WellFormed(agents, h) && id in After(h).runs && After(h).runs[id].status == Running
    ensures var r := After(h).runs[id];
            (exists e: Event :: e.Write? && e.id == id && e.kind == Report(claim, runner) && Legal(agents, After(h), e))
            <==> r.runnerID == "" || (claim == r.claimID && (runner == "" || runner == r.runnerID))
  {
    HistoryKeeps(agents, h);
    var s := After(h);
    assert RunOk(agents, s, s.runs[id]);
    var e := FailureReport(s, id, claim, runner);
    assert ClaimMatches(s.runs[id], claim, runner) ==> Legal(agents, s, e);
  }

  // ---------------------------------------------------------------------------- leases

  /** The event is a claim or a heartbeat of run `id`. */
  predicate Heard(e: Event, id: RunID) {
    e.Write? && e.id == id && (e.kind.Claim? || e.kind.Heartbeat?)
  }

  /** When the runner was last heard of: the time of the latest claim or heartbeat, whether the store kept it or not. */
  function LastHeard(h: seq<Event>, id: RunID): Time {
    if h == [] then 0 else
    var e := h[|h| - 1];
    if Heard(e, id) then e.at else LastHeard(h[..|h| - 1], id)
  }

  predicate KeepsLease(r: Run) {
    r.status == Running && !Guarded(r.safeSummary)
  }

  lemma StepHears(agents: Agents, s: State, e: Event, id: RunID)
    requires Legal(agents, s, e) && id in Apply(s, e).runs && KeepsLease(Apply(s, e).runs[id])
    ensures if Heard(e, id) then Apply(s, e).runs[id].lastHeartbeatAt == e.at
            else id in s.runs && KeepsLease(s.runs[id]) && Apply(s, e).runs[id].lastHeartbeatAt == s.runs[id].lastHeartbeatAt
  {
  }

  /** The store keeps all that the runner of a running run sends, unless the run carries a guarded summary. */
  lemma {:induction false} HeardIsRecorded(agents: Agents, h: seq<Event>, id: RunID)
    requires WellFormed(agents, h) && id in After(h).runs && KeepsLease(After(h).runs[id])
    ensures After(h).runs[id].lastHeartbeatAt == LastHeard(h, id)
    decreases |h|
  {
    var past, e := h[..|h| - 1], h[|h| - 1];
    StepHears(agents, After(past), e, id);
    if !Heard(e, id) { HeardIsRecorded(agents, past, id); }
  }

  /**
    * A run claimed since the service started is given up only when its runner has not been heard of for 90 seconds,
    * as long as it does not carry a guarded summary.
    */
  lemma LeaseSafety(agents: Agents, h: seq<Event>, e: Event)
    requires WellFormed(agents, h) && e.Write? && e.kind.Interrupt? && Legal(agents, After(h), e)
    requires After(h).serviceStart <= After(h).runs[e.id].claimedAt != 0 && !Guarded(After(h).runs[e.id].safeSummary)
    ensures LastHeard(h, e.id) + LEASE_TTL <= e.at
  {
    HistoryKeeps(agents, h);
    assert RunOk(agents, After(h), After(h).runs[e.id]);
    HeardIsRecorded(agents, h, e.id);
  }

  /** Whoever is given up had an expired lease, or was read as last written, under the same claim, before the service started. */
  lemma InterruptionHasCause(agents: Agents, h: seq<Event>, e: Event)
    requires WellFormed(agents, h) && e.Write? && e.kind.Interrupt? && Legal(agents, After(h), e)
    ensures var r := After(h).runs[e.id];
            || (r.claimedAt != 0 && r.lastHeartbeatAt + LEASE_TTL <= e.at)
            || r.claimedAt <= e.kind.seenAt < After(h).serviceStart
  {
    HistoryKeeps(agents, h);
    assert RunOk(agents, After(h), After(h).runs[e.id]);
  }

  // --------------------------------------------------- where the store drops what it is sent

  /** A heartbeat of a running run is dropped exactly when the run carries one of the guarded summaries. */
  lemma HeartbeatDroppedExactly(agents: Agents, s: State, e: Event)
    requires Legal(agents, s, e) && e.Write? && e.kind.Heartbeat? && s.runs[e.id].status == Running && Inv(agents, s)
    requires s.runs[e.id].leaseExpiresAt < e.at + LEASE_TTL
    ensures Apply(s, e).runs[e.id] == s.runs[e.id] <==> Guarded(s.runs[e.id].safeSummary)
  {
  }

  ghost predicate OnlyHeartbeats(h: seq<Event>, n: nat, id: RunID) {
    forall k :: n <= k < |h| ==> h[k].Write? && h[k].id == id && h[k].kind.Heartbeat?
  }

  /** So however often a recovered run's runner reports, the run keeps the lease of its claim ... */
  lemma {:induction false} GuardedRunIgnoresHeartbeats(agents: Agents, h: seq<Event>, n: nat, id: RunID)
    requires WellFormed(agents, h) && n <= |h| && OnlyHeartbeats(h, n, id)
    requires id in After(h[..n]).runs && After(h[..n]).runs[id].status == Running && Guarded(After(h[..n]).runs[id].safeSummary)
    ensures id in After(h).runs && After(h).runs[id] == After(h[..n]).runs[id] && After(h).serviceStart == After(h[..n]).serviceStart
    decreases |h|
  {
    if n == |h| {
      assert h[..n] == h;
    } else {
      var past := h[..|h| - 1];
      assert past[..n] == h[..n];
      assert OnlyHeartbeats(past, n, id);
      GuardedRunIgnoresHeartbeats(agents, past, n, id);
      assert h[|h| - 1].kind.Heartbeat?;
    }
  }

  /** ... and may be given up as soon as that lease is over, even if the runner has just been heard of. */
  lemma GuardedRunIsLost(agents: Agents, h: seq<Event>, n: nat, id: RunID, at: Time, task: TaskStatus) returns (e: Event)
    requires WellFormed(agents, h) && n <= |h| && OnlyHeartbeats(h, n, id)
    requires id in After(h[..n]).runs && After(h[..n]).runs[id].status == Running && Guarded(After(h[..n]).runs[id].safeSummary)
    requires After(h).clock <= at && After(h[..n]).runs[id].lastHeartbeatAt + LEASE_TTL <= at
    ensures e.Write? && e.id == id && e.kind.Interrupt? && e.at == at && Legal(agents, After(h), e)
    ensures Apply(After(h), e).runs[id].status == Timeout && Apply(After(h), e).runs[id].failureCategory == INTERRUPTED
  {
    GuardedRunIgnoresHeartbeats(agents, h, n, id);
    HistoryKeeps(agents, h);
    var r := After(h).runs[id];
    assert RunOk(agents, After(h), r);
    var next := r.(status := Timeout, workTaskStatus := task, failureCategory := INTERRUPTED,
                   safeSummary := "external_codex_cli_abandoned_after_restart", finishedAt := FinishedBy(r, at), updatedAt := at);
    e := Write(at, id, Interrupt(r.updatedAt), next);
  }

  lemma OneMore(agents: Agents, h: seq<Event>, e: Event)
    requires WellFormed(agents, h) && Legal(agents, After(h), e)
    ensures WellFormed(agents, h + [e]) && After(h + [e]) == Apply(After(h), e)
    ensures (h + [e])[..|h|] == h
  {
    assert (h + [e])[..|h|] == h;
  }

  /**
    * After `later`, which goes on from `h`, the run can be given up by `e` although its runner has been heard of
    * less than 90 seconds ago, still under the claim it had, which was made since the service started.
    */
  ghost predicate LosesLease(agents: Agents, h: seq<Event>, id: RunID, later: seq<Event>, e: Event)
    requires id in After(h).runs
  {
    && |h| <= |later| && later[..|h|] == h && WellFormed(agents, later)
    && e.Write? && e.id == id && e.kind.Interrupt? && Legal(agents, After(later), e)
    && After(later).runs[id].claimID == After(h).runs[id].claimID
    && After(later).serviceStart <= After(later).runs[id].claimedAt
    && e.at < LastHeard(later, id) + LEASE_TTL
  }

  lemma UnguardedKeepsLease(agents: Agents, h: seq<Event>, id: RunID, later: seq<Event>, e: Event)
    requires WellFormed(agents, h) && id in After(h).runs && After(h).runs[id].status == Running && LosesLease(agents, h, id, later, e)
    ensures Guarded(After(h).runs[id].safeSummary)
  {
    HistoryKeeps(agents, h);
    assert RunOk(agents, After(h), After(h).runs[id]);
    HistoryKeeps(agents, later);
    assert RunOk(agents, After(later), After(later).runs[id]);
    RunAges(agents, later, |h|, id);
    if !Guarded(After(later).runs[id].safeSummary) { LeaseSafety(agents, later, e); }
  }

  /** One more heartbeat at the end of its lease does not help a guarded run. */
  lemma GuardedLosesLease(agents: Agents, h: seq<Event>, id: RunID) returns (later: seq<Event>, e: Event)
    requires WellFormed(agents, h) && id in After(h).runs && After(h).runs[id].status == Running
    requires After(h).serviceStart <= After(h).runs[id].claimedAt && Guarded(After(h).runs[id].safeSummary)
    ensures LosesLease(agents, h, id, later, e)
  {
    HistoryKeeps(agents, h);
    var s := After(h);
    var r := s.runs[id];
    assert RunOk(agents, s, r);
    var at := if s.clock < r.leaseExpiresAt then r.leaseExpiresAt else s.clock;
    var beat := Write(at, id, Heartbeat(r.claimID, ""), r.(lastHeartbeatAt := at, leaseExpiresAt := at + LEASE_TTL, updatedAt := at));
    OneMore(agents, h, beat);
    later := h + [beat];
    assert h[..|h|] == h && later[..|h|] == h;
    e := GuardedRunIsLost(agents, later, |h|, id, at, r.workTaskStatus);
    GuardedRunIgnoresHeartbeats(agents, later, |h|, id);
  }

  /**
    * The lease promise: a run claimed since the service started can be given up within 90 seconds of being heard of,
    * under that claim, if and only if it carries a guarded summary.
    */
  lemma LeaseLostExactly(agents: Agents, h: seq<Event>, id: RunID)
    requires WellFormed(agents, h) && id in After(h).runs && After(h).runs[id].status == Running
    requires After(h).serviceStart <= After(h).runs[id].claimedAt
    ensures (exists later, e :: LosesLease(agents, h, id, later, e)) <==> Guarded(After(h).runs[id].safeSummary)
  {
    if later, e :| LosesLease(agents, h, id, later, e) {
      UnguardedKeepsLease(agents, h, id, later, e);
    }
    if Guarded(After(h).runs[id].safeSummary) {
      var later, e := GuardedLosesLease(agents, h, id);
    }
  }

  const SUBMITTED := Run("automation", "plan", "task", "agent", "", Queued, TaskReady, "", "", 0, 0, "", 0, 0, 0, 0, 0, 1, 1)
  const FIRST_CLAIM := SUBMITTED.(status := Running, attemptCount := 1, startedAt := 1, claimID := 1, runnerID := "w", claimedAt := 1,
                                  lastHeartbeatAt := 1, leaseExpiresAt := 1 + LEASE_TTL)

  function Alone(run: Run): State {
    State(map[1 := run], [], 1, 1, 0)
  }

  lemma SubmittedRun() returns (h: seq<Event>)
    ensures WellFormed(map[], h) && After(h) == Alone(SUBMITTED)
  {
    OneMore(map[], [], Restart(1));
    h := [] + [Restart(1)];
    OneMore(map[], h, Create(1, 1, SUBMITTED));
    h := h + [Create(1, 1, SUBMITTED)];
  }

  lemma StartingRun() returns (h: seq<Event>)
    ensures WellFormed(map[], h) && After(h) == Alone(SUBMITTED.(status := Starting))
  {
    h := SubmittedRun();
    var claiming := Write(1, 1, Prepare, SUBMITTED.(status := Claiming));
    OneMore(map[], h, claiming);
    h := h + [claiming];
    assert After(h) == Alone(SUBMITTED.(status := Claiming));
    var starting := Write(1, 1, Prepare, SUBMITTED.(status := Starting));
    OneMore(map[], h, starting);
    h := h + [starting];
  }

  lemma ClaimedRun() returns (h: seq<Event>)
    ensures WellFormed(map[], h) && After(h) == Alone(FIRST_CLAIM).(lastClaim := 1)
  {
    h := StartingRun();
    OneMore(map[], h, Write(1, 1, Claim, FIRST_CLAIM));
    h := h + [Write(1, 1, Claim, FIRST_CLAIM)];
  }

  /** A run whose worktree could not be prepared, claimed again at time 3 as the recovery from that failure does. */
  lemma RecoveredRun(runner: string) returns (h: seq<Event>)
    ensures WellFormed(map[], h) && 1 in After(h).runs && After(h).clock == 3 && After(h).serviceStart == 1 && Held(h, 1, 1)
    ensures var r := After(h).runs[1];
            && r.status == Running && r.safeSummary == PRE_EXECUTION_RECOVERY && r.claimID == 2 && r.runnerID == runner
            && r.claimedAt == r.lastHeartbeatAt == r.updatedAt == 3 && r.leaseExpiresAt == 3 + LEASE_TTL
  {
    var failed := FIRST_CLAIM.(status := Failed, failureCategory := "worktree_prepare_failed", finishedAt := 2, updatedAt := 2);
    var again := failed.(status := Running, safeSummary := PRE_EXECUTION_RECOVERY, failureCategory := "", attemptCount := 2, startedAt := 3,
                         finishedAt := 0, claimID := 2, runnerID := runner, claimedAt := 3, lastHeartbeatAt := 3,
                         leaseExpiresAt := 3 + LEASE_TTL, updatedAt := 3);
    var first := ClaimedRun();
    var report := Write(2, 1, Report(1, "w"), failed);
    OneMore(map[], first, report);
    var second := first + [report];
    var claim := Write(3, 1, Claim, again);
    OneMore(map[], second, claim);
    h := second + [claim];
    assert h[..|first|] == first;
  }

  /** The lease promise is broken in such a run: heard of at 60, it is given up at 93, after 33 seconds of silence. */
  lemma LeaseCanBeLost() returns (h: seq<Event>, e: Event)
    ensures WellFormed(map[], h) && e.Write? && e.kind.Interrupt? && Legal(map[], After(h), e)
    ensures After(h).serviceStart <= After(h).runs[e.id].claimedAt
    ensures LastHeard(h, e.id) + 33 == e.at
  {
    var before := RecoveredRun("w");
    var r := After(before).runs[1];
    var beat := Write(60, 1, Heartbeat(2, "w"), r.(lastHeartbeatAt := 60, leaseExpiresAt := 60 + LEASE_TTL, updatedAt := 60));
    OneMore(map[], before, beat);
    h := before + [beat];
    assert h[..|before|] == before;
    assert OnlyHeartbeats(h, |before|, 1);
    e := GuardedRunIsLost(map[], h, |before|, 1, 93, TaskInProgress);
  }

  /** The claim under "w" is over, the run is claimed anew by a runner without an ID, and "w" still reports: it is believed. */
  lemma StaleReportIsAccepted() returns (h: seq<Event>, e: Event)
    ensures WellFormed(map[], h) && 1 in After(h).runs && After(h).runs[1].status == Running && After(h).runs[1].claimID == 2
    ensures Held(h, 1, 1) && e.Write? && e.id == 1 && e.kind == Report(1, "w") && Legal(map[], After(h), e)
    ensures Apply(After(h), e).runs[1].status == Failed
  {
    h := RecoveredRun("");
    e := FailureReport(After(h), 1, 1, "w");
  }

  /** A guarded claim takes effect on a failed run, and on no other. */
  lemma GuardedClaimTakesExactly(agents: Agents, s: State, e: Event)
    requires Inv(agents, s) && Legal(agents, s, e) && e.Write? && e.kind.Claim? && Guarded(e.next.safeSummary)
    ensures Apply(s, e).runs[e.id] == e.next <==> s.runs[e.id].status == Failed
    ensures Apply(s, e).runs[e.id] == s.runs[e.id] <==> s.runs[e.id].status != Failed
  {
  }
}
