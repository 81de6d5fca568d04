/** When the pool of workers is stuck for good, and that one full scan at a bad moment is enough. */
module SchedulerStuck {
  import opened Wrappers
  import opened Counting
  import opened SchedulerSpec
  import opened SchedulerProtocol
  import opened SchedulerGuarantees
  import opened SchedulerRuns

  /** A project-wide task of `p` sits in the full queue. */
  predicate Scanned(s: State, p: ProjectID) {
    exists i :: 0 <= i < |s.full| && s.full[i].project == p
  }

  /** The worker holds a path task that must let such a task go first. */
  predicate StuckWorker(s: State, phase: Phase) {
    (phase.Holding? || phase.Blocked?) && !phase.task.ProjectWide() && Scanned(s, phase.task.project)
  }

  function Tries(): Worker -> bool {
    (w: Worker) => w.phase.TryingLive?
  }

  /** The worker is stuck, or bound to take the next live task; and nothing will cancel what it does. */
  predicate Hopeless(s: State, w: nat)
    requires w < |s.workers|
  {
    var phase := s.workers[w].phase;
    phase.Exited? || (!Cancelled(s, w) && (phase.TryingLive? || StuckWorker(s, phase)))
  }

  /**
    No worker is left that could take a project-wide task off the full queue: each holds a path task that waits for one
    there, or is about to take such a task off the live queue, or has exited.
   */
  ghost predicate Stuck(s: State) {
    && s.started
    && (forall w :: 0 <= w < |s.workers| ==> Hopeless(s, w))
    && Count(s.workers, Tries()) <= |s.live|
    && (forall j :: 0 <= j < Count(s.workers, Tries()) ==> Scanned(s, s.live[j].project))
  }

  // ---------------------------------------------------------------- once stuck, stuck for good

  lemma StuckIsRefused(o: Options, s: State, phase: Phase)
    requires Inv(o, s) && StuckWorker(s, phase)
    ensures !Admits(s.lock, o.perProjectLimit, phase.task)
  {
    var p := phase.task.project;
    assert AgreesAt(o, s, p);
    CountNone(s.full, Queues(p));
    var i :| 0 <= i < |s.full| && s.full[i].project == p;
    assert Queues(p)(s.full[i]);
  }

  /** The queues have only grown at their ends. */
  predicate QueuesGrow(s: State, t: State) {
    s.live <= t.live && s.full <= t.full
  }

  lemma ScannedStays(s: State, t: State, p: ProjectID)
    requires Scanned(s, p) && s.full <= t.full
    ensures Scanned(t, p)
  {
    var i :| 0 <= i < |s.full| && s.full[i].project == p;
    assert t.full[i] == s.full[i];
  }

  lemma SubmittersKeepStuck(o: Options, s: State, a: Action)
    requires Stuck(s) && (a.Submit? || a.Enqueue? || a.CancelEnqueue? || a.QueueFull?) && Step(o, s, a).Some?
    ensures Stuck(Step(o, s, a).value)
  {
    var t := Step(o, s, a).value;
    assert QueuesGrow(s, t) && t.workers == s.workers && t.started == s.started && t.cancelled == s.cancelled;
    SameWorkersKeepStuck(s, t);
  }

  lemma SameWorkersKeepStuck(s: State, t: State)
    requires Stuck(s) && QueuesGrow(s, t) && t.workers == s.workers && t.started == s.started && t.cancelled == s.cancelled
    ensures Stuck(t)
  {
    forall w | 0 <= w < |t.workers| ensures Hopeless(t, w) {
      assert Hopeless(s, w);
      if StuckWorker(s, s.workers[w].phase) { ScannedStays(s, t, s.workers[w].phase.task.project); }
    }
    forall j | 0 <= j < Count(t.workers, Tries()) ensures Scanned(t, t.live[j].project) {
      assert Scanned(s, s.live[j].project);
      ScannedStays(s, t, s.live[j].project);
    }
  }

  /** A stuck worker can only be woken, look again, and block again. */
  lemma StuckTurn(o: Options, s: State, a: Action)
    requires Inv(o, s) && Stuck(s) && StepsWorker(a) && StepWorker(o, s, a).Some? && StuckWorker(s, s.workers[a.w].phase)
    ensures var t := StepWorker(o, s, a).value;
            exists phase: Phase :: (phase.Holding? || phase.Blocked?) && phase.task == s.workers[a.w].phase.task
                                   && t == SetPhase(s, a.w, phase).(lock := t.lock)
  {
    var t := StepWorker(o, s, a).value;
    assert Hopeless(s, a.w);
    StuckIsRefused(o, s, s.workers[a.w].phase);
    assert t == SetPhase(s, a.w, t.workers[a.w].phase).(lock := t.lock);
  }

  predicate StepsWorker(a: Action) {
    a.Poll? || a.PollQueue? || a.TakeLive? || a.TakeFull? || a.Exit? || a.Acquire? || a.Wake? || a.GiveUp? || a.Fail? || a.Finish?
  }

  lemma StuckTurnKeeps(o: Options, s: State, a: Action)
    requires Inv(o, s) && Stuck(s) && StepsWorker(a) && StepWorker(o, s, a).Some? && StuckWorker(s, s.workers[a.w].phase)
    ensures Stuck(StepWorker(o, s, a).value)
  {
    StuckTurn(o, s, a);
    var t := StepWorker(o, s, a).value;
    CountUpdate(s.workers, a.w, t.workers[a.w], Tries());
    forall w | 0 <= w < |t.workers| ensures Hopeless(t, w) {
      assert Hopeless(s, w);
    }
  }

  /** A worker that looks for a live task finds one, and is stuck with it. */
  lemma TryingTurnKeeps(o: Options, s: State, w: nat)
    requires Inv(o, s) && Stuck(s) && w < |s.workers| && s.workers[w].phase.TryingLive?
    ensures s.live != [] && Stuck(TakeFrom(s, w, false))
  {
    CountNone(s.workers, Tries());
    assert Tries()(s.workers[w]) && Scanned(s, s.live[0].project);
    var t := TakeFrom(s, w, false);
    CountUpdate(s.workers, w, t.workers[w], Tries());
    forall v | 0 <= v < |t.workers| ensures Hopeless(t, v) {
      assert Hopeless(s, v);
    }
    forall j | 0 <= j < Count(t.workers, Tries()) ensures Scanned(t, t.live[j].project) {
      assert t.live[j] == s.live[j + 1] && Scanned(s, s.live[j + 1].project);
    }
  }

  lemma StuckStep(o: Options, s: State, a: Action)
    requires OptionsOk(o) && Inv(o, s) && Stuck(s) && Step(o, s, a).Some? && !Disturbs(a)
    ensures Stuck(Step(o, s, a).value)
  {
    if a.Submit? || a.Enqueue? || a.CancelEnqueue? || a.QueueFull? {
      SubmittersKeepStuck(o, s, a);
    } else {
      assert StepsWorker(a) && Step(o, s, a) == StepWorker(o, s, a);
      assert Hopeless(s, a.w);
      if s.workers[a.w].phase.TryingLive? {
        TryingTurnKeeps(o, s, a.w);
      } else {
        StuckTurnKeeps(o, s, a);
      }
    }
  }

  lemma {:induction false} StuckRun(o: Options, s: State, steps: seq<Action>)
    requires OptionsOk(o) && Inv(o, s) && Stuck(s) && Undisturbed(steps) && Run(o, s, steps).Some?
    ensures Stuck(Run(o, s, steps).value)
    decreases |steps|
  {
    if steps != [] {
      StuckStep(o, s, steps[0]);
      StepKeeps(o, s, steps[0]);
      StuckRun(o, Step(o, s, steps[0]).value, steps[1..]);
    }
  }

  predicate RunsAt(s: State, w: nat) {
    w < |s.workers| && s.workers[w].phase.Running?
  }

  /** Some continuation has a worker run a task. */
  ghost predicate CanStart(o: Options, s: State) {
    exists t: State, w: nat :: Leads(o, s, t) && RunsAt(t, w)
  }

  /** Once stuck, the pool stays stuck whatever happens, and no worker ever runs a task again, until somebody stops it. */
  lemma StuckForever(o: Options, s: State, t: State)
    requires OptionsOk(o) && Reachable(o, s) && Stuck(s) && Leads(o, s, t)
    ensures Stuck(t) && forall w: nat :: !RunsAt(t, w)
  {
    ReachableInv(o, s);
    var steps :| Undisturbed(steps) && Run(o, s, steps) == Some(t);
    StuckRun(o, s, steps);
    forall w: nat | w < |t.workers| ensures !RunsAt(t, w) {
      assert Hopeless(t, w);
    }
  }

  // --------------------------------------------------------------- and otherwise never

  ghost predicate NoneRuns(s: State) {
    forall w: nat :: !RunsAt(s, w)
  }

  lemma StartsOn(o: Options, s: State, t: State)
    requires Leads(o, s, t) && CanStart(o, t)
    ensures CanStart(o, s)
  {
    var u: State, w: nat :| Leads(o, t, u) && RunsAt(u, w);
    LeadsOn(o, s, t, u);
  }

  lemma NothingActive(s: State, p: ProjectID)
    requires NoneRuns(s)
    ensures Active(s, p) == 0 && ActiveWide(s, p) == 0
  {
    forall w | 0 <= w < |s.workers| ensures !RunsOn(p)(s.workers[w]) && !RunsWideOn(p)(s.workers[w]) {
      assert !RunsAt(s, w);
    }
    CountNone(s.workers, RunsOn(p));
    CountNone(s.workers, RunsWideOn(p));
  }

  predicate HasInHand(s: State, w: nat) {
    w < |s.workers| && (s.workers[w].phase.Holding? || s.workers[w].phase.Blocked?)
  }

  /** A worker whose task would be let in can start it. */
  lemma AdmittedCanStart(o: Options, s: State, w: nat)
    requires OptionsOk(o) && Reachable(o, s) && HasInHand(s, w) && Admits(s.lock, o.perProjectLimit, s.workers[w].phase.task)
    ensures CanStart(o, s)
  {
    var task := s.workers[w].phase.task;
    var held := SetPhase(s, w, Holding(task));
    if s.workers[w].phase.Blocked? {
      NoLostWakeup(o, s, w);
      LeadsByStep(o, s, Wake(w), held);
    } else {
      assert held == s;
      LeadsToItself(o, s);
    }
    AdmittedStarts(o, held, w);
    var t := Step(o, held, Acquire(w)).value;
    LeadsByStep(o, held, Acquire(w), t);
    LeadsOn(o, s, held, t);
    assert RunsAt(t, w);
  }

  lemma WriterStarts(o: Options, s: State, w: nat)
    requires OptionsOk(o) && Reachable(o, s) && NoneRuns(s) && HasInHand(s, w) && s.workers[w].phase.task.ProjectWide()
    ensures CanStart(o, s)
  {
    ReachableInv(o, s);
    NothingActive(s, s.workers[w].phase.task.project);
    DrainedAdmitsWriter(o, s, s.workers[w].phase.task);
    AdmittedCanStart(o, s, w);
  }

  lemma PathStarts(o: Options, s: State, w: nat)
    requires OptionsOk(o) && Reachable(o, s) && NoneRuns(s) && HasInHand(s, w) && !s.workers[w].phase.task.ProjectWide()
    requires Pending(s, s.workers[w].phase.task.project) == 0
    ensures CanStart(o, s)
  {
    ReachableInv(o, s);
    var p := s.workers[w].phase.task.project;
    assert AgreesAt(o, s, p);
    NothingActive(s, p);
    AdmittedCanStart(o, s, w);
  }

  /** Every submitter that has not got its task into the queue gives up. */
  lemma WithdrawAll(o: Options, s: State) returns (t: State)
    ensures Leads(o, s, t) && t == s.(submitters := [], lock := t.lock)
    decreases |s.submitters|
  {
    if s.submitters == [] {
      t := s;
      LeadsToItself(o, s);
    } else {
      var next := Withdraw(s, 0);
      LeadsByStep(o, s, CancelEnqueue(0), next);
      t := WithdrawAll(o, next);
      LeadsOn(o, s, next, t);
    }
  }

  /** Every worker that has given its task up reports so. */
  lemma FailAll(o: Options, s: State, n: nat) returns (t: State)
    requires n <= |s.workers|
    ensures Leads(o, s, t) && |t.workers| == |s.workers| && t == s.(workers := t.workers, lock := t.lock)
    ensures forall w :: 0 <= w < |s.workers| ==>
              t.workers[w] == if w < n && s.workers[w].phase.Failing? then s.workers[w].(phase := Idle) else s.workers[w]
    decreases n
  {
    if n == 0 {
      t := s;
      LeadsToItself(o, s);
    } else {
      var before := FailAll(o, s, n - 1);
      if before.workers[n - 1].phase.Failing? {
        t := FailWorker(before, n - 1);
        LeadsByStep(o, before, Fail(n - 1), t);
        LeadsOn(o, s, before, t);
      } else {
        t := before;
      }
    }
  }

  /** What is pending for a project when nobody submits, and nobody holds or gives up a project-wide task. */
  lemma PendingIsQueued(o: Options, s: State, p: ProjectID)
    requires Inv(o, s) && s.submitters == [] && !Scanned(s, p)
    requires forall w :: 0 <= w < |s.workers| && s.workers[w].phase.Waits() ==> !s.workers[w].phase.task.ProjectWide()
    ensures Pending(s, p) == 0
  {
    CountNone(s.submitters, Submits(p));
    CountNone(s.full, Queues(p));
    CountNone(s.workers, Holds(p));
  }

  /** A path task can be started if no project-wide task of its project is in the full queue. */
  lemma UnscannedStarts(o: Options, s: State, w: nat)
    requires OptionsOk(o) && Reachable(o, s) && NoneRuns(s) && HasInHand(s, w) && !s.workers[w].phase.task.ProjectWide()
    requires !Scanned(s, s.workers[w].phase.task.project)
    ensures CanStart(o, s)
  {
    var calm := WithdrawAll(o, s);
    var t := FailAll(o, calm, |calm.workers|);
    LeadsOn(o, s, calm, t);
    LeadsReachable(o, s, t);
    ReachableInv(o, t);
    forall v: nat ensures !RunsAt(t, v) { assert !RunsAt(s, v); }
    if v: nat :| HasInHand(t, v) && t.workers[v].phase.task.ProjectWide() {
      WriterStarts(o, t, v);
    } else {
      forall v | 0 <= v < |t.workers| && t.workers[v].phase.Waits() ensures !t.workers[v].phase.task.ProjectWide() {
        assert HasInHand(t, v);
      }
      PendingIsQueued(o, t, t.workers[w].phase.task.project);
      PathStarts(o, t, w);
    }
    StartsOn(o, s, t);
  }

  lemma NoneRunsAfter(s: State, t: State, w: nat, phase: Phase)
    requires NoneRuns(s) && w < |s.workers| && t.workers == SetPhase(s, w, phase).workers && !phase.Running?
    ensures NoneRuns(t)
  {
    forall v: nat ensures !RunsAt(t, v) { assert !RunsAt(s, v); }
  }

  /** A worker that takes a task can start it, if it is project-wide or no project-wide task is queued before it. */
  lemma TakerStarts(o: Options, s: State, a: Action, w: nat, wide: bool)
    requires OptionsOk(o) && Reachable(o, s) && NoneRuns(s) && w < |s.workers|
    requires if wide then s.full != [] else s.live != [] && s.full == []
    requires !Disturbs(a) && Step(o, s, a) == Some(TakeFrom(s, w, wide))
    ensures CanStart(o, s)
  {
    ReachableInv(o, s);
    var t := TakeFrom(s, w, wide);
    LeadsByStep(o, s, a, t);
    LeadsReachable(o, s, t);
    NoneRunsAfter(s, t, w, t.workers[w].phase);
    if wide { WriterStarts(o, t, w); } else { UnscannedStarts(o, t, w); }
    StartsOn(o, s, t);
  }

  lemma QueuedIsCounted(o: Options, s: State)
    requires Inv(o, s) && s.full != []
    ensures |s.lock.pendingWide| > 0
  {
    var p := s.full[0].project;
    assert AgreesAt(o, s, p);
    CountNone(s.full, Queues(p));
    assert Queues(p)(s.full[0]);
    assert p in s.lock.pendingWide;
  }

  predicate Seeks(s: State, w: nat) {
    && w < |s.workers| && LooksForWork(s.workers[w].phase)
    && (s.workers[w].phase.TryingLive? ==> s.full == [])
  }

  /** The worker finds both queues empty where it looks, and gets a new task. */
  lemma FreshTaskStarts(o: Options, s: State, w: nat)
    requires OptionsOk(o) && QueuesEmpty(s) && w < |s.workers| && LooksForWork(s.workers[w].phase)
    ensures CanStart(o, s)
  {
    var t := GetGoing(o, s, w);
    assert RunsAt(t, w);
  }

  /** A worker that passes over the full queue does so because it is empty. */
  lemma PassesOn(o: Options, s: State, a: Action, w: nat, phase: Phase)
    requires OptionsOk(o) && Reachable(o, s) && NoneRuns(s) && w < |s.workers|
    requires !Disturbs(a) && Step(o, s, a) == Some(SetPhase(s, w, phase)) && !phase.Running?
    ensures var t := SetPhase(s, w, phase); Leads(o, s, t) && Reachable(o, t) && NoneRuns(t)
  {
    var t := SetPhase(s, w, phase);
    LeadsByStep(o, s, a, t);
    LeadsReachable(o, s, t);
    NoneRunsAfter(s, t, w, phase);
  }

  /** A worker that can still look into the full queue gets a task going. */
  lemma SeekerStarts(o: Options, s: State, w: nat)
    requires OptionsOk(o) && Reachable(o, s) && NoneRuns(s) && Seeks(s, w)
    ensures CanStart(o, s)
    decreases if w < |s.workers| then Distance(s.workers[w].phase) else 0
  {
    if QueuesEmpty(s) {
      FreshTaskStarts(o, s, w);
    } else {
      match s.workers[w].phase
      case Selecting => if s.full != [] { TakerStarts(o, s, TakeFull(w), w, true); } else { TakerStarts(o, s, TakeLive(w), w, false); }
      case TryingLive => TakerStarts(o, s, PollQueue(w), w, false);
      case TryingFull =>
        if s.full != [] { TakerStarts(o, s, PollQueue(w), w, true); } else { SeeksOn(o, s, PollQueue(w), w, NextPhase(o)); }
      case Idle =>
        ReachableInv(o, s);
        if s.full != [] { QueuedIsCounted(o, s); }
        SeeksOn(o, s, Poll(w), w, if |s.lock.pendingWide| > 0 then TryingFull else NextPhase(o));
    }
  }

  lemma SeeksOn(o: Options, s: State, a: Action, w: nat, phase: Phase)
    requires OptionsOk(o) && Reachable(o, s) && NoneRuns(s) && w < |s.workers| && Distance(phase) < Distance(s.workers[w].phase)
    requires !Disturbs(a) && Step(o, s, a) == Some(SetPhase(s, w, phase)) && Seeks(SetPhase(s, w, phase), w)
    ensures CanStart(o, s)
    decreases if w < |s.workers| then Distance(s.workers[w].phase) else 0, 0
  {
    PassesOn(o, s, a, w, phase);
    SeekerStarts(o, SetPhase(s, w, phase), w);
    StartsOn(o, s, SetPhase(s, w, phase));
  }

  lemma FailingStarts(o: Options, s: State, w: nat)
    requires OptionsOk(o) && Reachable(o, s) && NoneRuns(s) && w < |s.workers| && s.workers[w].phase.Failing?
    ensures CanStart(o, s)
  {
    var t := FailWorker(s, w);
    LeadsByStep(o, s, Fail(w), t);
    LeadsReachable(o, s, t);
    NoneRunsAfter(s, t, w, Idle);
    SeekerStarts(o, t, w);
    StartsOn(o, s, t);
  }

  /** A worker whose context is over is not held up: it gives its task up, and looks for another. */
  lemma CancelledBlockedStarts(o: Options, s: State, w: nat)
    requires OptionsOk(o) && Reachable(o, s) && NoneRuns(s) && w < |s.workers| && Cancelled(s, w) && s.workers[w].phase.Blocked?
    ensures CanStart(o, s)
  {
    PassesOn(o, s, GiveUp(w), w, Failing(s.workers[w].phase.task));
    FailingStarts(o, SetPhase(s, w, Failing(s.workers[w].phase.task)), w);
    StartsOn(o, s, SetPhase(s, w, Failing(s.workers[w].phase.task)));
  }

  lemma CancelledHolderStarts(o: Options, s: State, w: nat)
    requires OptionsOk(o) && Reachable(o, s) && NoneRuns(s) && w < |s.workers| && Cancelled(s, w) && s.workers[w].phase.Holding?
    ensures CanStart(o, s)
  {
    var t := AcquireWorker(o, s, w);
    LeadsByStep(o, s, Acquire(w), t);
    if t.workers[w].phase.Running? {
      assert RunsAt(t, w);
    } else {
      LeadsReachable(o, s, t);
      NoneRunsAfter(s, t, w, t.workers[w].phase);
      CancelledBlockedStarts(o, t, w);
      StartsOn(o, s, t);
    }
  }

  lemma EmptyHandedStarts(o: Options, s: State, w: nat)
    requires OptionsOk(o) && Reachable(o, s) && NoneRuns(s) && w < |s.workers| && s.workers[w].phase.TryingLive? && s.live == []
    ensures CanStart(o, s)
  {
    PassesOn(o, s, PollQueue(w), w, Selecting);
    SeekerStarts(o, SetPhase(s, w, Selecting), w);
    StartsOn(o, s, SetPhase(s, w, Selecting));
  }

  lemma TakesLive(o: Options, s: State, w: nat) returns (t: State)
    requires OptionsOk(o) && Reachable(o, s) && NoneRuns(s) && w < |s.workers| && s.workers[w].phase.TryingLive? && s.live != []
    ensures t == TakeFrom(s, w, false) && Leads(o, s, t) && Reachable(o, t) && NoneRuns(t)
  {
    t := TakeFrom(s, w, false);
    LeadsByStep(o, s, PollQueue(w), t);
    LeadsReachable(o, s, t);
    NoneRunsAfter(s, t, w, t.workers[w].phase);
  }

  lemma CancelledStarts(o: Options, s: State, w: nat)
    requires OptionsOk(o) && Reachable(o, s) && NoneRuns(s) && w < |s.workers| && Cancelled(s, w)
    requires s.workers[w].phase.Holding? || s.workers[w].phase.Blocked? || s.workers[w].phase.TryingLive?
    ensures CanStart(o, s)
  {
    match s.workers[w].phase
    case Holding(_) => CancelledHolderStarts(o, s, w);
    case Blocked(_, _) => CancelledBlockedStarts(o, s, w);
    case TryingLive =>
      if s.live == [] {
        EmptyHandedStarts(o, s, w);
      } else {
        var t := TakesLive(o, s, w);
        CancelledHolderStarts(o, t, w);
        StartsOn(o, s, t);
      }
  }

  lemma NotStartedStarts(o: Options, s: State)
    requires OptionsOk(o) && Reachable(o, s) && NoneRuns(s) && !s.started
    ensures CanStart(o, s)
  {
    var t := Step(o, s, Start).value;
    LeadsByStep(o, s, Start, t);
    LeadsReachable(o, s, t);
    forall w: nat ensures !RunsAt(t, w) { assert !RunsAt(s, w); }
    SeekerStarts(o, t, |s.workers|);
    StartsOn(o, s, t);
  }

  /** A worker that is not hopeless gets a task going. */
  lemma HopefulStarts(o: Options, s: State, w: nat)
    requires OptionsOk(o) && Reachable(o, s) && NoneRuns(s) && w < |s.workers| && !Hopeless(s, w)
    ensures CanStart(o, s)
  {
    ReachableInv(o, s);
    assert !RunsAt(s, w);
    var phase := s.workers[w].phase;
    if phase.Failing? {
      FailingStarts(o, s, w);
    } else if phase.Idle? || phase.TryingFull? || phase.Selecting? {
      SeekerStarts(o, s, w);
    } else if Cancelled(s, w) {
      CancelledStarts(o, s, w);
    } else if phase.task.ProjectWide() {
      WriterStarts(o, s, w);
    } else {
      UnscannedStarts(o, s, w);
    }
  }

  /** Some worker about to look at the live queue will find a task there that waits for nothing, or none at all. */
  lemma LuckyTryStarts(o: Options, s: State)
    requires OptionsOk(o) && Reachable(o, s) && NoneRuns(s)
    requires Count(s.workers, Tries()) > |s.live| || exists j :: 0 <= j < Count(s.workers, Tries()) && !Scanned(s, s.live[j].project)
    ensures CanStart(o, s)
    decreases |s.live|
  {
    CountNone(s.workers, Tries());
    var w :| 0 <= w < |s.workers| && Tries()(s.workers[w]);
    if s.live == [] {
      EmptyHandedStarts(o, s, w);
    } else {
      ReachableInv(o, s);
      var t := TakesLive(o, s, w);
      if !Scanned(s, s.live[0].project) {
        UnscannedStarts(o, t, w);
      } else {
        CountUpdate(s.workers, w, t.workers[w], Tries());
        if Count(s.workers, Tries()) <= |s.live| {
          var j :| 0 <= j < Count(s.workers, Tries()) && !Scanned(s, s.live[j].project);
          assert !Scanned(t, t.live[j - 1].project);
        }
        LuckyTryStarts(o, t);
      }
      StartsOn(o, s, t);
    }
  }

  lemma UnstuckStarts(o: Options, s: State)
    requires OptionsOk(o) && Reachable(o, s) && !Stuck(s)
    ensures CanStart(o, s)
  {
    if w: nat :| RunsAt(s, w) {
      LeadsToItself(o, s);
    } else if !s.started {
      NotStartedStarts(o, s);
    } else if w: nat :| w < |s.workers| && !Hopeless(s, w) {
      HopefulStarts(o, s, w);
    } else {
      LuckyTryStarts(o, s);
    }
  }

  /** In any reachable state: no worker will run a task, whatever happens short of a Stop or a cancelled parent, exactly when the pool is stuck. */
  lemma StuckExactly(o: Options, s: State)
    requires OptionsOk(o) && Reachable(o, s)
    ensures Stuck(s) <==> !exists t: State, w: nat :: Leads(o, s, t) && RunsAt(t, w)
  {
    if Stuck(s) {
      forall t: State, w: nat | Leads(o, s, t) ensures !RunsAt(t, w) {
        StuckForever(o, s, t);
      }
    } else {
      UnstuckStarts(o, s);
    }
  }

  /** When all workers are blocked, that means: each by a project-wide task that only a worker could take off the queue. */
  lemma StuckWhenBlocked(s: State)
    requires s.started && AllBlocked(s)
    ensures Stuck(s) <==> forall w :: 0 <= w < |s.workers| ==> !Cancelled(s, w) && StuckWorker(s, s.workers[w].phase)
  {
    forall w | 0 <= w < |s.workers|
      ensures !Tries()(s.workers[w]) && (Hopeless(s, w) <==> !Cancelled(s, w) && StuckWorker(s, s.workers[w].phase)) {}
    CountNone(s.workers, Tries());
  }

  // --------------------------------------------------------------- how a pool gets stuck

  /** After each worker has taken a path task, a full scan has been registered and queued, and `k` workers have found that they must wait. */
  function ScanQueued(o: Options, p: ProjectID, k: int): State
    requires 0 <= k <= o.globalWorkers
  {
    TasksTaken(o, p, 0).(lock := RegisterPending(EMPTY, p), full := [Task(p, FullScan, true)],
                         workers := Crew(o.globalWorkers, k, Blocked(Task(p, Path, false), 1), Holding(Task(p, Path, false))))
  }

  lemma QueueScan(o: Options, p: ProjectID)
    requires OptionsOk(o)
    ensures Leads(o, TasksTaken(o, p, o.globalWorkers), ScanQueued(o, p, 0))
  {
    var s := TasksTaken(o, p, o.globalWorkers);
    var sent := s.(submitters := [Submitter(Task(p, FullScan, true), true)], lock := RegisterPending(EMPTY, p));
    assert s.submitters + sent.submitters == sent.submitters && Remove(sent.submitters, 0) == [];
    assert sent.full + [Task(p, FullScan, true)] == [Task(p, FullScan, true)];
    assert Crew(o.globalWorkers, o.globalWorkers, Holding(Task(p, Path, false)), Idle)
        == Crew(o.globalWorkers, 0, Blocked(Task(p, Path, false), 1), Holding(Task(p, Path, false)));
    LeadsByTwo(o, s, Submit(p, FullScan, true), sent, Enqueue(0), ScanQueued(o, p, 0));
  }

  lemma MustWaitForScan(limit: int, p: ProjectID)
    ensures TryAcquire(RegisterPending(EMPTY, p), limit, Task(p, Path, false)) == MustWait(RegisterPending(EMPTY, p), 1)
  {
  }

  lemma BlockTasks(o: Options, p: ProjectID, k: int)
    requires OptionsOk(o) && 0 <= k <= o.globalWorkers
    ensures Leads(o, ScanQueued(o, p, 0), ScanQueued(o, p, k))
    decreases k
  {
    if k == 0 {
      LeadsToItself(o, ScanQueued(o, p, 0));
    } else {
      BlockTasks(o, p, k - 1);
      var s, t := ScanQueued(o, p, k - 1), ScanQueued(o, p, k);
      MustWaitForScan(o.perProjectLimit, p);
      OneMoreOfCrew(o.globalWorkers, k - 1, Blocked(Task(p, Path, false), 1), Holding(Task(p, Path, false)));
      assert AcquireWorker(o, s, k - 1) == t;
      LeadsByStep(o, s, Acquire(k - 1), t);
      LeadsOn(o, ScanQueued(o, p, 0), s, t);
    }
  }

  lemma LeadsToStuck(o: Options, p: ProjectID)
    requires OptionsOk(o)
    ensures Leads(o, INITIAL, ScanQueued(o, p, o.globalWorkers))
  {
    TakeTasks(o, p, o.globalWorkers);
    QueueScan(o, p);
    LeadsOn(o, INITIAL, TasksTaken(o, p, o.globalWorkers), ScanQueued(o, p, 0));
    BlockTasks(o, p, o.globalWorkers);
    LeadsOn(o, INITIAL, ScanQueued(o, p, 0), ScanQueued(o, p, o.globalWorkers));
  }

  lemma IsStuck(o: Options, p: ProjectID)
    requires OptionsOk(o)
    ensures Stuck(ScanQueued(o, p, o.globalWorkers)) && AllBlocked(ScanQueued(o, p, o.globalWorkers))
  {
    var s := ScanQueued(o, p, o.globalWorkers);
    assert s.full[0].project == p;
    forall w | 0 <= w < |s.workers| ensures Hopeless(s, w) && s.workers[w].phase.Blocked? {
      assert s.workers[w].phase == Blocked(Task(p, Path, false), 1);
    }
    CountNone(s.workers, Tries());
  }

  /** Whatever the options: when each worker has taken a path task of a project, a full scan of it registered next gets the pool stuck. */
  lemma StuckIsReachable(o: Options, p: ProjectID) returns (s: State)
    requires OptionsOk(o)
    ensures Reachable(o, s) && Stuck(s) && AllBlocked(s) && |s.workers| == o.globalWorkers
  {
    s := ScanQueued(o, p, o.globalWorkers);
    LeadsToStuck(o, p);
    assert Reachable(o, INITIAL) by { assert Run(o, INITIAL, []) == Some(INITIAL); }
    LeadsReachable(o, INITIAL, s);
    IsStuck(o, p);
  }
}
