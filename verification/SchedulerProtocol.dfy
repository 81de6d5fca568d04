/**
  The ingestion scheduler as a protocol: any number of submitters and the worker
  goroutines interleave at every lock-protected region and channel operation.
 */
module SchedulerProtocol {
  import opened Wrappers
  import opened Counting
  import opened SchedulerSpec

  // ------------------------------------------------------------------ the state

  /** Where a worker goroutine stands in workerLoop, nextTask, runTask and acquireProject. */
  datatype Phase =
    | Idle
    | TryingFull
    | TryingLive
    | Selecting
    | Holding(task: Task)
    | Blocked(task: Task, channel: ChannelID)
    | Failing(task: Task)
    | Running(task: Task)
    | Exited
  {
    predicate HasTask() {
      Holding? || Blocked? || Failing? || Running?
    }
    predicate Waits() {
      Holding? || Blocked? || Failing?
    }
  }

  /** `generation` says which call of Start made the worker, and so which context it obeys. */
  datatype Worker = Worker(generation: nat, phase: Phase)

  /** A caller inside enqueueTask, past registration and before its send or its cancellation. */
  datatype Submitter = Submitter(task: Task, block: bool)

  datatype State = State(
    lock: Locked,
    workers: seq<Worker>,
    submitters: seq<Submitter>,
    live: seq<Task>,
    full: seq<Task>,
    started: bool,
    cancelled: seq<bool>)

  const INITIAL := State(EMPTY, [], [], [], [], false, [])

  predicate OptionsOk(o: Options) {
    1 <= o.perProjectLimit <= o.globalWorkers && 1 <= o.queueDepth
  }

  // ------------------------------------------------------------------- the steps

  datatype Action =
    | Submit(project: ProjectID, kind: TaskKind, block: bool)
    | Enqueue(i: nat)
    | CancelEnqueue(i: nat)
    | QueueFull(i: nat)
    | Start
    | Stop
    | CancelParent(generation: nat)
    | Poll(w: nat)
    | PollQueue(w: nat)
    | TakeLive(w: nat)
    | TakeFull(w: nat)
    | Exit(w: nat)
    | Acquire(w: nat)
    | Wake(w: nat)
    | GiveUp(w: nat)
    | Fail(w: nat)
    | Finish(w: nat)

  function Remove<T>(s: seq<T>, i: nat): seq<T>
    requires i < |s|
  {
    s[..i] + s[i + 1..]
  }

  function SetPhase(s: State, w: nat, phase: Phase): State
    requires w < |s.workers|
  {
    s.(workers := s.workers[w := s.workers[w].(phase := phase)])
  }

  predicate Cancelled(s: State, w: nat)
    requires w < |s.workers|
  {
    s.workers[w].generation < |s.cancelled| && s.cancelled[s.workers[w].generation]
  }

  function Withdraw(s: State, i: nat): State
    requires i < |s.submitters|
  {
    var t := s.submitters[i].task;
    s.(submitters := Remove(s.submitters, i),
       lock := if t.pending then UnregisterPending(s.lock, t.project) else s.lock)
  }

  function TakeFrom(s: State, w: nat, wide: bool): State
    requires w < |s.workers| && if wide then s.full != [] else s.live != []
  {
    if wide then SetPhase(s, w, Holding(s.full[0])).(full := s.full[1..])
    else SetPhase(s, w, Holding(s.live[0])).(live := s.live[1..])
  }

  /** The worker makes one more attempt to get its task in. */
  function AcquireWorker(o: Options, s: State, w: nat): State
    requires w < |s.workers| && s.workers[w].phase.Holding?
  {
    var t := s.workers[w].phase.task;
    match TryAcquire(s.lock, o.perProjectLimit, t)
    case Acquired(l) => SetPhase(s, w, Running(t.(pending := false))).(lock := l)
    case MustWait(l, c) => SetPhase(s, w, Blocked(t, c)).(lock := l)
  }

  function FailWorker(s: State, w: nat): State
    requires w < |s.workers| && s.workers[w].phase.Failing?
  {
    var t := s.workers[w].phase.task;
    SetPhase(s, w, Idle).(lock := if t.pending then UnregisterPending(s.lock, t.project) else s.lock)
  }

  function FinishWorker(s: State, w: nat): State
    requires w < |s.workers| && s.workers[w].phase.Running?
  {
    SetPhase(s, w, Idle).(lock := Release(s.lock, s.workers[w].phase.task))
  }

  /** After the full queue has been passed over, nextTask may prefer the live one. */
  function NextPhase(o: Options): Phase {
    if o.livePathPriority then TryingLive else Selecting
  }

  function StepSubmitter(o: Options, s: State, a: Action): Option<State>
    requires a.Enqueue? || a.CancelEnqueue? || a.QueueFull?
  {
    if a.i >= |s.submitters| then None else
    var sub := s.submitters[a.i];
    var queue := if sub.task.ProjectWide() then s.full else s.live;
    match a
    case Enqueue(i) =>
      if |queue| >= o.queueDepth then None
      else if sub.task.ProjectWide() then Some(s.(submitters := Remove(s.submitters, i), full := s.full + [sub.task]))
      else Some(s.(submitters := Remove(s.submitters, i), live := s.live + [sub.task]))
    case CancelEnqueue(i) => Some(Withdraw(s, i))
    case QueueFull(i) => if sub.block || |queue| < o.queueDepth then None else Some(Withdraw(s, i))
  }

  function StepWorker(o: Options, s: State, a: Action): Option<State>
    requires a.Poll? || a.PollQueue? || a.TakeLive? || a.TakeFull? || a.Exit? || a.Acquire? || a.Wake? || a.GiveUp? || a.Fail? || a.Finish?
  {
    if a.w >= |s.workers| then None else
    var w: nat := a.w;
    var phase := s.workers[w].phase;
    match a
    case Poll(_) =>
      if !phase.Idle? then None
      else Some(SetPhase(s, w, if |s.lock.pendingWide| > 0 then TryingFull else NextPhase(o)))
    case PollQueue(_) =>
      if phase.TryingFull? then
        Some(if s.full == [] then SetPhase(s, w, NextPhase(o)) else TakeFrom(s, w, true))
      else if phase.TryingLive? then
        Some(if s.live == [] then SetPhase(s, w, Selecting) else TakeFrom(s, w, false))
      else None
    case TakeLive(_) =>
      if !phase.Selecting? || s.live == [] then None else Some(TakeFrom(s, w, false))
    case TakeFull(_) =>
      if !phase.Selecting? || s.full == [] then None else Some(TakeFrom(s, w, true))
    case Exit(_) =>
      if !phase.Selecting? || !Cancelled(s, w) then None else Some(SetPhase(s, w, Exited))
    case Acquire(_) =>
      if !phase.Holding? then None else Some(AcquireWorker(o, s, w))
    case Wake(_) =>
      if !phase.Blocked? || phase.channel !in s.lock.closed then None else Some(SetPhase(s, w, Holding(phase.task)))
    case GiveUp(_) =>
      if !phase.Blocked? || !Cancelled(s, w) then None else Some(SetPhase(s, w, Failing(phase.task)))
    case Fail(_) =>
      if !phase.Failing? then None else Some(FailWorker(s, w))
    case Finish(_) =>
      if !phase.Running? then None else Some(FinishWorker(s, w))
  }

  /** One atomic step, or None where the step is not possible. */
  function Step(o: Options, s: State, a: Action): Option<State> {
    match a
    case Submit(p, kind, block) =>
      var t := Task(p, kind, !kind.Path?);
      // Path tasks are always sent with a blocking send.
      if kind.Path? && !block then None
      else Some(s.(submitters := s.submitters + [Submitter(t, block)],
                   lock := if t.pending then RegisterPending(s.lock, p) else s.lock))
    case Start =>
      if s.started || o.globalWorkers < 0 then None
      else Some(s.(started := true,
                   cancelled := s.cancelled + [false],
                   workers := s.workers + seq(o.globalWorkers, _ => Worker(|s.cancelled|, Idle))))
    case Stop =>
      Some(s.(started := false, cancelled := if s.cancelled == [] then [] else s.cancelled[|s.cancelled| - 1 := true]))
    case CancelParent(g) =>
      if g < |s.cancelled| then Some(s.(cancelled := s.cancelled[g := true])) else None
    case Enqueue(_) => StepSubmitter(o, s, a)
    case CancelEnqueue(_) => StepSubmitter(o, s, a)
    case QueueFull(_) => StepSubmitter(o, s, a)
    case _ => StepWorker(o, s, a)
  }

  /** Where a run of the given steps leads, or None when one of them is not possible. */
  function Run(o: Options, s: State, steps: seq<Action>): Option<State>
    decreases |steps|
  {
    if steps == [] then Some(s) else
    match Step(o, s, steps[0])
    case None => None
    case Some(t) => Run(o, t, steps[1..])
  }

  /** A step moves at most one worker, and only a successful acquisition sets one running. */
  lemma MovesOneWorker(o: Options, s: State, a: Action)
    requires Step(o, s, a).Some? && !a.Start?
    ensures var s' := Step(o, s, a).value;
            s'.workers == s.workers
            || (&& (a.Poll? || a.PollQueue? || a.TakeLive? || a.TakeFull? || a.Exit? || a.Acquire? || a.Wake? || a.GiveUp? || a.Fail? || a.Finish?)
                && a.w < |s.workers|
                && (exists phase :: s'.workers == SetPhase(s, a.w, phase).workers)
                && (s'.workers[a.w].phase.Running? ==>
                      && a.Acquire? && s.workers[a.w].phase.Holding?
                      && Admits(s.lock, o.perProjectLimit, s.workers[a.w].phase.task)
                      && s'.workers[a.w].phase.task == s.workers[a.w].phase.task.(pending := false)))
  {
    var s' := Step(o, s, a).value;
    if s'.workers != s.workers {
      assert s'.workers == SetPhase(s, a.w, s'.workers[a.w].phase).workers;
    }
  }

  // --------------------------------------------------------------- the invariant

  function RunsOn(p: ProjectID): Worker -> bool {
    (w: Worker) => w.phase.Running? && w.phase.task.project == p
  }
  function RunsWideOn(p: ProjectID): Worker -> bool {
    (w: Worker) => w.phase.Running? && w.phase.task.project == p && w.phase.task.ProjectWide()
  }
  function Runs(): Worker -> bool {
    (w: Worker) => w.phase.Running?
  }
  function Holds(p: ProjectID): Worker -> bool {
    (w: Worker) => w.phase.Waits() && w.phase.task.pending && w.phase.task.project == p
  }
  function Submits(p: ProjectID): Submitter -> bool {
    (b: Submitter) => b.task.pending && b.task.project == p
  }
  function Queues(p: ProjectID): Task -> bool {
    (t: Task) => t.pending && t.project == p
  }

  /** Tasks of `p` that run now. */
  function Active(s: State, p: ProjectID): nat {
    Count(s.workers, RunsOn(p))
  }

  /** Project-wide tasks of `p` that run now. */
  function ActiveWide(s: State, p: ProjectID): nat {
    Count(s.workers, RunsWideOn(p))
  }

  /** Project-wide tasks of `p` that are registered and have neither started nor been given up. */
  function Pending(s: State, p: ProjectID): nat {
    Count(s.submitters, Submits(p)) + Count(s.full, Queues(p)) + Count(s.workers, Holds(p))
  }

  ghost predicate TasksOk(s: State) {
    && (forall i :: 0 <= i < |s.submitters| ==> s.submitters[i].task.pending == s.submitters[i].task.ProjectWide())
    && (forall i :: 0 <= i < |s.live| ==> !s.live[i].pending && !s.live[i].ProjectWide())
    && (forall i :: 0 <= i < |s.full| ==> s.full[i].pending && s.full[i].ProjectWide())
    && (forall w :: 0 <= w < |s.workers| && s.workers[w].phase.Waits() ==>
          s.workers[w].phase.task.pending == s.workers[w].phase.task.ProjectWide())
    && (forall w :: 0 <= w < |s.workers| && s.workers[w].phase.Running? ==> !s.workers[w].phase.task.pending)
  }

  predicate AgreesAt(o: Options, s: State, p: ProjectID) {
    Agrees(s.lock, o.perProjectLimit, p, Active(s, p), ActiveWide(s, p), Pending(s, p))
  }

  ghost predicate Counters(o: Options, s: State) {
    && (forall p :: AgreesAt(o, s, p))
    && s.lock.active == Count(s.workers, Runs())
  }

  ghost predicate Waiters(o: Options, s: State) {
    forall w :: 0 <= w < |s.workers| && s.workers[w].phase.Blocked? ==>
                  NothingMissed(s.lock, o.perProjectLimit, s.workers[w].phase.task, s.workers[w].phase.channel)
  }

  ghost predicate Inv(o: Options, s: State) {
    && TasksOk(s)
    && Counters(o, s)
    && ChannelsOk(s.lock)
    && Waiters(o, s)
  }

  /** How one worker's move changes the four counts over workers. */
  lemma PhaseCounts(s: State, w: nat, phase: Phase, p: ProjectID)
    requires w < |s.workers|
    ensures var ws, was, now := SetPhase(s, w, phase).workers, s.workers[w], s.workers[w].(phase := phase);
            && Count(ws, RunsOn(p)) == Active(s, p) + (if RunsOn(p)(now) then 1 else 0) - (if RunsOn(p)(was) then 1 else 0)
            && Count(ws, RunsWideOn(p)) == ActiveWide(s, p) + (if RunsWideOn(p)(now) then 1 else 0) - (if RunsWideOn(p)(was) then 1 else 0)
            && Count(ws, Holds(p)) == Count(s.workers, Holds(p)) + (if Holds(p)(now) then 1 else 0) - (if Holds(p)(was) then 1 else 0)
            && Count(ws, Runs()) == Count(s.workers, Runs()) + (if Runs()(now) then 1 else 0) - (if Runs()(was) then 1 else 0)
  {
    var x := s.workers[w].(phase := phase);
    CountUpdate(s.workers, w, x, RunsOn(p));
    CountUpdate(s.workers, w, x, RunsWideOn(p));
    CountUpdate(s.workers, w, x, Holds(p));
    CountUpdate(s.workers, w, x, Runs());
  }

  lemma SubmitKeeps(o: Options, s: State, a: Action)
    requires OptionsOk(o) && Inv(o, s) && a.Submit? && Step(o, s, a).Some?
    ensures Inv(o, Step(o, s, a).value)
  {
    var s' := Step(o, s, a).value;
    var t := Task(a.project, a.kind, !a.kind.Path?);
    forall p ensures AgreesAt(o, s', p) {
      assert AgreesAt(o, s, p);
      CountAppend(s.submitters, Submitter(t, a.block), Submits(p));
      if t.pending {
        RegisterKeeps(s.lock, o.perProjectLimit, a.project, p, Active(s, p), ActiveWide(s, p), Pending(s, p));
      }
    }
    if t.pending {
      RegisterKeepsChannels(s.lock, a.project);
      forall w | 0 <= w < |s.workers| && s.workers[w].phase.Blocked?
        ensures NothingMissed(s'.lock, o.perProjectLimit, s.workers[w].phase.task, s.workers[w].phase.channel)
      {
        RegisterWakesWaiters(s.lock, o.perProjectLimit, a.project, s.workers[w].phase.task, s.workers[w].phase.channel);
      }
    }
  }

  lemma EnqueueCounts(o: Options, s: State, a: Action, p: ProjectID)
    requires TasksOk(s) && a.Enqueue? && Step(o, s, a).Some?
    ensures Pending(Step(o, s, a).value, p) == Pending(s, p)
  {
    CountSplit(s.submitters, a.i, Submits(p));
    CountAppend(s.full, s.submitters[a.i].task, Queues(p));
  }

  lemma EnqueueKeeps(o: Options, s: State, a: Action)
    requires OptionsOk(o) && Inv(o, s) && a.Enqueue? && Step(o, s, a).Some?
    ensures Inv(o, Step(o, s, a).value)
  {
    var s' := Step(o, s, a).value;
    assert s'.lock == s.lock && s'.workers == s.workers;
    assert TasksOk(s');
    forall p ensures AgreesAt(o, s', p) {
      assert AgreesAt(o, s, p);
      EnqueueCounts(o, s, a, p);
    }
  }

  lemma WithdrawKeeps(o: Options, s: State, i: nat)
    requires OptionsOk(o) && Inv(o, s) && i < |s.submitters|
    ensures Inv(o, Withdraw(s, i))
  {
    var s' := Withdraw(s, i);
    var t := s.submitters[i].task;
    forall p ensures AgreesAt(o, s', p) {
      assert AgreesAt(o, s, p);
      CountSplit(s.submitters, i, Submits(p));
      if t.pending {
        UnregisterKeeps(s.lock, o.perProjectLimit, t.project, p, Active(s, p), ActiveWide(s, p), Pending(s, p));
      }
    }
    if t.pending {
      UnregisterKeepsChannels(s.lock, t.project);
      forall w | 0 <= w < |s.workers| && s.workers[w].phase.Blocked?
        ensures NothingMissed(s'.lock, o.perProjectLimit, s.workers[w].phase.task, s.workers[w].phase.channel)
      {
        UnregisterWakesWaiters(s.lock, o.perProjectLimit, t.project, s.workers[w].phase.task, s.workers[w].phase.channel);
      }
    }
  }

  lemma IdleCounts(s: State, idle: seq<Worker>, p: ProjectID)
    requires forall w :: 0 <= w < |idle| ==> idle[w].phase.Idle?
    ensures Count(s.workers + idle, RunsOn(p)) == Active(s, p)
    ensures Count(s.workers + idle, RunsWideOn(p)) == ActiveWide(s, p)
    ensures Count(s.workers + idle, Holds(p)) == Count(s.workers, Holds(p))
    ensures Count(s.workers + idle, Runs()) == Count(s.workers, Runs())
  {
    CountConcat(s.workers, idle, RunsOn(p));
    CountConcat(s.workers, idle, RunsWideOn(p));
    CountConcat(s.workers, idle, Holds(p));
    CountConcat(s.workers, idle, Runs());
    CountNone(idle, RunsOn(p));
    CountNone(idle, RunsWideOn(p));
    CountNone(idle, Holds(p));
    CountNone(idle, Runs());
  }

  lemma StartKeeps(o: Options, s: State)
    requires OptionsOk(o) && Inv(o, s) && Step(o, s, Start).Some?
    ensures Inv(o, Step(o, s, Start).value)
  {
    var s' := Step(o, s, Start).value;
    var idle := seq(o.globalWorkers, _ => Worker(|s.cancelled|, Idle));
    forall p ensures AgreesAt(o, s', p) {
      assert AgreesAt(o, s, p);
      IdleCounts(s, idle, p);
    }
    IdleCounts(s, idle, "");
  }

  /** Moves that touch neither the lock nor a task: the counts do not change. */
  lemma QuietMoveKeeps(o: Options, s: State, w: nat, phase: Phase)
    requires OptionsOk(o) && Inv(o, s) && w < |s.workers|
    requires var was := s.workers[w].phase;
             && !phase.Blocked? && !phase.Running? && !was.Running?
             && (if phase.Waits() then was.Waits() && was.task == phase.task else !was.Waits())
    ensures Inv(o, SetPhase(s, w, phase))
  {
    var s' := SetPhase(s, w, phase);
    forall p ensures Active(s', p) == Active(s, p) && ActiveWide(s', p) == ActiveWide(s, p) && Pending(s', p) == Pending(s, p) && AgreesAt(o, s', p) {
      assert AgreesAt(o, s, p);
      PhaseCounts(s, w, phase, p);
    }
    PhaseCounts(s, w, phase, "");
  }

  lemma TakeCounts(s: State, w: nat, wide: bool, p: ProjectID)
    requires TasksOk(s) && w < |s.workers| && !s.workers[w].phase.HasTask()
    requires if wide then s.full != [] else s.live != []
    ensures var s' := TakeFrom(s, w, wide);
            && Active(s', p) == Active(s, p) && ActiveWide(s', p) == ActiveWide(s, p) && Pending(s', p) == Pending(s, p)
            && Count(s'.workers, Runs()) == Count(s.workers, Runs())
  {
    PhaseCounts(s, w, Holding(if wide then s.full[0] else s.live[0]), p);
  }

  lemma TakeKeeps(o: Options, s: State, w: nat, wide: bool)
    requires OptionsOk(o) && Inv(o, s) && w < |s.workers|
    requires !s.workers[w].phase.HasTask()
    requires if wide then s.full != [] else s.live != []
    ensures Inv(o, TakeFrom(s, w, wide))
  {
    var s' := TakeFrom(s, w, wide);
    assert Counters(o, s') by {
      forall p ensures AgreesAt(o, s', p) {
        assert AgreesAt(o, s, p);
        TakeCounts(s, w, wide, p);
      }
      TakeCounts(s, w, wide, "");
    }
  }

  lemma FailCounters(o: Options, s: State, w: nat)
    requires Counters(o, s) && w < |s.workers| && s.workers[w].phase.Failing?
    ensures Counters(o, FailWorker(s, w))
  {
    var s' := FailWorker(s, w);
    var t := s.workers[w].phase.task;
    forall p ensures AgreesAt(o, s', p) {
      assert AgreesAt(o, s, p);
      PhaseCounts(s, w, Idle, p);
      if t.pending {
        UnregisterKeeps(s.lock, o.perProjectLimit, t.project, p, Active(s, p), ActiveWide(s, p), Pending(s, p));
      }
    }
    PhaseCounts(s, w, Idle, "");
  }

  lemma FailWaiters(o: Options, s: State, w: nat)
    requires ChannelsOk(s.lock) && Waiters(o, s) && w < |s.workers| && s.workers[w].phase.Failing?
    ensures Waiters(o, FailWorker(s, w))
  {
    var s' := FailWorker(s, w);
    var t := s.workers[w].phase.task;
    forall v | 0 <= v < |s'.workers| && s'.workers[v].phase.Blocked?
      ensures NothingMissed(s'.lock, o.perProjectLimit, s'.workers[v].phase.task, s'.workers[v].phase.channel)
    {
      assert s'.workers[v] == s.workers[v];
      UnregisterWakesWaiters(s.lock, o.perProjectLimit, t.project, s.workers[v].phase.task, s.workers[v].phase.channel);
    }
  }

  lemma FailKeeps(o: Options, s: State, w: nat)
    requires OptionsOk(o) && Inv(o, s) && w < |s.workers| && s.workers[w].phase.Failing?
    ensures Inv(o, FailWorker(s, w))
  {
    FailCounters(o, s, w);
    FailWaiters(o, s, w);
    UnregisterKeepsChannels(s.lock, s.workers[w].phase.task.project);
  }

  lemma FinishAgrees(o: Options, s: State, w: nat, p: ProjectID)
    requires Counters(o, s) && w < |s.workers| && s.workers[w].phase.Running?
    ensures AgreesAt(o, FinishWorker(s, w), p)
  {
    var t := s.workers[w].phase.task;
    assert AgreesAt(o, s, p);
    PhaseCounts(s, w, Idle, p);
    if p == t.project && !t.ProjectWide() {
      PathNotBesideWide(o, s, w);
    }
    ReleaseKeeps(s.lock, o.perProjectLimit, t, p, Active(s, p), ActiveWide(s, p), Pending(s, p));
  }

  lemma FinishCounters(o: Options, s: State, w: nat)
    requires Counters(o, s) && w < |s.workers| && s.workers[w].phase.Running?
    ensures Counters(o, FinishWorker(s, w))
  {
    var s' := FinishWorker(s, w);
    forall p ensures AgreesAt(o, s', p) {
      FinishAgrees(o, s, w, p);
    }
    PhaseCounts(s, w, Idle, "");
  }

  lemma FinishWaiters(o: Options, s: State, w: nat)
    requires ChannelsOk(s.lock) && Waiters(o, s) && w < |s.workers| && s.workers[w].phase.Running?
    ensures Waiters(o, FinishWorker(s, w))
  {
    var s' := FinishWorker(s, w);
    forall v | 0 <= v < |s'.workers| && s'.workers[v].phase.Blocked?
      ensures NothingMissed(s'.lock, o.perProjectLimit, s'.workers[v].phase.task, s'.workers[v].phase.channel)
    {
      assert s'.workers[v] == s.workers[v];
      ReleaseWakesWaiters(s.lock, o.perProjectLimit, s.workers[w].phase.task, s.workers[v].phase.task, s.workers[v].phase.channel);
    }
  }

  lemma FinishKeeps(o: Options, s: State, w: nat)
    requires OptionsOk(o) && Inv(o, s) && w < |s.workers| && s.workers[w].phase.Running?
    ensures Inv(o, FinishWorker(s, w))
  {
    FinishCounters(o, s, w);
    FinishWaiters(o, s, w);
    ReleaseKeepsChannels(s.lock, s.workers[w].phase.task);
  }

  /** While a path task runs, no project-wide task of its project does. */
  lemma PathNotBesideWide(o: Options, s: State, w: nat)
    requires Counters(o, s) && w < |s.workers|
    requires s.workers[w].phase.Running? && !s.workers[w].phase.task.ProjectWide()
    ensures ActiveWide(s, s.workers[w].phase.task.project) == 0
  {
    var p := s.workers[w].phase.task.project;
    assert AgreesAt(o, s, p);
    CountSplit(s.workers, w, RunsOn(p));
    CountSplit(s.workers, w, RunsWideOn(p));
    CountWeaker(Remove(s.workers, w), RunsWideOn(p), RunsOn(p));
  }

  /** A worker that starts its task moves one from `Pending` to `Active`, or just adds to `Active`. */
  lemma AdmitCounts(s: State, w: nat, p: ProjectID, s': State)
    requires w < |s.workers| && s.workers[w].phase.Holding?
    requires s.workers[w].phase.task.pending == s.workers[w].phase.task.ProjectWide()
    requires s' == SetPhase(s, w, Running(s.workers[w].phase.task.(pending := false))).(lock := s'.lock)
    ensures var t := s.workers[w].phase.task;
            && Active(s', p) == Active(s, p) + (if p == t.project then 1 else 0)
            && ActiveWide(s', p) == ActiveWide(s, p) + (if p == t.project && t.ProjectWide() then 1 else 0)
            && Pending(s', p) == Pending(s, p) - (if p == t.project && t.ProjectWide() then 1 else 0)
  {
    PhaseCounts(s, w, Running(s.workers[w].phase.task.(pending := false)), p);
  }

  lemma RefusalChangesNothing(o: Options, s: State, w: nat)
    requires OptionsOk(o) && Counters(o, s) && w < |s.workers| && s.workers[w].phase.Holding?
    requires !Admits(s.lock, o.perProjectLimit, s.workers[w].phase.task)
    ensures AcquireWorker(o, s, w).lock == s.lock
  {
    assert AgreesAt(o, s, s.workers[w].phase.task.project);
  }

  lemma AcquireAgrees(o: Options, s: State, w: nat, p: ProjectID)
    requires OptionsOk(o) && Counters(o, s) && TasksOk(s) && w < |s.workers| && s.workers[w].phase.Holding?
    ensures AgreesAt(o, AcquireWorker(o, s, w), p)
  {
    var t := s.workers[w].phase.task;
    var s' := AcquireWorker(o, s, w);
    assert AgreesAt(o, s, p);
    if Admits(s.lock, o.perProjectLimit, t) {
      AdmitCounts(s, w, p, s');
      AcquireKeeps(s.lock, o.perProjectLimit, t, p, Active(s, p), ActiveWide(s, p), Pending(s, p));
    } else {
      RefusalChangesNothing(o, s, w);
      PhaseCounts(s, w, s'.workers[w].phase, p);
    }
  }

  lemma AcquireCounters(o: Options, s: State, w: nat)
    requires OptionsOk(o) && Counters(o, s) && TasksOk(s) && w < |s.workers| && s.workers[w].phase.Holding?
    ensures Counters(o, AcquireWorker(o, s, w))
  {
    var s' := AcquireWorker(o, s, w);
    forall p ensures AgreesAt(o, s', p) {
      AcquireAgrees(o, s, w, p);
    }
    PhaseCounts(s, w, s'.workers[w].phase, "");
  }

  lemma AcquireWaiters(o: Options, s: State, w: nat)
    requires OptionsOk(o) && Inv(o, s) && w < |s.workers| && s.workers[w].phase.Holding?
    ensures Waiters(o, AcquireWorker(o, s, w))
  {
    var s' := AcquireWorker(o, s, w);
    var t := s.workers[w].phase.task;
    assert AgreesAt(o, s, t.project);
    forall v | 0 <= v < |s'.workers| && s'.workers[v].phase.Blocked?
      ensures NothingMissed(s'.lock, o.perProjectLimit, s'.workers[v].phase.task, s'.workers[v].phase.channel)
    {
      if v == w {
        BlockedOnCurrent(s.lock, o.perProjectLimit, t);
      } else {
        assert s'.workers[v] == s.workers[v];
        AcquireWakesWaiters(s.lock, o.perProjectLimit, t, s.workers[v].phase.task, s.workers[v].phase.channel);
      }
    }
  }

  /** A refused task waits on the channel that is current at that moment. */
  lemma BlockedOnCurrent(l: Locked, limit: int, t: Task)
    requires ChannelsOk(l) && TryAcquire(l, limit, t).MustWait?
    ensures NothingMissed(TryAcquire(l, limit, t).l, limit, t, TryAcquire(l, limit, t).channel)
  {
  }

  lemma AcquireTasks(o: Options, s: State, w: nat)
    requires TasksOk(s) && w < |s.workers| && s.workers[w].phase.Holding?
    ensures TasksOk(AcquireWorker(o, s, w))
  {
  }

  lemma AcquireStepKeeps(o: Options, s: State, w: nat)
    requires OptionsOk(o) && Inv(o, s) && w < |s.workers| && s.workers[w].phase.Holding?
    ensures Inv(o, AcquireWorker(o, s, w))
  {
    AcquireTasks(o, s, w);
    AcquireCounters(o, s, w);
    AcquireWaiters(o, s, w);
    AcquireKeepsChannels(s.lock, o.perProjectLimit, s.workers[w].phase.task);
  }

  lemma StepWorkerKeeps(o: Options, s: State, a: Action)
    requires OptionsOk(o) && Inv(o, s)
    requires a.Poll? || a.PollQueue? || a.TakeLive? || a.TakeFull? || a.Exit? || a.Acquire? || a.Wake? || a.GiveUp? || a.Fail? || a.Finish?
    requires StepWorker(o, s, a).Some?
    ensures Inv(o, StepWorker(o, s, a).value)
  {
    var phase := s.workers[a.w].phase;
    match a
    case Poll(w) => QuietMoveKeeps(o, s, w, if |s.lock.pendingWide| > 0 then TryingFull else NextPhase(o));
    case PollQueue(w) =>
      if phase.TryingFull? {
        if s.full != [] { TakeKeeps(o, s, w, true); } else { QuietMoveKeeps(o, s, w, NextPhase(o)); }
      } else {
        if s.live != [] { TakeKeeps(o, s, w, false); } else { QuietMoveKeeps(o, s, w, Selecting); }
      }
    case TakeLive(w) => TakeKeeps(o, s, w, false);
    case TakeFull(w) => TakeKeeps(o, s, w, true);
    case Exit(w) => QuietMoveKeeps(o, s, w, Exited);
    case Acquire(w) => AcquireStepKeeps(o, s, w);
    case Wake(w) => QuietMoveKeeps(o, s, w, Holding(phase.task));
    case GiveUp(w) => QuietMoveKeeps(o, s, w, Failing(phase.task));
    case Fail(w) => FailKeeps(o, s, w);
    case Finish(w) => FinishKeeps(o, s, w);
  }

  /** Every step of every goroutine keeps the invariant. */
  lemma StepKeeps(o: Options, s: State, a: Action)
    requires OptionsOk(o) && Inv(o, s) && Step(o, s, a).Some?
    ensures Inv(o, Step(o, s, a).value)
  {
    match a
    case Submit(_, _, _) => SubmitKeeps(o, s, a);
    case Enqueue(_) => EnqueueKeeps(o, s, a);
    case CancelEnqueue(i) => WithdrawKeeps(o, s, i);
    case QueueFull(i) => WithdrawKeeps(o, s, i);
    case Start => StartKeeps(o, s);
    case Stop => KeepsWithSameTasks(o, s, Step(o, s, a).value);
    case CancelParent(_) => KeepsWithSameTasks(o, s, Step(o, s, a).value);
    case _ => StepWorkerKeeps(o, s, a);
  }

  lemma KeepsWithSameTasks(o: Options, s: State, s': State)
    requires Inv(o, s)
    requires s' == s.(started := s'.started, cancelled := s'.cancelled)
    ensures Inv(o, s')
  {
    forall p ensures AgreesAt(o, s', p) {
      assert AgreesAt(o, s, p);
    }
  }

  /** The invariant holds in every state any interleaving can reach. */
  lemma {:induction false} RunKeeps(o: Options, s: State, steps: seq<Action>)
    requires OptionsOk(o) && Inv(o, s) && Run(o, s, steps).Some?
    ensures Inv(o, Run(o, s, steps).value)
    decreases |steps|
  {
    if steps != [] {
      StepKeeps(o, s, steps[0]);
      RunKeeps(o, Step(o, s, steps[0]).value, steps[1..]);
    }
  }
}
