/** What the ingestion scheduler guarantees in every state its goroutines can reach. */
module SchedulerGuarantees {
  import opened Wrappers
  import opened Counting
  import opened SchedulerSpec
  import opened SchedulerProtocol

  ghost predicate Reachable(o: Options, s: State) {
    exists steps :: Run(o, INITIAL, steps) == Some(s)
  }

  lemma ReachableInv(o: Options, s: State)
    requires OptionsOk(o) && Reachable(o, s)
    ensures Inv(o, s)
  {
    forall p ensures AgreesAt(o, INITIAL, p) {
      assert Active(INITIAL, p) == 0 && ActiveWide(INITIAL, p) == 0 && Pending(INITIAL, p) == 0;
    }
    assert Inv(o, INITIAL);
    var steps :| Run(o, INITIAL, steps) == Some(s);
    RunKeeps(o, INITIAL, steps);
  }

  // ------------------------------------------------------------------- wakeups

  /** A blocked worker's task is let in only with its channel closed, so it never sleeps while it could run. */
  lemma NoLostWakeup(o: Options, s: State, w: nat)
    requires OptionsOk(o) && Reachable(o, s) && w < |s.workers| && s.workers[w].phase.Blocked?
    ensures var Blocked(t, c) := s.workers[w].phase;
            || c in s.lock.closed
            || (t.project in s.lock.states && s.lock.states[t.project].changed == c && !Admits(s.lock, o.perProjectLimit, t))
    ensures Admits(s.lock, o.perProjectLimit, s.workers[w].phase.task) ==> Step(o, s, Wake(w)).Some?
  {
    ReachableInv(o, s);
    assert NothingMissed(s.lock, o.perProjectLimit, s.workers[w].phase.task, s.workers[w].phase.channel);
  }

  /** Every project's current channel is still open, so closing it cannot panic. */
  lemma CloseNeverPanics(o: Options, s: State, p: ProjectID)
    requires OptionsOk(o) && Reachable(o, s)
    ensures EnsureState(s.lock, p).states[p].changed !in s.lock.closed
  {
    ReachableInv(o, s);
  }

  // -------------------------------------------------------------- conservation

  /** Both counts of pending project-wide tasks are the number of tasks that really are pending. */
  lemma PendingConservation(o: Options, s: State, p: ProjectID)
    requires OptionsOk(o) && Reachable(o, s)
    ensures Lookup(s.lock.pendingWide, p) == Pending(s, p)
    ensures EnsureState(s.lock, p).states[p].widePending == Pending(s, p)
    ensures p in s.lock.pendingWide <==> Pending(s, p) > 0
    ensures p in s.lock.states <==> Active(s, p) + Pending(s, p) > 0
  {
    ReachableInv(o, s);
    assert AgreesAt(o, s, p);
  }

  lemma RegisteredIsCounted(o: Options, s: State, t: Task)
    requires Inv(o, s) && t.pending
    requires (exists i :: 0 <= i < |s.submitters| && s.submitters[i].task == t)
          || (exists w :: 0 <= w < |s.workers| && s.workers[w].phase.Waits() && s.workers[w].phase.task == t)
    ensures HasPending(s.lock, t.project)
  {
    assert AgreesAt(o, s, t.project);
    CountNone(s.submitters, Submits(t.project));
    CountNone(s.workers, Holds(t.project));
    if i :| 0 <= i < |s.submitters| && s.submitters[i].task == t {
      assert Submits(t.project)(s.submitters[i]);
    } else {
      var w :| 0 <= w < |s.workers| && s.workers[w].phase.Waits() && s.workers[w].phase.task == t;
      assert Holds(t.project)(s.workers[w]);
    }
  }

  lemma RunningIsCounted(o: Options, s: State, w: nat)
    requires Inv(o, s) && w < |s.workers| && s.workers[w].phase.Running?
    ensures HasActive(s.lock, s.workers[w].phase.task)
  {
    var p := s.workers[w].phase.task.project;
    assert AgreesAt(o, s, p);
    CountSplit(s.workers, w, RunsOn(p));
    CountSplit(s.workers, w, RunsWideOn(p));
    CountSplit(s.workers, w, Runs());
  }

  /** A submitter that withdraws, by cancellation or a full queue, decrements counts that are positive. */
  lemma WithdrawNeverClamps(o: Options, s: State, i: nat)
    requires OptionsOk(o) && Reachable(o, s) && i < |s.submitters| && s.submitters[i].task.ProjectWide()
    ensures HasPending(s.lock, s.submitters[i].task.project)
  {
    ReachableInv(o, s);
    RegisteredIsCounted(o, s, s.submitters[i].task);
  }

  /** So does a worker that starts its project-wide task, or gives it up. */
  lemma WorkerNeverClamps(o: Options, s: State, w: nat)
    requires OptionsOk(o) && Reachable(o, s) && w < |s.workers|
    requires s.workers[w].phase.Waits() && s.workers[w].phase.task.ProjectWide()
    ensures HasPending(s.lock, s.workers[w].phase.task.project)
  {
    ReachableInv(o, s);
    RegisteredIsCounted(o, s, s.workers[w].phase.task);
  }

  /** So does a worker that releases its project. */
  lemma ReleaseNeverClamps(o: Options, s: State, w: nat)
    requires OptionsOk(o) && Reachable(o, s) && w < |s.workers| && s.workers[w].phase.Running?
    ensures HasActive(s.lock, s.workers[w].phase.task)
  {
    ReachableInv(o, s);
    RunningIsCounted(o, s, w);
  }

  predicate HasPending(l: Locked, p: ProjectID) {
    p in l.states && l.states[p].widePending > 0 && Lookup(l.pendingWide, p) > 0
  }

  predicate HasActive(l: Locked, t: Task) {
    && t.project in l.states && l.states[t.project].active > 0
    && l.active > 0 && Lookup(l.activeProject, t.project) > 0
    && (t.ProjectWide() ==> l.states[t.project].wideActive && Lookup(l.projectWide, t.project) > 0)
  }

  // ----------------------------------------------------- exclusion and capacity

  /** Of two tasks of one project that run at once, neither is project-wide. */
  lemma Exclusion(o: Options, s: State, v: nat, w: nat)
    requires OptionsOk(o) && Reachable(o, s) && v < |s.workers| && w < |s.workers| && v != w
    requires s.workers[v].phase.Running? && s.workers[w].phase.Running?
    requires s.workers[v].phase.task.project == s.workers[w].phase.task.project
    ensures !s.workers[v].phase.task.ProjectWide() && !s.workers[w].phase.task.ProjectWide()
  {
    ReachableInv(o, s);
    var p := s.workers[v].phase.task.project;
    assert AgreesAt(o, s, p);
    TwoCount(s.workers, v, w, RunsOn(p));
    CountSplit(s.workers, v, RunsWideOn(p));
    CountSplit(s.workers, w, RunsWideOn(p));
  }

  lemma TwoCount<T>(s: seq<T>, i: nat, j: nat, f: T -> bool)
    requires i < |s| && j < |s| && i != j && f(s[i]) && f(s[j])
    ensures Count(s, f) >= 2
  {
    CountSplit(s, i, f);
    var k := if j < i then j else j - 1;
    assert Remove(s, i)[k] == s[j];
    CountSplit(Remove(s, i), k, f);
  }

  ghost function Total(m: map<ProjectID, int>): int {
    if m == map[] then 0 else
    var p :| p in m;
    m[p] + Total(m - {p})
  }

  lemma {:induction false} TotalWithout(m: map<ProjectID, int>, p: ProjectID)
    requires p in m
    ensures Total(m) == m[p] + Total(m - {p})
  {
    var q :| q in m && Total(m) == m[q] + Total(m - {q});
    if q != p {
      TotalWithout(m - {q}, p);
      TotalWithout(m - {p}, q);
      assert m - {q} - {p} == m - {p} - {q};
    }
  }

  lemma {:induction false} TotalOfTracked(ws: seq<Worker>, m: map<ProjectID, int>)
    requires forall p :: Tracks(m, p, Count(ws, RunsOn(p)))
    ensures Total(m) == Count(ws, Runs())
  {
    if ws == [] {
      forall p ensures p !in m {
        assert Tracks(m, p, Count(ws, RunsOn(p)));
      }
      assert m == map[];
    } else if !ws[0].phase.Running? {
      forall p ensures Tracks(m, p, Count(ws[1..], RunsOn(p))) {
        assert Count(ws, RunsOn(p)) == Count(ws[1..], RunsOn(p));
      }
      TotalOfTracked(ws[1..], m);
    } else {
      var q := ws[0].phase.task.project;
      assert Tracks(m, q, Count(ws, RunsOn(q)));
      var n := if m[q] == 1 then m - {q} else m[q := m[q] - 1];
      forall p ensures Tracks(n, p, Count(ws[1..], RunsOn(p))) {
        assert Tracks(m, p, Count(ws, RunsOn(p)));
      }
      TotalOfTracked(ws[1..], n);
      TotalWithout(m, q);
      if q in n {
        TotalWithout(n, q);
        assert n - {q} == m - {q};
      }
    }
  }

  /**
    No project is over its limit, the diagnostic counts are what runs, and the count of
    all active tasks is the sum of the counts per project.
   */
  lemma Capacity(o: Options, s: State, p: ProjectID)
    requires OptionsOk(o) && Reachable(o, s)
    ensures Active(s, p) <= o.perProjectLimit
    ensures Lookup(s.lock.activeProject, p) == Active(s, p) == EnsureState(s.lock, p).states[p].active
    ensures Lookup(s.lock.projectWide, p) == ActiveWide(s, p) <= 1
    ensures EnsureState(s.lock, p).states[p].wideActive <==> ActiveWide(s, p) == 1
    ensures s.lock.active == Count(s.workers, Runs()) == Total(s.lock.activeProject)
  {
    ReachableInv(o, s);
    assert AgreesAt(o, s, p);
    forall q ensures Tracks(s.lock.activeProject, q, Count(s.workers, RunsOn(q))) {
      assert AgreesAt(o, s, q);
    }
    TotalOfTracked(s.workers, s.lock.activeProject);
  }

  /**
    Who is let in, in terms of what runs and waits: a project-wide task when nothing of its project runs, a path task when
    no project-wide task of its project runs or waits and the project is below its limit.
   */
  lemma AdmitsExactly(o: Options, s: State, t: Task)
    requires OptionsOk(o) && Reachable(o, s)
    ensures t.ProjectWide() ==> (Admits(s.lock, o.perProjectLimit, t) <==> Active(s, t.project) == 0)
    ensures !t.ProjectWide() ==>
              (Admits(s.lock, o.perProjectLimit, t) <==>
                 ActiveWide(s, t.project) == 0 && Pending(s, t.project) == 0 && Active(s, t.project) < o.perProjectLimit)
  {
    ReachableInv(o, s);
    assert AgreesAt(o, s, t.project);
    CountWeaker(s.workers, RunsWideOn(t.project), RunsOn(t.project));
  }

  lemma RunOfTwo(o: Options, s: State, a: Action, t: State, b: Action, u: State)
    requires Step(o, s, a) == Some(t) && Step(o, t, b) == Some(u)
    ensures Run(o, s, [a, b]) == Some(u)
  {
    assert [a, b][1..] == [b] && [b][1..] == [];
    assert Run(o, u, []) == Some(u) && Run(o, t, [b]) == Some(u);
  }

  /** A worker in search of work takes the oldest project-wide task queued, if there is one. */
  lemma FullQueueFirst(o: Options, s: State, w: nat)
    requires OptionsOk(o) && Reachable(o, s) && w < |s.workers| && s.workers[w].phase.Idle? && s.full != []
    ensures Run(o, s, [Poll(w), PollQueue(w)]) == Some(SetPhase(s, w, Holding(s.full[0])).(full := s.full[1..]))
  {
    ReachableInv(o, s);
    assert AgreesAt(o, s, s.full[0].project);
    CountNone(s.full, Queues(s.full[0].project));
    assert Queues(s.full[0].project)(s.full[0]) && s.full[0].project in s.lock.pendingWide;
    var polled := SetPhase(s, w, TryingFull);
    var taken := TakeFrom(polled, w, true);
    assert taken.workers == SetPhase(s, w, Holding(s.full[0])).workers;
    RunOfTwo(o, s, Poll(w), polled, PollQueue(w), taken);
  }

  /** If none is even registered, and live paths are to be preferred, it takes the oldest path task queued. */
  lemma LiveQueueNext(o: Options, s: State, w: nat)
    requires OptionsOk(o) && Reachable(o, s) && w < |s.workers| && s.workers[w].phase.Idle? && s.live != []
    requires o.livePathPriority && forall p :: Pending(s, p) == 0
    ensures Run(o, s, [Poll(w), PollQueue(w)]) == Some(SetPhase(s, w, Holding(s.live[0])).(live := s.live[1..]))
  {
    ReachableInv(o, s);
    forall p ensures p !in s.lock.pendingWide { assert AgreesAt(o, s, p); }
    assert s.lock.pendingWide == map[];
    var polled := SetPhase(s, w, TryingLive);
    var taken := TakeFrom(polled, w, false);
    assert taken.workers == SetPhase(s, w, Holding(s.live[0])).workers;
    RunOfTwo(o, s, Poll(w), polled, PollQueue(w), taken);
  }

  predicate WithinDepth(o: Options, s: State) {
    |s.live| <= o.queueDepth && |s.full| <= o.queueDepth
  }

  lemma StepKeepsDepth(o: Options, s: State, a: Action)
    requires WithinDepth(o, s) && Step(o, s, a).Some?
    ensures WithinDepth(o, Step(o, s, a).value)
  {
  }

  lemma {:induction false} RunKeepsDepth(o: Options, s: State, steps: seq<Action>)
    requires WithinDepth(o, s) && Run(o, s, steps).Some?
    ensures WithinDepth(o, Run(o, s, steps).value)
    decreases |steps|
  {
    if steps != [] {
      StepKeepsDepth(o, s, steps[0]);
      RunKeepsDepth(o, Step(o, s, steps[0]).value, steps[1..]);
    }
  }

  /** Neither queue ever holds more than QueueDepth tasks. */
  lemma QueuesBounded(o: Options, s: State)
    requires OptionsOk(o) && Reachable(o, s)
    ensures |s.live| <= o.queueDepth && |s.full| <= o.queueDepth
  {
    var steps :| Run(o, INITIAL, steps) == Some(s);
    RunKeepsDepth(o, INITIAL, steps);
  }

  function OfGeneration(g: nat): Worker -> bool {
    (w: Worker) => w.generation == g
  }

  ghost predicate Generations(o: Options, s: State) {
    forall g: nat :: Count(s.workers, OfGeneration(g)) == if g < |s.cancelled| then o.globalWorkers else 0
  }

  lemma StartKeepsGenerations(o: Options, s: State)
    requires OptionsOk(o) && Generations(o, s) && !s.started
    ensures Generations(o, Step(o, s, Start).value)
  {
    var idle := seq(o.globalWorkers, _ => Worker(|s.cancelled|, Idle));
    forall g: nat ensures Count(s.workers + idle, OfGeneration(g)) == if g <= |s.cancelled| then o.globalWorkers else 0 {
      CountConcat(s.workers, idle, OfGeneration(g));
      if g == |s.cancelled| { CountAll(idle, OfGeneration(g)); } else { CountNone(idle, OfGeneration(g)); }
    }
  }

  lemma StepKeepsGeneration(o: Options, s: State, a: Action, g: nat)
    requires Step(o, s, a).Some? && !a.Start?
    ensures Count(Step(o, s, a).value.workers, OfGeneration(g)) == Count(s.workers, OfGeneration(g))
  {
    var s' := Step(o, s, a).value;
    MovesOneWorker(o, s, a);
    if s'.workers != s.workers {
      CountUpdate(s.workers, a.w, s'.workers[a.w], OfGeneration(g));
    }
  }

  lemma StepKeepsGenerations(o: Options, s: State, a: Action)
    requires OptionsOk(o) && Generations(o, s) && Step(o, s, a).Some?
    ensures Generations(o, Step(o, s, a).value)
  {
    if a.Start? {
      StartKeepsGenerations(o, s);
    } else {
      forall g: nat ensures Count(Step(o, s, a).value.workers, OfGeneration(g)) == Count(s.workers, OfGeneration(g)) {
        StepKeepsGeneration(o, s, a, g);
      }
    }
  }

  lemma {:induction false} CountAll<T>(s: seq<T>, f: T -> bool)
    requires forall i :: 0 <= i < |s| ==> f(s[i])
    ensures Count(s, f) == |s|
  {
    if s != [] { CountAll(s[1..], f); }
  }

  lemma {:induction false} RunKeepsGenerations(o: Options, s: State, steps: seq<Action>)
    requires OptionsOk(o) && Generations(o, s) && Run(o, s, steps).Some?
    ensures Generations(o, Run(o, s, steps).value)
    decreases |steps|
  {
    if steps != [] {
      StepKeepsGenerations(o, s, steps[0]);
      RunKeepsGenerations(o, Step(o, s, steps[0]).value, steps[1..]);
    }
  }

  function Alive(): Worker -> bool {
    (w: Worker) => !w.phase.Exited?
  }

  /**
    No more tasks run than there are workers left. So unless a worker of an earlier Start is still there, at most
    GlobalWorkerCount tasks run; `OverrunExactly` shows that the condition is needed.
   */
  lemma GlobalCapacity(o: Options, s: State, g: nat)
    requires OptionsOk(o) && Reachable(o, s)
    ensures s.lock.active <= Count(s.workers, Alive())
    ensures (forall w :: 0 <= w < |s.workers| && s.workers[w].generation != g ==> s.workers[w].phase.Exited?) ==>
              s.lock.active <= o.globalWorkers
  {
    ReachableInv(o, s);
    var steps :| Run(o, INITIAL, steps) == Some(s);
    RunKeepsGenerations(o, INITIAL, steps);
    assert Count(s.workers, OfGeneration(g)) <= o.globalWorkers;
    CountWeaker(s.workers, Runs(), Alive());
    if forall w :: 0 <= w < |s.workers| && s.workers[w].generation != g ==> s.workers[w].phase.Exited? {
      CountWeaker(s.workers, Alive(), OfGeneration(g));
    }
  }

  // ---------------------------------------------- writer preference and progress

  predicate StartsWide(s: State, a: Action, p: ProjectID) {
    && a.Acquire? && a.w < |s.workers| && s.workers[a.w].phase.Holding?
    && s.workers[a.w].phase.task.project == p && s.workers[a.w].phase.task.ProjectWide()
  }

  lemma MoveUnderWriter(o: Options, s: State, a: Action, p: ProjectID)
    requires OptionsOk(o) && AgreesAt(o, s, p) && !a.Start? && Step(o, s, a).Some? && Pending(s, p) > 0
    ensures var n := Active(Step(o, s, a).value, p);
            n <= Active(s, p) || (StartsWide(s, a, p) && Active(s, p) == 0 && n == 1)
  {
    var s' := Step(o, s, a).value;
    MovesOneWorker(o, s, a);
    if s'.workers != s.workers {
      CountUpdate(s.workers, a.w, s'.workers[a.w], RunsOn(p));
    }
  }

  /** While a project-wide task is pending, only a project-wide task can raise the active count, and only from zero. */
  lemma WriterPreference(o: Options, s: State, a: Action, p: ProjectID)
    requires OptionsOk(o) && Inv(o, s) && Step(o, s, a).Some? && Pending(s, p) > 0
    ensures var n := Active(Step(o, s, a).value, p);
            n <= Active(s, p) || (StartsWide(s, a, p) && Active(s, p) == 0 && n == 1)
  {
    assert AgreesAt(o, s, p);
    if a.Start? {
      IdleCounts(s, seq(o.globalWorkers, _ => Worker(|s.cancelled|, Idle)), p);
    } else {
      MoveUnderWriter(o, s, a, p);
    }
  }

  /** Some project-wide task of `p` stays pending all along, and none of them starts. */
  predicate KeepsWaiting(o: Options, s: State, steps: seq<Action>, p: ProjectID)
    decreases |steps|
  {
    Pending(s, p) > 0 &&
    (steps != [] ==>
       && !StartsWide(s, steps[0], p)
       && Step(o, s, steps[0]).Some?
       && KeepsWaiting(o, Step(o, s, steps[0]).value, steps[1..], p))
  }

  /** However long a project-wide task is kept waiting, its project only drains. */
  lemma {:induction false} WaitingDrains(o: Options, s: State, steps: seq<Action>, p: ProjectID)
    requires OptionsOk(o) && Inv(o, s) && KeepsWaiting(o, s, steps, p)
    ensures Run(o, s, steps).Some? && Active(Run(o, s, steps).value, p) <= Active(s, p)
    decreases |steps|
  {
    if steps != [] {
      WriterPreference(o, s, steps[0], p);
      StepKeeps(o, s, steps[0]);
      WaitingDrains(o, Step(o, s, steps[0]).value, steps[1..], p);
    }
  }

  lemma DrainedAdmitsWriter(o: Options, s: State, t: Task)
    requires Inv(o, s) && t.ProjectWide() && Active(s, t.project) == 0
    ensures Admits(s.lock, o.perProjectLimit, t)
  {
    assert AgreesAt(o, s, t.project);
    CountWeaker(s.workers, RunsWideOn(t.project), RunsOn(t.project));
  }

  /** A worker that holds a project-wide task of a drained project can start it at once. */
  lemma EnabledDrain(o: Options, s: State, w: nat)
    requires OptionsOk(o) && Reachable(o, s) && w < |s.workers|
    requires s.workers[w].phase.Holding? || s.workers[w].phase.Blocked?
    requires s.workers[w].phase.task.ProjectWide() && Active(s, s.workers[w].phase.task.project) == 0
    ensures var held := if s.workers[w].phase.Blocked? then Step(o, s, Wake(w)) else Some(s);
            && held.Some? && w < |held.value.workers|
            && var end := Step(o, held.value, Acquire(w));
               end.Some? && end.value.workers[w].phase == Running(s.workers[w].phase.task.(pending := false))
  {
    ReachableInv(o, s);
    var phase := s.workers[w].phase;
    DrainedAdmitsWriter(o, s, phase.task);
    if phase.Blocked? {
      NoLostWakeup(o, s, w);
      assert Step(o, s, Wake(w)) == Some(SetPhase(s, w, Holding(phase.task)));
      AdmittedStarts(o, SetPhase(s, w, Holding(phase.task)), w);
    } else {
      AdmittedStarts(o, s, w);
    }
  }

  lemma AdmittedStarts(o: Options, s: State, w: nat)
    requires w < |s.workers| && s.workers[w].phase.Holding? && Admits(s.lock, o.perProjectLimit, s.workers[w].phase.task)
    ensures var end := Step(o, s, Acquire(w));
            end.Some? && w < |end.value.workers| && end.value.workers[w].phase == Running(s.workers[w].phase.task.(pending := false))
  {
    assert Step(o, s, Acquire(w)) == Some(AcquireWorker(o, s, w));
  }

  /** A worker that holds a project-wide task either can start it, or waits for a task that is running. */
  lemma HeldWriterProgress(o: Options, s: State, w: nat)
    requires OptionsOk(o) && Reachable(o, s) && w < |s.workers|
    requires s.workers[w].phase.Holding? || s.workers[w].phase.Blocked?
    requires s.workers[w].phase.task.ProjectWide()
    ensures Admits(s.lock, o.perProjectLimit, s.workers[w].phase.task)
            <==> !exists v :: 0 <= v < |s.workers| && RunsOn(s.workers[w].phase.task.project)(s.workers[v])
  {
    ReachableInv(o, s);
    var p := s.workers[w].phase.task.project;
    assert AgreesAt(o, s, p);
    CountNone(s.workers, RunsOn(p));
    CountWeaker(s.workers, RunsWideOn(p), RunsOn(p));
  }

  ghost predicate AllBlocked(s: State) {
    forall w :: 0 <= w < |s.workers| ==> s.workers[w].phase.Blocked?
  }

  /**
    When every worker is blocked, no worker's task would be let in now exactly when
    every worker holds a path task of a project with a pending project-wide task, and
    then no worker holds any of those project-wide tasks. (Whether it stays like that
    is what `SchedulerStuck` decides.)
   */
  lemma RefusedExactly(o: Options, s: State)
    requires OptionsOk(o) && Reachable(o, s) && AllBlocked(s)
    ensures (forall w :: 0 <= w < |s.workers| ==> !Admits(s.lock, o.perProjectLimit, s.workers[w].phase.task))
            <==> (forall w :: 0 <= w < |s.workers| ==>
                    !s.workers[w].phase.task.ProjectWide() && Pending(s, s.workers[w].phase.task.project) > 0)
    ensures (forall w :: 0 <= w < |s.workers| ==> !Admits(s.lock, o.perProjectLimit, s.workers[w].phase.task))
            ==> forall p :: Count(s.workers, Holds(p)) == 0
  {
    ReachableInv(o, s);
    forall w | 0 <= w < |s.workers|
      ensures var t := s.workers[w].phase.task;
              !Admits(s.lock, o.perProjectLimit, t) <==> !t.ProjectWide() && Pending(s, t.project) > 0
    {
      var p := s.workers[w].phase.task.project;
      assert AgreesAt(o, s, p);
      CountNone(s.workers, RunsOn(p));
      CountNone(s.workers, RunsWideOn(p));
    }
    if forall w :: 0 <= w < |s.workers| ==> !Admits(s.lock, o.perProjectLimit, s.workers[w].phase.task) {
      forall p ensures Count(s.workers, Holds(p)) == 0 {
        CountNone(s.workers, Holds(p));
      }
    }
  }
}
