/** How far the bound on active tasks reaches: what Stops that do not wait for their workers can do. */
module SchedulerLimits {
  import opened Wrappers
  import opened Counting
  import opened SchedulerSpec
  import opened SchedulerProtocol
  import opened SchedulerGuarantees
  import opened SchedulerRuns

  // ------------------------------------------------------ the bound until the next Stop

  predicate NoStop(steps: seq<Action>) {
    forall a :: a in steps ==> !a.Stop?
  }

  ghost predicate LeadsUntilStop(o: Options, s: State, t: State) {
    exists steps :: NoStop(steps) && Run(o, s, steps) == Some(t)
  }

  lemma LeadsEitherWay(o: Options, s: State, t: State)
    requires Leads(o, s, t)
    ensures LeadsUntilStop(o, s, t)
  {
    var steps :| Undisturbed(steps) && Run(o, s, steps) == Some(t);
    assert NoStop(steps);
  }

  /** The workers there are, and those that the next Start will make. */
  function Room(o: Options, s: State): int {
    Count(s.workers, Alive()) + if s.started then 0 else o.globalWorkers
  }

  lemma StartTakesRoom(o: Options, s: State)
    requires OptionsOk(o) && !s.started
    ensures Step(o, s, Start).Some? && Count(Step(o, s, Start).value.workers, Alive()) == Count(s.workers, Alive()) + o.globalWorkers
  {
    var idle := seq(o.globalWorkers, _ => Worker(|s.cancelled|, Idle));
    CountConcat(s.workers, idle, Alive());
    CountAll(idle, Alive());
  }

  lemma ExitedStays(o: Options, s: State, a: Action)
    requires a.Poll? || a.PollQueue? || a.TakeLive? || a.TakeFull? || a.Exit? || a.Acquire? || a.Wake? || a.GiveUp? || a.Fail? || a.Finish?
    requires StepWorker(o, s, a).Some?
    ensures a.w < |s.workers| && !s.workers[a.w].phase.Exited?
  {
  }

  lemma MoveKeepsRoom(o: Options, s: State, a: Action)
    requires !a.Start? && Step(o, s, a).Some?
    ensures Count(Step(o, s, a).value.workers, Alive()) <= Count(s.workers, Alive())
  {
    var s' := Step(o, s, a).value;
    MovesOneWorker(o, s, a);
    if s'.workers != s.workers {
      CountUpdate(s.workers, a.w, s'.workers[a.w], Alive());
      ExitedStays(o, s, a);
    }
  }

  lemma StepKeepsRoom(o: Options, s: State, a: Action)
    requires OptionsOk(o) && !a.Stop? && Step(o, s, a).Some?
    ensures Room(o, Step(o, s, a).value) <= Room(o, s)
  {
    if a.Start? { StartTakesRoom(o, s); } else { MoveKeepsRoom(o, s, a); }
  }

  lemma {:induction false} RunKeepsRoom(o: Options, s: State, steps: seq<Action>)
    requires OptionsOk(o) && NoStop(steps) && Run(o, s, steps).Some?
    ensures Room(o, Run(o, s, steps).value) <= Room(o, s)
    decreases |steps|
  {
    if steps != [] {
      StepKeepsRoom(o, s, steps[0]);
      RunKeepsRoom(o, Step(o, s, steps[0]).value, steps[1..]);
    }
  }

  /** Until the next Stop no more tasks run than there are workers left over and workers that Start makes. */
  lemma ActiveWithinRoom(o: Options, s: State, t: State)
    requires OptionsOk(o) && Reachable(o, s) && LeadsUntilStop(o, s, t)
    ensures t.lock.active <= Room(o, s)
  {
    var steps :| NoStop(steps) && Run(o, s, steps) == Some(t);
    RunKeepsRoom(o, s, steps);
    ReachableOn(o, s, steps, t);
    GlobalCapacity(o, t, 0);
  }

  // ------------------------------------------------- a stopped worker empties the queues

  /** Every context but that of the latest Start is cancelled, and that one too once the scheduler is stopped. */
  ghost predicate Obeys(s: State) {
    && (forall w :: 0 <= w < |s.workers| ==> s.workers[w].generation < |s.cancelled|)
    && (forall g :: 0 <= g < |s.cancelled| && !(s.started && g == |s.cancelled| - 1) ==> s.cancelled[g])
  }

  lemma ContextsStay(o: Options, s: State, a: Action)
    requires Step(o, s, a).Some? && !a.Start? && !a.Stop? && !a.CancelParent?
    ensures Step(o, s, a).value.started == s.started && Step(o, s, a).value.cancelled == s.cancelled
  {
  }

  lemma StepObeys(o: Options, s: State, a: Action)
    requires Obeys(s) && Step(o, s, a).Some?
    ensures Obeys(Step(o, s, a).value)
  {
    var s' := Step(o, s, a).value;
    if a.Start? || a.Stop? || a.CancelParent? {
      assert a.Start? || s'.workers == s.workers;
    } else {
      ContextsStay(o, s, a);
      MovesOneWorker(o, s, a);
    }
  }

  lemma {:induction false} RunObeys(o: Options, s: State, steps: seq<Action>)
    requires Obeys(s) && Run(o, s, steps).Some?
    ensures Obeys(Run(o, s, steps).value)
    decreases |steps|
  {
    if steps != [] {
      StepObeys(o, s, steps[0]);
      RunObeys(o, Step(o, s, steps[0]).value, steps[1..]);
    }
  }

  ghost predicate AllCancelled(s: State) {
    forall w :: 0 <= w < |s.workers| ==> Cancelled(s, w)
  }

  lemma StoppedIsCancelled(o: Options, s: State)
    requires Reachable(o, s) && !s.started
    ensures AllCancelled(s)
  {
    var steps :| Run(o, INITIAL, steps) == Some(s);
    RunObeys(o, INITIAL, steps);
  }

  /** How far worker `v` is from selecting with both queues empty. */
  function ToDrain(s: State, v: nat): nat
    requires v < |s.workers|
  {
    10 * (|s.live| + |s.full|) + Distance(s.workers[v].phase)
  }

  /** What a cancelled worker does next to empty the queues. */
  function DrainAction(s: State, v: nat): Action
    requires v < |s.workers| && !s.workers[v].phase.Exited?
  {
    match s.workers[v].phase
    case Idle => Poll(v)
    case TryingFull => PollQueue(v)
    case TryingLive => PollQueue(v)
    case Selecting => if s.live != [] then TakeLive(v) else TakeFull(v)
    case Holding(_) => Acquire(v)
    case Blocked(_, _) => GiveUp(v)
    case Failing(_) => Fail(v)
    case Running(_) => Finish(v)
  }

  lemma DrainStep(o: Options, s: State, v: nat) returns (t: State)
    requires v < |s.workers| && !s.workers[v].phase.Exited? && Cancelled(s, v)
    requires !(s.workers[v].phase.Selecting? && QueuesEmpty(s))
    ensures Leads(o, s, t) && OnlyMoves(s, t, v) && ToDrain(t, v) < ToDrain(s, v)
  {
    var a := DrainAction(s, v);
    t := Step(o, s, a).value;
    LeadsByStep(o, s, a, t);
  }

  lemma Drain(o: Options, s: State, v: nat) returns (t: State)
    requires v < |s.workers| && !s.workers[v].phase.Exited? && Cancelled(s, v)
    ensures Leads(o, s, t) && OnlyMoves(s, t, v) && t.workers[v].phase.Selecting? && QueuesEmpty(t)
    decreases ToDrain(s, v)
  {
    if s.workers[v].phase.Selecting? && QueuesEmpty(s) {
      t := s;
      LeadsToItself(o, s);
    } else {
      var next := DrainStep(o, s, v);
      t := Drain(o, next, v);
      LeadsOn(o, s, next, t);
    }
  }

  /** The same workers are there, and nobody else has come or gone. */
  predicate SameCrew(s: State, t: State) {
    && |t.workers| == |s.workers| && t.submitters == s.submitters && t.started == s.started && t.cancelled == s.cancelled
    && forall w :: 0 <= w < |s.workers| ==>
                     t.workers[w].generation == s.workers[w].generation
                     && (t.workers[w].phase.Exited? <==> s.workers[w].phase.Exited?)
  }

  ghost predicate ReadyUpTo(s: State, n: nat) {
    forall w :: 0 <= w < n && w < |s.workers| ==> s.workers[w].phase.Selecting? || s.workers[w].phase.Exited?
  }

  lemma DrainUpTo(o: Options, s: State, n: nat) returns (t: State)
    requires n <= |s.workers| && AllCancelled(s)
    ensures Leads(o, s, t) && SameCrew(s, t) && ReadyUpTo(t, n)
    ensures QueuesEmpty(s) || (exists w :: 0 <= w < n && Alive()(s.workers[w])) ==> QueuesEmpty(t)
  {
    if n == 0 {
      t := s;
      LeadsToItself(o, s);
    } else {
      var before := DrainUpTo(o, s, n - 1);
      if before.workers[n - 1].phase.Exited? {
        t := before;
      } else {
        assert Cancelled(s, n - 1);
        t := Drain(o, before, n - 1);
        LeadsOn(o, s, before, t);
      }
    }
  }

  // ----------------------------------------------------------- every worker gets going

  ghost predicate BusyFrom(s: State, n: nat) {
    forall w :: n <= w < |s.workers| ==> s.workers[w].phase.Running? || s.workers[w].phase.Exited?
  }

  ghost predicate CanWork(s: State) {
    forall w :: 0 <= w < |s.workers| ==> LooksForWork(s.workers[w].phase) || s.workers[w].phase.Running? || s.workers[w].phase.Exited?
  }

  lemma OnlyMovesKeeps(s: State, t: State, v: nat)
    requires v < |s.workers| && OnlyMoves(s, t, v) && CanWork(s) && BusyFrom(s, v + 1)
    requires !s.workers[v].phase.Exited? && t.workers[v].phase.Running?
    ensures SameCrew(s, t) && CanWork(t) && BusyFrom(t, v)
  {
  }

  lemma OneGetsGoing(o: Options, s: State, v: nat) returns (t: State)
    requires OptionsOk(o) && QueuesEmpty(s) && v < |s.workers| && CanWork(s) && BusyFrom(s, v + 1)
    ensures Leads(o, s, t) && SameCrew(s, t) && QueuesEmpty(t) && CanWork(t) && BusyFrom(t, v)
  {
    if LooksForWork(s.workers[v].phase) {
      t := GetGoing(o, s, v);
      OnlyMovesKeeps(s, t, v);
    } else {
      t := s;
      LeadsToItself(o, s);
    }
  }

  lemma SameCrewOn(s: State, t: State, u: State)
    requires SameCrew(s, t) && SameCrew(t, u)
    ensures SameCrew(s, u)
  {
  }

  lemma AllGetGoing(o: Options, s: State, n: nat) returns (t: State)
    requires OptionsOk(o) && QueuesEmpty(s) && n <= |s.workers| && CanWork(s) && BusyFrom(s, n)
    ensures Leads(o, s, t) && SameCrew(s, t) && BusyFrom(t, 0)
    decreases n
  {
    if n == 0 {
      t := s;
      LeadsToItself(o, s);
    } else {
      var next := OneGetsGoing(o, s, n - 1);
      t := AllGetGoing(o, next, n - 1);
      LeadsOn(o, s, next, t);
      SameCrewOn(s, next, t);
    }
  }

  // ------------------------------------------------------------------ how many can run

  lemma {:induction false} CountSame<T>(s: seq<T>, t: seq<T>, f: T -> bool, g: T -> bool)
    requires |s| == |t| && forall i :: 0 <= i < |s| ==> f(s[i]) == g(t[i])
    ensures Count(s, f) == Count(t, g)
  {
    if s != [] { CountSame(s[1..], t[1..], f, g); }
  }

  lemma StartAfterDrain(o: Options, s: State) returns (t: State)
    requires OptionsOk(o) && !s.started && ReadyUpTo(s, |s.workers|) && QueuesEmpty(s)
    ensures Leads(o, s, t) && CanWork(t) && QueuesEmpty(t)
    ensures Count(t.workers, Alive()) == Count(s.workers, Alive()) + o.globalWorkers
  {
    t := Step(o, s, Start).value;
    LeadsByStep(o, s, Start, t);
    StartTakesRoom(o, s);
  }

  lemma AllBusy(o: Options, s: State)
    requires OptionsOk(o) && Reachable(o, s) && BusyFrom(s, 0)
    ensures s.lock.active == Count(s.workers, Alive())
  {
    ReachableInv(o, s);
    CountSame(s.workers, s.workers, Runs(), Alive());
  }

  /** Workers left over from an earlier Start can all be put to work beside those of the next one. */
  lemma FillUp(o: Options, s: State) returns (t: State)
    requires OptionsOk(o) && Reachable(o, s) && !s.started
    requires QueuesEmpty(s) || exists w :: 0 <= w < |s.workers| && Alive()(s.workers[w])
    ensures Leads(o, s, t) && t.lock.active == o.globalWorkers + Count(s.workers, Alive())
  {
    StoppedIsCancelled(o, s);
    var drained := DrainUpTo(o, s, |s.workers|);
    CountSame(s.workers, drained.workers, Alive(), Alive());
    var begun := StartAfterDrain(o, drained);
    LeadsOn(o, s, drained, begun);
    t := AllGetGoing(o, begun, |begun.workers|);
    LeadsOn(o, s, begun, t);
    CountSame(begun.workers, t.workers, Alive(), Alive());
    LeadsReachable(o, s, t);
    AllBusy(o, t);
  }

  /**
    What a stopped scheduler can still come to, before it is stopped again: more tasks than GlobalWorkerCount at once
    if and only if a worker is left over, and at most as many more as workers are, which can be reached.
   */
  lemma OverrunExactly(o: Options, s: State)
    requires OptionsOk(o) && Reachable(o, s) && !s.started
    ensures var left := Count(s.workers, Alive());
            && (forall t :: LeadsUntilStop(o, s, t) ==> t.lock.active <= o.globalWorkers + left)
            && (left > 0 ==> exists t :: LeadsUntilStop(o, s, t) && t.lock.active == o.globalWorkers + left)
            && ((exists t :: LeadsUntilStop(o, s, t) && t.lock.active > o.globalWorkers) <==> left > 0)
  {
    forall t | LeadsUntilStop(o, s, t) ensures t.lock.active <= o.globalWorkers + Count(s.workers, Alive()) {
      ActiveWithinRoom(o, s, t);
    }
    CountNone(s.workers, Alive());
    if Count(s.workers, Alive()) > 0 {
      var t := FillUp(o, s);
      LeadsEitherWay(o, s, t);
    }
  }

  lemma StartedAndStopped(o: Options, s: State) returns (t: State)
    requires OptionsOk(o) && Reachable(o, s) && !s.started && QueuesEmpty(s)
    ensures Reachable(o, t) && !t.started && QueuesEmpty(t) && Count(t.workers, Alive()) == Count(s.workers, Alive()) + o.globalWorkers
  {
    var begun := Step(o, s, Start).value;
    t := Step(o, begun, Stop).value;
    assert Run(o, begun, [Start, Stop][1..]) == Some(t) by {
      assert [Start, Stop][1..] == [Stop] && Run(o, t, [Stop][1..]) == Some(t);
    }
    ReachableOn(o, s, [Start, Stop], t);
    StartTakesRoom(o, s);
  }

  lemma OneMoreTime(n: nat, x: int)
    requires n > 0
    ensures (n - 1) * x + x == n * x
  {
  }

  /** Stops that do not wait for their workers, `n` of them, leave `n` times GlobalWorkerCount behind. */
  lemma LeftOver(o: Options, n: nat) returns (s: State)
    requires OptionsOk(o)
    ensures Reachable(o, s) && !s.started && QueuesEmpty(s) && Count(s.workers, Alive()) == n * o.globalWorkers
  {
    if n == 0 {
      s := INITIAL;
      assert Run(o, INITIAL, []) == Some(s);
    } else {
      var before := LeftOver(o, n - 1);
      s := StartedAndStopped(o, before);
      OneMoreTime(n, o.globalWorkers);
    }
  }

  /** So with whatever options, any multiple of GlobalWorkerCount can run after enough Stops that timed out. */
  lemma StopThatTimedOut(o: Options, n: nat) returns (s: State)
    requires OptionsOk(o)
    ensures Reachable(o, s) && s.lock.active == n * o.globalWorkers
  {
    if n == 0 {
      s := INITIAL;
      assert Run(o, INITIAL, []) == Some(s);
    } else {
      var stopped := LeftOver(o, n - 1);
      s := FillUp(o, stopped);
      LeadsReachable(o, stopped, s);
      OneMoreTime(n, o.globalWorkers);
    }
  }

  // ------------------------------------------------------------- a project at its limit

  function PathTask(p: ProjectID): Task {
    Task(p, Path, false)
  }

  lemma {:induction false} CountFirst<T>(s: seq<T>, k: nat, f: T -> bool)
    requires k <= |s| && forall i :: 0 <= i < |s| ==> (f(s[i]) <==> i < k)
    ensures Count(s, f) == k
  {
    if s != [] {
      assert forall i :: 0 <= i < |s[1..]| ==> s[1..][i] == s[i + 1];
      CountFirst(s[1..], if k == 0 then 0 else k - 1, f);
    }
  }

  lemma CrewCounts(o: Options, p: ProjectID, k: nat, s: State)
    requires k <= o.globalWorkers && s.submitters == [] && s.full == []
    requires s.workers == Crew(o.globalWorkers, k, Running(PathTask(p)), Holding(PathTask(p)))
    ensures Active(s, p) == k && ActiveWide(s, p) == 0 && Pending(s, p) == 0
  {
    CountFirst(s.workers, k, RunsOn(p));
    CountNone(s.workers, RunsWideOn(p));
    CountNone(s.workers, Holds(p));
  }

  lemma OneMoreRuns(o: Options, p: ProjectID, k: nat, before: State) returns (s: State)
    requires OptionsOk(o) && k < o.perProjectLimit && Reachable(o, before) && before.submitters == [] && before.full == []
    requires before.workers == Crew(o.globalWorkers, k, Running(PathTask(p)), Holding(PathTask(p)))
    ensures Leads(o, before, s) && s.submitters == [] && s.full == []
    ensures s.workers == Crew(o.globalWorkers, k + 1, Running(PathTask(p)), Holding(PathTask(p)))
  {
    CrewCounts(o, p, k, before);
    AdmitsExactly(o, before, PathTask(p));
    s := AcquireWorker(o, before, k);
    LeadsByStep(o, before, Acquire(k), s);
    OneMoreOfCrew(o.globalWorkers, k, Running(PathTask(p)), Holding(PathTask(p)));
  }

  /** The first `k` workers run a path task of `p`, and all others hold one. */
  lemma PathTasksRun(o: Options, p: ProjectID, k: nat) returns (s: State)
    requires OptionsOk(o) && k <= o.perProjectLimit
    ensures Reachable(o, s) && s.submitters == [] && s.full == []
    ensures s.workers == Crew(o.globalWorkers, k, Running(PathTask(p)), Holding(PathTask(p)))
  {
    if k == 0 {
      s := TasksTaken(o, p, o.globalWorkers);
      TakeTasks(o, p, o.globalWorkers);
      assert Reachable(o, INITIAL) by { assert Run(o, INITIAL, []) == Some(INITIAL); }
      LeadsReachable(o, INITIAL, s);
      assert s.workers == Crew(o.globalWorkers, 0, Running(PathTask(p)), Holding(PathTask(p)));
    } else {
      var before := PathTasksRun(o, p, k - 1);
      s := OneMoreRuns(o, p, k - 1, before);
      LeadsReachable(o, before, s);
    }
  }

  /** For all options and every project: as many of its path tasks as the limit allows can run at once, and so can any fewer. */
  lemma LimitIsReached(o: Options, p: ProjectID, k: nat) returns (s: State)
    requires OptionsOk(o) && k <= o.perProjectLimit
    ensures Reachable(o, s) && Active(s, p) == k && ActiveWide(s, p) == 0
  {
    s := PathTasksRun(o, p, k);
    CrewCounts(o, p, k, s);
  }
}
