/** Where the scheduler can be led while nobody stops it, and how a worker is brought to run a task. */
module SchedulerRuns {
  import opened Wrappers
  import opened Counting
  import opened SchedulerSpec
  import opened SchedulerProtocol
  import opened SchedulerGuarantees

  predicate Disturbs(a: Action) {
    a.Stop? || a.CancelParent?
  }

  /** Neither Stop nor the end of a parent context is among the steps. */
  predicate Undisturbed(steps: seq<Action>) {
    forall a :: a in steps ==> !Disturbs(a)
  }

  ghost predicate Leads(o: Options, s: State, t: State) {
    exists steps :: Undisturbed(steps) && Run(o, s, steps) == Some(t)
  }

  lemma {:induction false} RunConcat(o: Options, s: State, a: seq<Action>, b: seq<Action>)
    requires Run(o, s, a).Some?
    ensures Run(o, s, a + b) == Run(o, Run(o, s, a).value, b)
    decreases |a|
  {
    if a == [] {
      assert a + b == b;
    } else {
      assert (a + b)[1..] == a[1..] + b;
      RunConcat(o, Step(o, s, a[0]).value, a[1..], b);
    }
  }

  lemma LeadsToItself(o: Options, s: State)
    ensures Leads(o, s, s)
  {
    assert Undisturbed([]) && Run(o, s, []) == Some(s);
  }

  lemma LeadsOn(o: Options, s: State, t: State, u: State)
    requires Leads(o, s, t) && Leads(o, t, u)
    ensures Leads(o, s, u)
  {
    var a :| Undisturbed(a) && Run(o, s, a) == Some(t);
    var b :| Undisturbed(b) && Run(o, t, b) == Some(u);
    RunConcat(o, s, a, b);
    assert Undisturbed(a + b);
  }

  lemma LeadsByStep(o: Options, s: State, a: Action, t: State)
    requires !Disturbs(a) && Step(o, s, a) == Some(t)
    ensures Leads(o, s, t)
  {
    assert Run(o, t, [a][1..]) == Some(t);
    assert Undisturbed([a]) && Run(o, s, [a]) == Some(t);
  }

  lemma LeadsByTwo(o: Options, s: State, a: Action, t: State, b: Action, u: State)
    requires !Disturbs(a) && Step(o, s, a) == Some(t) && !Disturbs(b) && Step(o, t, b) == Some(u)
    ensures Leads(o, s, u)
  {
    LeadsByStep(o, s, a, t);
    LeadsByStep(o, t, b, u);
    LeadsOn(o, s, t, u);
  }

  lemma ReachableOn(o: Options, s: State, steps: seq<Action>, t: State)
    requires Reachable(o, s) && Run(o, s, steps) == Some(t)
    ensures Reachable(o, t)
  {
    var before :| Run(o, INITIAL, before) == Some(s);
    RunConcat(o, INITIAL, before, steps);
  }

  lemma LeadsReachable(o: Options, s: State, t: State)
    requires Reachable(o, s) && Leads(o, s, t)
    ensures Reachable(o, t)
  {
    var steps :| Undisturbed(steps) && Run(o, s, steps) == Some(t);
    ReachableOn(o, s, steps, t);
  }

  /** Only worker `v`, the queues and the lock may differ, and `v` is still there. */
  predicate OnlyMoves(s: State, t: State, v: nat)
    requires v < |s.workers|
  {
    && |t.workers| == |s.workers|
    && t == s.(workers := s.workers[v := s.workers[v].(phase := t.workers[v].phase)], lock := t.lock, live := t.live, full := t.full)
    && !t.workers[v].phase.Exited?
  }

  predicate QueuesEmpty(s: State) {
    s.live == [] && s.full == []
  }

  function Distance(p: Phase): nat {
    match p
    case Exited => 0
    case Selecting => 0
    case TryingLive => 1
    case TryingFull => 2
    case Idle => 3
    case Running(_) => 4
    case Failing(_) => 4
    case Blocked(_, _) => 5
    case Holding(_) => 6
  }

  // ----------------------------------------------------------- a worker gets a task going

  /** A name longer than all of the given ones is a new one. */
  lemma NewProject(names: set<ProjectID>) returns (p: ProjectID)
    ensures p !in names && forall q :: q in names ==> |q| < |p|
  {
    if names == {} {
      p := "a";
    } else {
      var q :| q in names;
      var p' := NewProject(names - {q});
      p := p' + q + "a";
      forall r | r in names ensures |r| < |p| {
        if r != q { assert r in names - {q}; }
      }
    }
  }

  predicate LooksForWork(p: Phase) {
    p.Idle? || p.TryingFull? || p.TryingLive? || p.Selecting?
  }

  function WithTask(s: State, v: nat, task: Task): State
    requires v < |s.workers|
  {
    SetPhase(s, v, Holding(task)).(live := [], full := [])
  }

  lemma TakeOnly(o: Options, s: State, v: nat, task: Task) returns (t: State)
    requires v < |s.workers| && LooksForWork(s.workers[v].phase) && s.live == [task] && s.full == []
    ensures Leads(o, s, t) && t == WithTask(s, v, task)
    decreases Distance(s.workers[v].phase)
  {
    var a := if s.workers[v].phase.Idle? then Poll(v) else if s.workers[v].phase.Selecting? then TakeLive(v) else PollQueue(v);
    var next := Step(o, s, a).value;
    LeadsByStep(o, s, a, next);
    if s.workers[v].phase.Selecting? || s.workers[v].phase.TryingLive? {
      t := next;
    } else {
      t := TakeOnly(o, next, v, task);
      LeadsOn(o, s, next, t);
      assert s.workers[v := next.workers[v]][v := t.workers[v]] == s.workers[v := t.workers[v]];
    }
  }

  lemma Deliver(o: Options, s: State, task: Task) returns (t: State)
    requires OptionsOk(o) && QueuesEmpty(s) && task.kind.Path? && !task.pending
    ensures Leads(o, s, t) && t == s.(live := [task])
  {
    var sent := s.(submitters := s.submitters + [Submitter(task, true)]);
    t := s.(live := [task]);
    assert sent.submitters[|s.submitters|] == Submitter(task, true) && Remove(sent.submitters, |s.submitters|) == s.submitters;
    assert sent.live + [task] == [task];
    LeadsByTwo(o, s, Submit(task.project, Path, true), sent, Enqueue(|s.submitters|), t);
  }

  /** A path task is submitted, queued, and taken by worker `v`. */
  lemma HandOver(o: Options, s: State, v: nat, task: Task) returns (t: State)
    requires OptionsOk(o) && QueuesEmpty(s) && task.kind.Path? && !task.pending
    requires v < |s.workers| && LooksForWork(s.workers[v].phase)
    ensures Leads(o, s, t) && t == WithTask(s, v, task)
  {
    var queued := Deliver(o, s, task);
    t := TakeOnly(o, queued, v, task);
    LeadsOn(o, s, queued, t);
  }

  lemma NewProjectStarts(o: Options, s: State, v: nat, task: Task) returns (t: State)
    requires OptionsOk(o) && v < |s.workers| && s.workers[v].phase == Holding(task)
    requires task.kind.Path? && !task.pending && task.project !in s.lock.states
    ensures Leads(o, s, t) && t == SetPhase(s, v, Running(task)).(lock := t.lock)
  {
    t := AcquireWorker(o, s, v);
    LeadsByStep(o, s, Acquire(v), t);
  }

  lemma GetGoing(o: Options, s: State, v: nat) returns (t: State)
    requires OptionsOk(o) && QueuesEmpty(s) && v < |s.workers| && LooksForWork(s.workers[v].phase)
    ensures Leads(o, s, t) && OnlyMoves(s, t, v) && t.workers[v].phase.Running? && QueuesEmpty(t)
  {
    var p := NewProject(s.lock.states.Keys);
    var task := Task(p, Path, false);
    var held := HandOver(o, s, v, task);
    t := NewProjectStarts(o, held, v, task);
    LeadsOn(o, s, held, t);
  }

  // ------------------------------------------------------- every worker gets a task

  /** Of `n` workers of the first Start, the first `k` are in phase `a` and the others in phase `b`. */
  function Crew(n: int, k: int, a: Phase, b: Phase): seq<Worker>
    requires 0 <= k <= n
  {
    seq(n, w => Worker(0, if w < k then a else b))
  }

  lemma OneMoreOfCrew(n: int, k: int, a: Phase, b: Phase)
    requires 0 <= k < n
    ensures Crew(n, k, a, b)[k := Worker(0, a)] == Crew(n, k + 1, a, b)
  {
  }

  /** The first `k` workers have each taken a path task of `p` off the live queue. */
  function TasksTaken(o: Options, p: ProjectID, k: int): State
    requires 0 <= k <= o.globalWorkers
  {
    State(EMPTY, Crew(o.globalWorkers, k, Holding(Task(p, Path, false)), Idle), [], [], [], true, [false])
  }

  lemma TakeTasks(o: Options, p: ProjectID, k: int)
    requires OptionsOk(o) && 0 <= k <= o.globalWorkers
    ensures Leads(o, INITIAL, TasksTaken(o, p, k))
    decreases k
  {
    if k == 0 {
      var begun := Step(o, INITIAL, Start).value;
      assert begun.workers == Crew(o.globalWorkers, 0, Holding(Task(p, Path, false)), Idle) && begun.cancelled == [false];
      LeadsByStep(o, INITIAL, Start, TasksTaken(o, p, 0));
    } else {
      TakeTasks(o, p, k - 1);
      var t := HandOver(o, TasksTaken(o, p, k - 1), k - 1, Task(p, Path, false));
      OneMoreOfCrew(o.globalWorkers, k - 1, Holding(Task(p, Path, false)), Idle);
      assert t == TasksTaken(o, p, k);
      LeadsOn(o, INITIAL, TasksTaken(o, p, k - 1), t);
    }
  }
}
