/**
  What one lock-protected region of the ingestion scheduler does to the state
  guarded by `scheduler.mu`, and what it keeps.

  Every function below is one such region. `Scheduler.dfy` refines them with the
  mutable scheduler; `SchedulerProtocol.dfy` interleaves them between workers
  and submitters.
 */
module SchedulerSpec {

  type ProjectID = string
  type ChannelID = nat

  datatype TaskKind = Path | FullScan | SearchIndexRebuild

  /** `pending` is the flag carried by the copy of the task that is still live. */
  datatype Task = Task(project: ProjectID, kind: TaskKind, pending: bool)
  {
    predicate ProjectWide() {
      kind.FullScan? || kind.SearchIndexRebuild?
    }
  }

  datatype ProjectState = ProjectState(active: int, wideActive: bool, widePending: int, changed: ChannelID)

  /** Everything `scheduler.mu` guards, and which channels have been made and closed. */
  datatype Locked = Locked(
    states: map<ProjectID, ProjectState>,
    active: int,
    activeProject: map<ProjectID, int>,
    projectWide: map<ProjectID, int>,
    pendingWide: map<ProjectID, int>,
    closed: set<ChannelID>,
    nextChannel: ChannelID)

  const EMPTY := Locked(map[], 0, map[], map[], map[], {}, 0)

  datatype Options = Options(queueDepth: int, globalWorkers: int, perProjectLimit: int, livePathPriority: bool)

  const DEFAULT_QUEUE_DEPTH := 10000
  const DEFAULT_GLOBAL_WORKERS := 4
  const DEFAULT_PER_PROJECT_LIMIT := 2

  /** The limits a new scheduler settles on, whatever it was asked for. */
  function Normalize(o: Options): (n: Options)
    ensures 1 <= n.perProjectLimit <= n.globalWorkers && 1 <= n.queueDepth
    ensures 1 <= o.perProjectLimit <= o.globalWorkers && 1 <= o.queueDepth ==> n == o
    ensures n.livePathPriority == o.livePathPriority
    ensures n.queueDepth == o.queueDepth || (o.queueDepth <= 0 && n.queueDepth == 10000)
    ensures n.globalWorkers == o.globalWorkers || (o.globalWorkers <= 0 && n.globalWorkers == 4)
    ensures var limit := if o.perProjectLimit <= 0 then 2 else o.perProjectLimit;
            n.perProjectLimit == limit <= n.globalWorkers || n.perProjectLimit == n.globalWorkers < limit
  {
    var depth := if o.queueDepth <= 0 then DEFAULT_QUEUE_DEPTH else o.queueDepth;
    var workers := if o.globalWorkers <= 0 then DEFAULT_GLOBAL_WORKERS else o.globalWorkers;
    var limit := if o.perProjectLimit <= 0 then DEFAULT_PER_PROJECT_LIMIT else o.perProjectLimit;
    Options(depth, workers, if limit > workers then workers else limit, o.livePathPriority)
  }

  // ---------------------------------------------------------------- the regions

  /** Reading a missing key of a Go map gives zero. */
  function Lookup(m: map<ProjectID, int>, p: ProjectID): int {
    if p in m then m[p] else 0
  }

  function Increment(m: map<ProjectID, int>, p: ProjectID): map<ProjectID, int> {
    m[p := Lookup(m, p) + 1]
  }

  function DeleteIfNotPositive(m: map<ProjectID, int>, p: ProjectID): map<ProjectID, int> {
    if Lookup(m, p) <= 0 then m - {p} else m
  }

  function Decrement(m: map<ProjectID, int>, p: ProjectID): map<ProjectID, int> {
    DeleteIfNotPositive(m[p := Lookup(m, p) - 1], p)
  }

  function EnsureState(l: Locked, p: ProjectID): (r: Locked)
    ensures p in r.states
  {
    if p in l.states then l
    else l.(states := l.states[p := ProjectState(0, false, 0, l.nextChannel)], nextChannel := l.nextChannel + 1)
  }

  /** Close the project's channel, which wakes every waiter, and make a new one. */
  function Broadcast(l: Locked, p: ProjectID): (r: Locked)
    requires p in l.states
    ensures p in r.states
  {
    var st := l.states[p];
    l.(states := l.states[p := st.(changed := l.nextChannel)],
       closed := l.closed + {st.changed},
       nextChannel := l.nextChannel + 1)
  }

  function DropIfIdle(l: Locked, p: ProjectID): Locked
    requires p in l.states
  {
    var st := l.states[p];
    if st.active == 0 && !st.wideActive && st.widePending == 0 then l.(states := l.states - {p}) else l
  }

  function AddPending(l: Locked, p: ProjectID): (r: Locked)
    requires p in l.states
    ensures p in r.states
  {
    var st := l.states[p];
    l.(states := l.states[p := st.(widePending := st.widePending + 1)],
       pendingWide := Increment(l.pendingWide, p))
  }

  function RegisterPending(l: Locked, p: ProjectID): Locked {
    Broadcast(AddPending(EnsureState(l, p), p), p)
  }

  function RemovePending(l: Locked, p: ProjectID): (r: Locked)
    requires p in l.states
    ensures p in r.states
  {
    var st := l.states[p];
    var counts := if Lookup(l.pendingWide, p) > 0 then l.pendingWide[p := Lookup(l.pendingWide, p) - 1] else l.pendingWide;
    l.(states := l.states[p := st.(widePending := if st.widePending > 0 then st.widePending - 1 else st.widePending)],
       pendingWide := DeleteIfNotPositive(counts, p))
  }

  function DecrementPending(l: Locked, p: ProjectID): (r: Locked)
    requires p in l.states
    ensures p in r.states
  {
    Broadcast(RemovePending(l, p), p)
  }

  function UnregisterPending(l: Locked, p: ProjectID): Locked {
    DropIfIdle(DecrementPending(EnsureState(l, p), p), p)
  }

  predicate CanAcquire(limit: int, st: ProjectState, t: Task) {
    if t.ProjectWide() then
      st.active == 0 && !st.wideActive
    else if st.wideActive || st.widePending > 0 then
      false
    else
      st.active < limit && !st.wideActive
  }

  /** Whether the task would be let in now; a project without a state is idle. */
  predicate Admits(l: Locked, limit: int, t: Task) {
    CanAcquire(limit, EnsureState(l, t.project).states[t.project], t)
  }

  /** The counters after the task has been let into its project. */
  function Admitted(l: Locked, t: Task): Locked
    requires t.project in l.states
  {
    var p := t.project;
    var st := l.states[p];
    l.(states := l.states[p := st.(active := st.active + 1, wideActive := st.wideActive || t.ProjectWide())],
       active := l.active + 1,
       activeProject := Increment(l.activeProject, p),
       projectWide := if t.ProjectWide() then Increment(l.projectWide, p) else l.projectWide)
  }

  datatype Attempt = Acquired(l: Locked) | MustWait(l: Locked, channel: ChannelID)

  /** One turn of the loop in acquireProject. */
  function TryAcquire(l: Locked, limit: int, t: Task): (a: Attempt)
    ensures a.Acquired? <==> Admits(l, limit, t)
  {
    var p := t.project;
    var l := EnsureState(l, p);
    if CanAcquire(limit, l.states[p], t) then
      Acquired(Admitted(if t.pending then DecrementPending(l, p) else l, t))
    else
      MustWait(l, l.states[p].changed)
  }

  /** The counters after a task of `t`'s kind has left its project. */
  function Released(l: Locked, t: Task): (r: Locked)
    requires t.project in l.states
    ensures t.project in r.states
  {
    var p := t.project;
    var st := l.states[p];
    l.(states := l.states[p := st.(active := if st.active > 0 then st.active - 1 else st.active,
                                   wideActive := st.wideActive && !t.ProjectWide())],
       active := if l.active - 1 < 0 then 0 else l.active - 1,
       activeProject := Decrement(l.activeProject, p),
       projectWide := if t.ProjectWide() then Decrement(l.projectWide, p) else l.projectWide)
  }

  function Release(l: Locked, t: Task): Locked {
    DropIfIdle(Broadcast(Released(EnsureState(l, t.project), t), t.project), t.project)
  }

  // ------------------------------------------------------- what the regions keep

  /** A diagnostic map holds `n` for `p`, and no entry at all when that is zero. */
  predicate Tracks(m: map<ProjectID, int>, p: ProjectID, n: nat) {
    && (p in m <==> n > 0)
    && Lookup(m, p) == n
  }

  /**
    The guarded state agrees with reality about project `p`: `active` of its tasks run,
    `wide` of those are project-wide, and `pending` project-wide tasks are registered
    but neither started nor cancelled.
   */
  predicate Agrees(l: Locked, limit: int, p: ProjectID, active: nat, wide: nat, pending: nat) {
    && (p in l.states <==> active + pending > 0)
    && (p in l.states ==>
          && l.states[p].active == active
          && l.states[p].widePending == pending
          && (l.states[p].wideActive <==> wide > 0))
    && Tracks(l.activeProject, p, active)
    && Tracks(l.projectWide, p, wide)
    && Tracks(l.pendingWide, p, pending)
    && active <= limit
    && wide <= 1
    && (wide == 1 ==> active == 1)
  }

  /** Channels in use are open, made already, and belong to one project each. */
  ghost predicate ChannelsOk(l: Locked) {
    && (forall c :: c in l.closed ==> c < l.nextChannel)
    && (forall p :: p in l.states ==> l.states[p].changed < l.nextChannel && l.states[p].changed !in l.closed)
    && (forall p, q :: p in l.states && q in l.states && p != q ==> l.states[p].changed != l.states[q].changed)
  }

  /** A waiter on `c` misses nothing: `c` is closed, or is the channel whose closing will announce the change it needs. */
  predicate NothingMissed(l: Locked, limit: int, t: Task, c: ChannelID) {
    && c < l.nextChannel
    && (c in l.closed
        || (t.project in l.states && l.states[t.project].changed == c && !CanAcquire(limit, l.states[t.project], t)))
  }

  lemma RegisterKeeps(l: Locked, limit: int, q: ProjectID, p: ProjectID, active: nat, wide: nat, pending: nat)
    requires Agrees(l, limit, p, active, wide, pending)
    ensures Agrees(RegisterPending(l, q), limit, p, active, wide, if p == q then pending + 1 else pending)
  {
  }

  lemma UnregisterKeeps(l: Locked, limit: int, q: ProjectID, p: ProjectID, active: nat, wide: nat, pending: nat)
    requires Agrees(l, limit, p, active, wide, pending)
    requires p == q ==> pending > 0
    ensures Agrees(UnregisterPending(l, q), limit, p, active, wide, if p == q then pending - 1 else pending)
  {
  }

  lemma AcquireKeeps(l: Locked, limit: int, t: Task, p: ProjectID, active: nat, wide: nat, pending: nat)
    requires 1 <= limit
    requires Agrees(l, limit, p, active, wide, pending)
    requires Admits(l, limit, t)
    requires t.pending == t.ProjectWide()
    requires p == t.project && t.pending ==> pending > 0
    ensures var l' := TryAcquire(l, limit, t).l;
            if p != t.project then Agrees(l', limit, p, active, wide, pending)
            else if t.ProjectWide() then active == 0 && Agrees(l', limit, p, 1, 1, pending - 1)
            else wide == 0 && Agrees(l', limit, p, active + 1, 0, pending)
  {
  }

  lemma ReleaseKeeps(l: Locked, limit: int, t: Task, p: ProjectID, active: nat, wide: nat, pending: nat)
    requires Agrees(l, limit, p, active, wide, pending)
    requires p == t.project ==> active > 0 && (t.ProjectWide() <==> wide > 0)
    ensures var l' := Release(l, t);
            if p != t.project then Agrees(l', limit, p, active, wide, pending)
            else Agrees(l', limit, p, active - 1, 0, pending)
  {
  }

  /** Changing counters, or dropping a project, does not disturb the channels. */
  lemma SameChannels(l: Locked, m: Locked)
    requires ChannelsOk(l)
    requires m.closed == l.closed && m.nextChannel == l.nextChannel
    requires forall p :: p in m.states ==> p in l.states && m.states[p].changed == l.states[p].changed
    ensures ChannelsOk(m)
  {
  }

  lemma EnsureKeepsChannels(l: Locked, p: ProjectID)
    requires ChannelsOk(l)
    ensures ChannelsOk(EnsureState(l, p))
  {
  }

  lemma BroadcastKeepsChannels(l: Locked, p: ProjectID)
    requires ChannelsOk(l) && p in l.states
    ensures ChannelsOk(Broadcast(l, p))
  {
  }

  lemma DropKeepsChannels(l: Locked, p: ProjectID)
    requires ChannelsOk(l) && p in l.states
    ensures ChannelsOk(DropIfIdle(l, p))
  {
    SameChannels(l, DropIfIdle(l, p));
  }

  lemma DecrementKeepsChannels(l: Locked, p: ProjectID)
    requires ChannelsOk(l) && p in l.states
    ensures ChannelsOk(DecrementPending(l, p))
  {
    SameChannels(l, RemovePending(l, p));
    BroadcastKeepsChannels(RemovePending(l, p), p);
  }

  /** Every region keeps the channels in order, so no region ever closes a closed channel. */
  lemma RegisterKeepsChannels(l: Locked, p: ProjectID)
    requires ChannelsOk(l)
    ensures ChannelsOk(RegisterPending(l, p))
  {
    var m := EnsureState(l, p);
    EnsureKeepsChannels(l, p);
    SameChannels(m, AddPending(m, p));
    BroadcastKeepsChannels(AddPending(m, p), p);
  }

  lemma UnregisterKeepsChannels(l: Locked, p: ProjectID)
    requires ChannelsOk(l)
    ensures ChannelsOk(UnregisterPending(l, p))
  {
    EnsureKeepsChannels(l, p);
    DecrementKeepsChannels(EnsureState(l, p), p);
    DropKeepsChannels(DecrementPending(EnsureState(l, p), p), p);
  }

  lemma AcquireKeepsChannels(l: Locked, limit: int, t: Task)
    requires ChannelsOk(l)
    ensures ChannelsOk(TryAcquire(l, limit, t).l)
  {
    var m := EnsureState(l, t.project);
    EnsureKeepsChannels(l, t.project);
    if CanAcquire(limit, m.states[t.project], t) {
      if t.pending {
        DecrementKeepsChannels(m, t.project);
        SameChannels(DecrementPending(m, t.project), TryAcquire(l, limit, t).l);
      } else {
        SameChannels(m, TryAcquire(l, limit, t).l);
      }
    }
  }

  lemma ReleaseKeepsChannels(l: Locked, t: Task)
    requires ChannelsOk(l)
    ensures ChannelsOk(Release(l, t))
  {
    var p := t.project;
    var m := EnsureState(l, p);
    EnsureKeepsChannels(l, p);
    var n := Released(m, t);
    SameChannels(m, n);
    BroadcastKeepsChannels(n, p);
    DropKeepsChannels(Broadcast(n, p), p);
  }

  /** No region loses a wakeup: a waiter that missed nothing before still misses nothing after. */
  lemma RegisterWakesWaiters(l: Locked, limit: int, p: ProjectID, w: Task, c: ChannelID)
    requires ChannelsOk(l)
    requires NothingMissed(l, limit, w, c)
    ensures NothingMissed(RegisterPending(l, p), limit, w, c)
  {
  }

  lemma UnregisterWakesWaiters(l: Locked, limit: int, p: ProjectID, w: Task, c: ChannelID)
    requires ChannelsOk(l)
    requires NothingMissed(l, limit, w, c)
    ensures NothingMissed(UnregisterPending(l, p), limit, w, c)
  {
  }

  lemma AcquireWakesWaiters(l: Locked, limit: int, t: Task, w: Task, c: ChannelID)
    requires ChannelsOk(l)
    requires t.project in l.states ==> l.states[t.project].active >= 0
    requires NothingMissed(l, limit, w, c)
    requires t.pending == t.ProjectWide()
    ensures NothingMissed(TryAcquire(l, limit, t).l, limit, w, c)
  {
  }

  lemma ReleaseWakesWaiters(l: Locked, limit: int, t: Task, w: Task, c: ChannelID)
    requires ChannelsOk(l)
    requires NothingMissed(l, limit, w, c)
    ensures NothingMissed(Release(l, t), limit, w, c)
  {
  }
}
