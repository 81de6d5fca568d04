/**
  The scheduler object itself: per-project records on the heap and the methods that run
  while `scheduler.mu` is held. Each method takes the abstract state to the one that its
  function in `SchedulerSpec` names.
 */
module Scheduler {
  import opened SchedulerSpec

  class SchedulerProjectState {
    var active: int
    var projectWideActive: bool
    var projectWidePending: int
    var changed: ChannelID

    constructor (changed: ChannelID)
      ensures View() == ProjectState(0, false, 0, changed)
    {
      active, projectWideActive, projectWidePending := 0, false, 0;
      this.changed := changed;
    }

    ghost function View(): ProjectState
      reads this
    {
      ProjectState(active, projectWideActive, projectWidePending, changed)
    }
  }

  class Scheduler {
    const perProjectWorkerLimit: int
    var projectState: map<ProjectID, SchedulerProjectState>
    var active: int
    var activeProject: map<ProjectID, int>
    var projectWide: map<ProjectID, int>
    var pendingProjectWide: map<ProjectID, int>
    /** The channels made so far are numbered below this one. */
    var nextChannel: ChannelID
    var closed: set<ChannelID>

    ghost function States(): map<ProjectID, ProjectState>
      reads this`projectState, projectState.Values
    {
      map p | p in projectState :: projectState[p].View()
    }

    ghost function View(): Locked
      reads this, projectState.Values
    {
      Locked(States(), active, activeProject, projectWide, pendingProjectWide, closed, nextChannel)
    }

    ghost predicate Separate()
      reads this`projectState
    {
      forall p, q :: p in projectState && q in projectState && p != q ==> projectState[p] != projectState[q]
    }

    ghost predicate Valid()
      reads this, projectState.Values
    {
      Separate() && ChannelsOk(View())
    }

    /** Writing to one record changes that project's state and no other. */
    twostate lemma OneRecordWritten(p: ProjectID)
      requires old(Separate()) && projectState == old(projectState) && p in projectState
      requires forall q :: q in projectState && q != p ==> unchanged(projectState[q])
      ensures States() == old(States())[p := projectState[p].View()]
    {
    }

    constructor (options: Options)
      ensures Valid() && View() == EMPTY
      ensures perProjectWorkerLimit == Normalize(options).perProjectLimit
    {
      perProjectWorkerLimit := Normalize(options).perProjectLimit;
      projectState := map[];
      active := 0;
      activeProject, projectWide, pendingProjectWide := map[], map[], map[];
      nextChannel, closed := 0, {};
    }

    method MakeChannel() returns (c: ChannelID)
      modifies this`nextChannel
      ensures c == old(nextChannel) && nextChannel == c + 1
    {
      c := nextChannel;
      nextChannel := nextChannel + 1;
    }

    /** Go panics when a channel is closed twice. */
    method Close(c: ChannelID)
      requires c !in closed
      modifies this`closed
      ensures closed == old(closed) + {c}
    {
      closed := closed + {c};
    }

    /** The record of `p`, made if there is none. */
    method ProjectStateLocked(p: ProjectID) returns (state: SchedulerProjectState)
      requires Separate()
      modifies this`projectState, this`nextChannel
      ensures Separate() && View() == EnsureState(old(View()), p)
      ensures p in projectState && projectState[p] == state
      ensures fresh(projectState.Values - old(projectState.Values))
    {
      if p in projectState {
        state := projectState[p];
      } else {
        var changed := MakeChannel();
        state := new SchedulerProjectState(changed);
        projectState := projectState[p := state];
      }
      assert States() == EnsureState(old(View()), p).states;
    }

    /** Wake everyone who waits on the project's channel, and give the project a new one. */
    method Announce(ghost p: ProjectID, state: SchedulerProjectState)
      requires Separate() && p in projectState && projectState[p] == state
      requires state.changed !in closed
      modifies this`nextChannel, this`closed, state`changed
      ensures View() == Broadcast(old(View()), p)
    {
      assert state.View() == View().states[p];
      Close(state.changed);
      state.changed := MakeChannel();
      OneRecordWritten(p);
    }

    method DropIfIdleLocked(p: ProjectID, state: SchedulerProjectState)
      requires Separate() && p in projectState && projectState[p] == state
      modifies this`projectState
      ensures Separate() && View() == DropIfIdle(old(View()), p)
      ensures projectState.Values <= old(projectState.Values)
    {
      assert state.View() == View().states[p];
      if state.active == 0 && !state.projectWideActive && state.projectWidePending == 0 {
        projectState := projectState - {p};
      }
      assert States() == DropIfIdle(old(View()), p).states;
    }

    method DecrementPendingProjectWideLocked(state: SchedulerProjectState, p: ProjectID)
      requires Separate() && p in projectState && projectState[p] == state
      requires state.changed !in closed
      modifies this`pendingProjectWide, this`nextChannel, this`closed, state`projectWidePending, state`changed
      ensures View() == DecrementPending(old(View()), p)
    {
      CountPendingOut(p, state);
      Announce(p, state);
    }

    method CountPendingIn(p: ProjectID, state: SchedulerProjectState)
      requires Separate() && p in projectState && projectState[p] == state
      modifies this`pendingProjectWide, state`projectWidePending
      ensures View() == AddPending(old(View()), p)
    {
      assert state.View() == View().states[p];
      state.projectWidePending := state.projectWidePending + 1;
      pendingProjectWide := Increment(pendingProjectWide, p);
      OneRecordWritten(p);
    }

    method CountPendingOut(p: ProjectID, state: SchedulerProjectState)
      requires Separate() && p in projectState && projectState[p] == state
      modifies this`pendingProjectWide, state`projectWidePending
      ensures View() == RemovePending(old(View()), p)
    {
      assert state.View() == View().states[p];
      LowerPending(p, state);
      if Lookup(pendingProjectWide, p) > 0 {
        pendingProjectWide := pendingProjectWide[p := Lookup(pendingProjectWide, p) - 1];
      }
      pendingProjectWide := DeleteIfNotPositive(pendingProjectWide, p);
    }

    method LowerPending(p: ProjectID, state: SchedulerProjectState)
      requires Separate() && p in projectState && projectState[p] == state
      modifies state`projectWidePending
      ensures var st := old(state.View());
              States() == old(States())[p := st.(widePending := if st.widePending > 0 then st.widePending - 1 else st.widePending)]
    {
      if state.projectWidePending > 0 {
        state.projectWidePending := state.projectWidePending - 1;
      }
      OneRecordWritten(p);
    }

    method RegisterPendingProjectWide(task: Task) returns (registered: Task)
      requires Valid()
      modifies this, projectState.Values
      ensures Valid() && fresh(projectState.Values - old(projectState.Values))
      ensures if !task.ProjectWide() || task.pending then View() == old(View()) && registered == task
              else View() == RegisterPending(old(View()), task.project) && registered == task.(pending := true)
    {
      if !task.ProjectWide() || task.pending {
        return task;
      }
      EnsureKeepsChannels(View(), task.project);
      RegisterKeepsChannels(View(), task.project);
      var state := ProjectStateLocked(task.project);
      assert state.View() == View().states[task.project];
      CountPendingIn(task.project, state);
      registered := task.(pending := true);
      Announce(task.project, state);
    }

    method UnregisterPendingProjectWide(task: Task) returns (unregistered: Task)
      requires Valid()
      modifies this, projectState.Values
      ensures Valid() && fresh(projectState.Values - old(projectState.Values))
      ensures unregistered == task.(pending := false)
      ensures View() == if task.pending then UnregisterPending(old(View()), task.project) else old(View())
    {
      if !task.pending {
        return task;
      }
      EnsureKeepsChannels(View(), task.project);
      UnregisterKeepsChannels(View(), task.project);
      var state := ProjectStateLocked(task.project);
      assert state.View() == View().states[task.project];
      DecrementPendingProjectWideLocked(state, task.project);
      DropIfIdleLocked(task.project, state);
      unregistered := task.(pending := false);
    }

    /** One turn of acquireProject's loop: the task is in, or the caller has a channel to wait on. */
    method TryAcquireProject(task: Task) returns (acquired: bool, changed: ChannelID)
      requires Valid()
      modifies this, projectState.Values
      ensures Valid() && fresh(projectState.Values - old(projectState.Values))
      ensures var a := TryAcquire(old(View()), perProjectWorkerLimit, task);
              View() == a.l && acquired == a.Acquired? && (!acquired ==> changed == a.channel)
    {
      var p := task.project;
      EnsureKeepsChannels(View(), p);
      AcquireKeepsChannels(View(), perProjectWorkerLimit, task);
      var state := ProjectStateLocked(p);
      assert state.View() == View().states[p];
      changed := state.changed;
      acquired := CanAcquireProjectLocked(state, task);
      if acquired {
        Enter(task, state);
      }
    }

    /** The task is not pending any more, if it was, and is counted in. */
    method Enter(task: Task, state: SchedulerProjectState)
      requires Separate() && task.project in projectState && projectState[task.project] == state
      requires state.changed !in closed
      modifies this`pendingProjectWide, this`nextChannel, this`closed, this`active, this`activeProject, this`projectWide, state
      ensures View() == Admitted(if task.pending then DecrementPending(old(View()), task.project) else old(View()), task)
    {
      if task.pending {
        DecrementPendingProjectWideLocked(state, task.project);
      }
      Admit(task, state);
    }

    /** Count the task in. */
    method Admit(task: Task, state: SchedulerProjectState)
      requires Separate() && task.project in projectState && projectState[task.project] == state
      modifies this`active, this`activeProject, this`projectWide, state`active, state`projectWideActive
      ensures View() == Admitted(old(View()), task)
    {
      var p := task.project;
      assert state.View() == View().states[p];
      state.active := state.active + 1;
      active := active + 1;
      activeProject := Increment(activeProject, p);
      if task.ProjectWide() {
        state.projectWideActive := true;
        projectWide := Increment(projectWide, p);
      }
      OneRecordWritten(p);
    }

    function CanAcquireProjectLocked(state: SchedulerProjectState, task: Task): (can: bool)
      reads state
      ensures can == CanAcquire(perProjectWorkerLimit, state.View(), task)
    {
      if task.ProjectWide() then
        state.active == 0 && !state.projectWideActive
      else if state.projectWideActive || state.projectWidePending > 0 then
        false
      else
        state.active < perProjectWorkerLimit && !state.projectWideActive
    }

    /** Count the task out. */
    method Leave(task: Task, state: SchedulerProjectState)
      requires Separate() && task.project in projectState && projectState[task.project] == state
      modifies this`active, this`activeProject, this`projectWide, state`active, state`projectWideActive
      ensures View() == Released(old(View()), task)
    {
      assert state.View() == View().states[task.project];
      LowerActive(task, state);
      CountOut(task);
    }

    method LowerActive(task: Task, state: SchedulerProjectState)
      requires Separate() && task.project in projectState && projectState[task.project] == state
      modifies state`active, state`projectWideActive
      ensures var st := old(state.View());
              States() == old(States())[task.project := st.(active := if st.active > 0 then st.active - 1 else st.active,
                                                             wideActive := st.wideActive && !task.ProjectWide())]
    {
      if state.active > 0 {
        state.active := state.active - 1;
      }
      if task.ProjectWide() {
        state.projectWideActive := false;
      }
      OneRecordWritten(task.project);
    }

    method CountOut(task: Task)
      modifies this`active, this`activeProject, this`projectWide
      ensures active == (if old(active) - 1 < 0 then 0 else old(active) - 1) && activeProject == Decrement(old(activeProject), task.project)
      ensures projectWide == if task.ProjectWide() then Decrement(old(projectWide), task.project) else old(projectWide)
    {
      active := active - 1;
      if active < 0 {
        active := 0;
      }
      activeProject := Decrement(activeProject, task.project);
      if task.ProjectWide() {
        projectWide := Decrement(projectWide, task.project);
      }
    }

    /** Wake everyone who waits, and forget the project if nothing is left of it. */
    method AnnounceRelease(p: ProjectID, state: SchedulerProjectState)
      requires Separate() && p in projectState && projectState[p] == state
      requires state.changed !in closed
      modifies this`projectState, this`nextChannel, this`closed, state`changed
      ensures Separate() && View() == DropIfIdle(Broadcast(old(View()), p), p)
      ensures projectState.Values <= old(projectState.Values)
    {
      Announce(p, state);
      DropIfIdleLocked(p, state);
    }

    method ReleaseProject(task: Task)
      requires Valid()
      modifies this, projectState.Values
      ensures Valid() && fresh(projectState.Values - old(projectState.Values))
      ensures View() == Release(old(View()), task)
    {
      var p := task.project;
      EnsureKeepsChannels(View(), p);
      ReleaseKeepsChannels(View(), task);
      var state := ProjectStateLocked(p);
      assert state.View() == View().states[p];
      Leave(task, state);
      AnnounceRelease(p, state);
    }
  }
}
