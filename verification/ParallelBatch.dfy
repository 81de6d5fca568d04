/** Greedy selection of tasks that may run side by side. */
module ParallelBatch {
  import opened Wrappers

  datatype Status = Ready | Done | OtherStatus

  /** A work task, reduced to what the selection looks at. */
  datatype Task = Task(
    id: string,
    status: Status,
    decompositionReady: bool,
    verificationRequirement: string,
    dependencyTaskIDs: seq<string>,
    likelyFilesAffected: seq<string>)

  /** Go's strings.TrimSpace and strings.ToLower: whatever they do, both sides of a comparison use the same. */
  datatype Folding = Folding(trim: string -> string, lower: string -> string)

  predicate Executable(fold: Folding, t: Task) {
    t.status == Ready && t.decompositionReady && fold.trim(t.verificationRequirement) != ""
  }

  predicate DependenciesDone(lookup: map<string, Task>, t: Task) {
    forall i :: 0 <= i < |t.dependencyTaskIDs| ==>
                  t.dependencyTaskIDs[i] in lookup && lookup[t.dependencyTaskIDs[i]].status == Done
  }

  predicate Eligible(fold: Folding, lookup: map<string, Task>, t: Task) {
    Executable(fold, t) && DependenciesDone(lookup, t)
  }

  /** A file is looked up trimmed and folded. */
  function Key(fold: Folding, file: string): string {
    fold.lower(fold.trim(file))
  }

  /** A file is remembered folded, but not trimmed. */
  predicate Claims(fold: Folding, u: Task, key: string) {
    exists i :: 0 <= i < |u.likelyFilesAffected| && fold.lower(u.likelyFilesAffected[i]) == key
  }

  /** What makes `t` unfit to run beside `u`, once `u` has been selected. */
  predicate Clash(fold: Folding, t: Task, u: Task) {
    exists i :: 0 <= i < |t.likelyFilesAffected| && Key(fold, t.likelyFilesAffected[i]) != ""
                && Claims(fold, u, Key(fold, t.likelyFilesAffected[i]))
  }

  // ------------------------------------------------------------------ the selection

  /** `picked` are the places of the selected tasks among the candidates, in order. */
  ghost predicate Places(tasks: seq<Task>, picked: seq<nat>, n: nat) {
    && n <= |tasks|
    && (forall i :: 0 <= i < |picked| ==> picked[i] < n)
    && forall i, j :: 0 <= i < j < |picked| ==> picked[i] < picked[j]
  }

  function TasksAt(tasks: seq<Task>, picked: seq<nat>): seq<Task>
    requires forall i :: 0 <= i < |picked| ==> picked[i] < |tasks|
  {
    seq(|picked|, i requires 0 <= i < |picked| => tasks[picked[i]])
  }

  /** Of the tasks selected before candidate `j`, number `i` is the last that claims `key`, and it has an ID. */
  ghost predicate HoldsFor(fold: Folding, tasks: seq<Task>, picked: seq<nat>, j: nat, i: nat, key: string)
    requires Places(tasks, picked, |tasks|)
  {
    && i < |picked| && picked[i] < j && Claims(fold, tasks[picked[i]], key) && tasks[picked[i]].id != ""
    && forall k :: i < k < |picked| && picked[k] < j ==> !Claims(fold, tasks[picked[k]], key)
  }

  /** A file of the candidate is held by a task selected before it. */
  ghost predicate ClashesBefore(fold: Folding, tasks: seq<Task>, picked: seq<nat>, j: nat)
    requires Places(tasks, picked, |tasks|) && j < |tasks|
  {
    exists i, f :: 0 <= f < |tasks[j].likelyFilesAffected| && Key(fold, tasks[j].likelyFilesAffected[f]) != ""
                   && HoldsFor(fold, tasks, picked, j, i, Key(fold, tasks[j].likelyFilesAffected[f]))
  }

  /** The batch is full before candidate `j` is looked at. */
  ghost predicate FullBefore(picked: seq<nat>, limit: nat, j: nat) {
    |picked| >= limit && 0 < limit && picked[limit - 1] < j
  }

  ghost predicate Taken(fold: Folding, lookup: map<string, Task>, tasks: seq<Task>, limit: nat, picked: seq<nat>, j: nat)
    requires Places(tasks, picked, |tasks|) && j < |tasks|
  {
    Eligible(fold, lookup, tasks[j]) && !FullBefore(picked, limit, j) && !ClashesBefore(fold, tasks, picked, j)
  }

  /** A candidate is taken exactly when it is eligible, there is room, and it clashes with none taken before it. */
  ghost predicate Greedy(fold: Folding, lookup: map<string, Task>, tasks: seq<Task>, limit: nat, picked: seq<nat>, n: nat) {
    && Places(tasks, picked, n) && Places(tasks, picked, |tasks|) && |picked| <= limit
    && forall j :: 0 <= j < n ==>
         (j in picked <==> Taken(fold, lookup, tasks, limit, picked, j))
  }

  lemma GreedySkips(fold: Folding, lookup: map<string, Task>, tasks: seq<Task>, limit: nat, picked: seq<nat>, n: nat)
    requires Greedy(fold, lookup, tasks, limit, picked, n) && n < |tasks|
    requires !Taken(fold, lookup, tasks, limit, picked, n)
    ensures Greedy(fold, lookup, tasks, limit, picked, n + 1)
  {
    assert n !in picked;
  }

  lemma GreedyTakes(fold: Folding, lookup: map<string, Task>, tasks: seq<Task>, limit: nat, picked: seq<nat>, n: nat)
    requires Greedy(fold, lookup, tasks, limit, picked, n) && n < |tasks| && |picked| < limit
    requires Taken(fold, lookup, tasks, limit, picked, n)
    ensures Greedy(fold, lookup, tasks, limit, picked + [n], n + 1)
  {
    var more := picked + [n];
    assert Places(tasks, more, n + 1) && Places(tasks, more, |tasks|);
    forall j | 0 <= j < n + 1
      ensures j in more <==> Taken(fold, lookup, tasks, limit, more, j)
    {
      assert j in more <==> j in picked || j == n;
      assert |more| == limit ==> more[limit - 1] == n;
      ClashesLater(fold, tasks, picked, n, j);
    }
  }

  lemma HoldsLater(fold: Folding, tasks: seq<Task>, picked: seq<nat>, n: nat, j: nat, i: nat, key: string)
    requires Places(tasks, picked, n) && n < |tasks| && j <= n
    ensures Places(tasks, picked + [n], n + 1) && Places(tasks, picked + [n], |tasks|) && Places(tasks, picked, |tasks|)
    ensures HoldsFor(fold, tasks, picked + [n], j, i, key) <==> HoldsFor(fold, tasks, picked, j, i, key)
  {
    var more := picked + [n];
    assert more[|picked|] == n && forall i :: 0 <= i < |picked| ==> more[i] == picked[i];
  }

  lemma ClashesLater(fold: Folding, tasks: seq<Task>, picked: seq<nat>, n: nat, j: nat)
    requires Places(tasks, picked, n) && n < |tasks| && j <= n
    ensures Places(tasks, picked + [n], n + 1)
    ensures ClashesBefore(fold, tasks, picked + [n], j) <==> ClashesBefore(fold, tasks, picked, j)
  {
    forall i: nat, key: string
      ensures HoldsFor(fold, tasks, picked + [n], j, i, key) <==> HoldsFor(fold, tasks, picked, j, i, key)
    {
      HoldsLater(fold, tasks, picked, n, j, i, key);
    }
  }

  /** Once the batch is full the rest is skipped. */
  lemma {:induction false} GreedyStops(fold: Folding, lookup: map<string, Task>, tasks: seq<Task>, limit: nat, picked: seq<nat>, n: nat)
    requires Greedy(fold, lookup, tasks, limit, picked, n) && 0 < limit == |picked|
    ensures Greedy(fold, lookup, tasks, limit, picked, |tasks|)
    decreases |tasks| - n
  {
    if n < |tasks| {
      assert FullBefore(picked, limit, n);
      GreedySkips(fold, lookup, tasks, limit, picked, n);
      GreedyStops(fold, lookup, tasks, limit, picked, n + 1);
    }
  }

  // --------------------------------------------------------------- the files in use

  predicate InUse(used: map<string, string>, key: string) {
    key in used && used[key] != ""
  }

  ghost predicate ClaimedBy(fold: Folding, tasks: seq<Task>, picked: seq<nat>, key: string)
    requires Places(tasks, picked, |tasks|)
  {
    exists i :: HoldsFor(fold, tasks, picked, |tasks|, i, key)
  }

  ghost predicate UseIsClaim(fold: Folding, tasks: seq<Task>, picked: seq<nat>, used: map<string, string>)
    requires Places(tasks, picked, |tasks|)
  {
    forall key :: InUse(used, key) <==> ClaimedBy(fold, tasks, picked, key)
  }

  method FirstFileConflict(fold: Folding, task: Task, used: map<string, string>) returns (conflict: string)
    ensures conflict != "" <==>
              exists i :: 0 <= i < |task.likelyFilesAffected| && Key(fold, task.likelyFilesAffected[i]) != ""
                          && InUse(used, Key(fold, task.likelyFilesAffected[i]))
  {
    for k := 0 to |task.likelyFilesAffected|
      invariant forall i :: 0 <= i < k ==> Key(fold, task.likelyFilesAffected[i]) == ""
                                           || !InUse(used, Key(fold, task.likelyFilesAffected[i]))
    {
      var key := fold.lower(fold.trim(task.likelyFilesAffected[k]));
      if key == "" {
        continue;
      }
      if key in used && used[key] != "" {
        return key;
      }
    }
    return "";
  }

  method Claim(fold: Folding, task: Task, used: map<string, string>) returns (claimed: map<string, string>)
    ensures forall key :: key in claimed <==> key in used || Claims(fold, task, key)
    ensures forall key :: key in claimed ==> claimed[key] == if Claims(fold, task, key) then task.id else used[key]
  {
    claimed := used;
    for k := 0 to |task.likelyFilesAffected|
      invariant forall key :: key in claimed <==> key in used || ClaimsFirst(fold, task, k, key)
      invariant forall key :: key in claimed ==> claimed[key] == if ClaimsFirst(fold, task, k, key) then task.id else used[key]
    {
      ghost var before := claimed;
      var file := fold.lower(task.likelyFilesAffected[k]);
      claimed := claimed[file := task.id];
      forall key ensures ClaimsFirst(fold, task, k + 1, key) <==> ClaimsFirst(fold, task, k, key) || key == file {
        if ClaimsFirst(fold, task, k + 1, key) && key != file {
          var i :| 0 <= i < k + 1 && fold.lower(task.likelyFilesAffected[i]) == key;
        }
      }
    }
    forall key ensures ClaimsFirst(fold, task, |task.likelyFilesAffected|, key) <==> Claims(fold, task, key) {
    }
  }

  predicate ClaimsFirst(fold: Folding, u: Task, n: nat, key: string)
    requires n <= |u.likelyFilesAffected|
  {
    exists i :: 0 <= i < n && fold.lower(u.likelyFilesAffected[i]) == key
  }

  lemma ClaimedNext(fold: Folding, tasks: seq<Task>, picked: seq<nat>, n: nat, key: string)
    requires Places(tasks, picked, n) && n < |tasks| && Places(tasks, picked, |tasks|)
    ensures Places(tasks, picked + [n], |tasks|)
    ensures ClaimedBy(fold, tasks, picked + [n], key) <==>
              if Claims(fold, tasks[n], key) then tasks[n].id != "" else ClaimedBy(fold, tasks, picked, key)
  {
    var more := picked + [n];
    assert more[|picked|] == n && forall i :: 0 <= i < |picked| ==> more[i] == picked[i];
    if Claims(fold, tasks[n], key) {
      assert HoldsFor(fold, tasks, more, |tasks|, |picked|, key) <==> tasks[n].id != "";
      forall i: nat | HoldsFor(fold, tasks, more, |tasks|, i, key) ensures i == |picked| {}
    } else {
      forall i: nat ensures HoldsFor(fold, tasks, more, |tasks|, i, key) <==> HoldsFor(fold, tasks, picked, |tasks|, i, key) {}
    }
  }

  lemma ClaimKeeps(fold: Folding, tasks: seq<Task>, picked: seq<nat>, n: nat, used: map<string, string>, claimed: map<string, string>)
    requires Places(tasks, picked, n) && n < |tasks| && Places(tasks, picked, |tasks|)
    requires UseIsClaim(fold, tasks, picked, used)
    requires forall key :: key in claimed <==> key in used || Claims(fold, tasks[n], key)
    requires forall key :: key in claimed ==> claimed[key] == if Claims(fold, tasks[n], key) then tasks[n].id else used[key]
    ensures Places(tasks, picked + [n], |tasks|) && UseIsClaim(fold, tasks, picked + [n], claimed)
  {
    forall key ensures Places(tasks, picked + [n], |tasks|) && (InUse(claimed, key) <==> ClaimedBy(fold, tasks, picked + [n], key)) {
      ClaimedNext(fold, tasks, picked, n, key);
    }
  }

  /** Looking a task's files up in the map tells whether it clashes with a task already selected. */
  lemma ConflictIsClash(fold: Folding, tasks: seq<Task>, picked: seq<nat>, n: nat, used: map<string, string>)
    requires Places(tasks, picked, n) && n < |tasks| && Places(tasks, picked, |tasks|)
    requires UseIsClaim(fold, tasks, picked, used)
    ensures ClashesBefore(fold, tasks, picked, n) <==>
              exists i :: 0 <= i < |tasks[n].likelyFilesAffected| && Key(fold, tasks[n].likelyFilesAffected[i]) != ""
                          && InUse(used, Key(fold, tasks[n].likelyFilesAffected[i]))
  {
    forall i: nat, key: string
      ensures HoldsFor(fold, tasks, picked, n, i, key) <==> HoldsFor(fold, tasks, picked, |tasks|, i, key) {}
    forall f | 0 <= f < |tasks[n].likelyFilesAffected|
      ensures InUse(used, Key(fold, tasks[n].likelyFilesAffected[f]))
              <==> ClaimedBy(fold, tasks, picked, Key(fold, tasks[n].likelyFilesAffected[f])) {}
  }

  method AllDone(lookup: map<string, Task>, task: Task) returns (done: bool)
    ensures done == DependenciesDone(lookup, task)
  {
    for k := 0 to |task.dependencyTaskIDs|
      invariant forall i :: 0 <= i < k ==> task.dependencyTaskIDs[i] in lookup && lookup[task.dependencyTaskIDs[i]].status == Done
    {
      var dependency := task.dependencyTaskIDs[k];
      if dependency !in lookup || lookup[dependency].status != Done {
        return false;
      }
    }
    return true;
  }

  ghost predicate IsBatch(fold: Folding, lookup: map<string, Task>, tasks: seq<Task>, limit: nat, batch: Option<seq<Task>>) {
    exists picked :: Greedy(fold, lookup, tasks, limit, picked, |tasks|)
                     && batch == if picked == [] then None else Some(TasksAt(tasks, picked))
  }

  /** The checks a candidate must pass. */
  method CanTake(fold: Folding, lookup: map<string, Task>, task: Task, used: map<string, string>) returns (ok: bool)
    ensures ok <==> Eligible(fold, lookup, task)
                    && !exists i :: 0 <= i < |task.likelyFilesAffected| && Key(fold, task.likelyFilesAffected[i]) != ""
                                    && InUse(used, Key(fold, task.likelyFilesAffected[i]))
  {
    if !Executable(fold, task) {
      return false;
    }
    ok := AllDone(lookup, task);
    if ok {
      var conflict := FirstFileConflict(fold, task, used);
      ok := conflict == "";
    }
  }

  /** `tasks` are the candidates, sorted; `lookup` is what the work-task service answers; None is the error "no parallel-safe tasks". */
  method ComputeParallelBatch(fold: Folding, lookup: map<string, Task>, tasks: seq<Task>, requested: int, maxParallelTasks: nat)
    returns (batch: Option<seq<Task>>)
    requires 0 < maxParallelTasks
    ensures IsBatch(fold, lookup, tasks, if requested <= 0 || requested > maxParallelTasks then maxParallelTasks else requested, batch)
  {
    var maxTasks := requested;
    if maxTasks <= 0 || maxTasks > maxParallelTasks {
      maxTasks := maxParallelTasks;
    }
    var selected: seq<Task> := [];
    var usedFiles: map<string, string> := map[];
    ghost var picked: seq<nat> := [];
    var k := 0;
    while k < |tasks| && |selected| != maxTasks
      invariant Greedy(fold, lookup, tasks, maxTasks, picked, k) && selected == TasksAt(tasks, picked)
      invariant UseIsClaim(fold, tasks, picked, usedFiles)
    {
      var task := tasks[k];
      var taken := CanTake(fold, lookup, task, usedFiles);
      ConflictIsClash(fold, tasks, picked, k, usedFiles);
      if taken {
        GreedyTakes(fold, lookup, tasks, maxTasks, picked, k);
        var claimed := Claim(fold, task, usedFiles);
        ClaimKeeps(fold, tasks, picked, k, usedFiles, claimed);
        usedFiles, selected, picked := claimed, selected + [task], picked + [k];
      } else {
        GreedySkips(fold, lookup, tasks, maxTasks, picked, k);
      }
      k := k + 1;
    }
    if |selected| == maxTasks { GreedyStops(fold, lookup, tasks, maxTasks, picked, k); }
    batch := if |selected| == 0 then None else Some(selected);
  }

  // ------------------------------------------------------------- what the selection means

  /** The two tasks touch a common file, names being compared folded. */
  ghost predicate ShareFile(fold: Folding, t: Task, u: Task) {
    exists i, j :: 0 <= i < |t.likelyFilesAffected| && 0 <= j < |u.likelyFilesAffected|
      && fold.lower(t.likelyFilesAffected[i]) == fold.lower(u.likelyFilesAffected[j]) != ""
  }

  ghost predicate TrimmedFiles(fold: Folding, t: Task) {
    forall i :: 0 <= i < |t.likelyFilesAffected| ==> fold.trim(t.likelyFilesAffected[i]) == t.likelyFilesAffected[i]
  }

  lemma ClashIsSharing(fold: Folding, t: Task, u: Task)
    requires TrimmedFiles(fold, t)
    ensures Clash(fold, t, u) <==> ShareFile(fold, t, u)
  {
    var a, b := t.likelyFilesAffected, u.likelyFilesAffected;
    if Clash(fold, t, u) {
      var i :| 0 <= i < |a| && Key(fold, a[i]) != "" && Claims(fold, u, Key(fold, a[i]));
      var j :| 0 <= j < |b| && fold.lower(b[j]) == Key(fold, a[i]);
      assert fold.lower(a[i]) == fold.lower(b[j]) != "";
    }
    if ShareFile(fold, t, u) {
      var i, j :| 0 <= i < |a| && 0 <= j < |b| && fold.lower(a[i]) == fold.lower(b[j]) != "";
      assert Key(fold, a[i]) == fold.lower(b[j]);
      assert Claims(fold, u, Key(fold, a[i]));
    }
  }

  lemma SharingIsMutual(fold: Folding, t: Task, u: Task)
    ensures ShareFile(fold, t, u) ==> ShareFile(fold, u, t)
  {
    var a, b := t.likelyFilesAffected, u.likelyFilesAffected;
    if i, j :| 0 <= i < |a| && 0 <= j < |b| && fold.lower(a[i]) == fold.lower(b[j]) != "" {
      assert fold.lower(b[j]) == fold.lower(a[i]) != "";
    }
  }

  /** With trimmed file names no task selected later touches a file of a selected task that has an ID. */
  lemma {:induction false} SelectedAreDisjoint(fold: Folding, lookup: map<string, Task>, tasks: seq<Task>, limit: nat, picked: seq<nat>, a: nat, b: nat)
    requires Greedy(fold, lookup, tasks, limit, picked, |tasks|) && a < b < |picked| && tasks[picked[a]].id != ""
    requires forall i :: 0 <= i < |tasks| ==> TrimmedFiles(fold, tasks[i])
    ensures !ShareFile(fold, tasks[picked[a]], tasks[picked[b]]) && !ShareFile(fold, tasks[picked[b]], tasks[picked[a]])
    decreases b
  {
    var t, u := tasks[picked[b]], tasks[picked[a]];
    forall c | a < c < b ensures !ShareFile(fold, tasks[picked[c]], u) {
      SelectedAreDisjoint(fold, lookup, tasks, limit, picked, a, c);
    }
    assert picked[b] in picked && !ClashesBefore(fold, tasks, picked, picked[b]);
    if ShareFile(fold, t, u) { SharingClashes(fold, tasks, picked, a, b); }
    SharingIsMutual(fold, u, t);
  }

  /** If nobody selected in between touches the files of number `a`, a file shared with it is held by it. */
  lemma SharingClashes(fold: Folding, tasks: seq<Task>, picked: seq<nat>, a: nat, b: nat)
    requires Places(tasks, picked, |tasks|) && a < b < |picked| && tasks[picked[a]].id != "" && TrimmedFiles(fold, tasks[picked[b]])
    requires forall c :: a < c < b ==> !ShareFile(fold, tasks[picked[c]], tasks[picked[a]])
    requires ShareFile(fold, tasks[picked[b]], tasks[picked[a]])
    ensures ClashesBefore(fold, tasks, picked, picked[b])
  {
    var t, u := tasks[picked[b]], tasks[picked[a]];
    var i, j :| 0 <= i < |t.likelyFilesAffected| && 0 <= j < |u.likelyFilesAffected|
                && fold.lower(t.likelyFilesAffected[i]) == fold.lower(u.likelyFilesAffected[j]) != "";
    var key := Key(fold, t.likelyFilesAffected[i]);
    assert key == fold.lower(u.likelyFilesAffected[j]);
    forall k | a < k < |picked| && picked[k] < picked[b] ensures !Claims(fold, tasks[picked[k]], key) {
      assert k < b;
      assert !ShareFile(fold, tasks[picked[k]], u);
    }
    assert HoldsFor(fold, tasks, picked, picked[b], a, key);
  }

  /** Every selected task is ready, and waits for no other selected task. */
  lemma SelectedCanStart(fold: Folding, lookup: map<string, Task>, tasks: seq<Task>, limit: nat, picked: seq<nat>, a: nat, b: nat)
    requires Greedy(fold, lookup, tasks, limit, picked, |tasks|) && a < |picked| && b < |picked|
    requires forall i :: 0 <= i < |tasks| ==> tasks[i].id in lookup && lookup[tasks[i].id] == tasks[i]
    ensures Eligible(fold, lookup, tasks[picked[a]])
    ensures tasks[picked[b]].id !in tasks[picked[a]].dependencyTaskIDs
  {
    assert picked[a] in picked && picked[b] in picked;
  }

  /** Below the limit, every task left out is unfit to run, or clashes with a selected one. */
  lemma SelectionIsMaximal(fold: Folding, lookup: map<string, Task>, tasks: seq<Task>, limit: nat, picked: seq<nat>, j: nat)
    requires Greedy(fold, lookup, tasks, limit, picked, |tasks|) && |picked| < limit && j < |tasks| && j !in picked
    ensures Eligible(fold, lookup, tasks[j]) ==>
              exists i :: 0 <= i < |picked| && picked[i] < j && Clash(fold, tasks[j], tasks[picked[i]])
  {
    assert !FullBefore(picked, limit, j);
    if Eligible(fold, lookup, tasks[j]) {
      assert ClashesBefore(fold, tasks, picked, j);
      var i: nat, f :| 0 <= f < |tasks[j].likelyFilesAffected| && Key(fold, tasks[j].likelyFilesAffected[f]) != ""
                  && HoldsFor(fold, tasks, picked, j, i, Key(fold, tasks[j].likelyFilesAffected[f]));
      assert Clash(fold, tasks[j], tasks[picked[i]]);
    }
  }

  /** The first eligible candidate is always taken, so there is an error exactly when none is eligible. */
  lemma EmptyExactly(fold: Folding, lookup: map<string, Task>, tasks: seq<Task>, limit: nat, picked: seq<nat>)
    requires Greedy(fold, lookup, tasks, limit, picked, |tasks|) && 0 < limit
    ensures picked == [] <==> forall j :: 0 <= j < |tasks| ==> !Eligible(fold, lookup, tasks[j])
  {
    if picked == [] {
      forall j | 0 <= j < |tasks| ensures !Eligible(fold, lookup, tasks[j]) {
        assert j !in picked;
      }
    } else {
      assert picked[0] in picked;
    }
  }

  lemma {:induction false} PlaceIsNoEarlier(tasks: seq<Task>, picked: seq<nat>, n: nat, i: nat)
    requires Places(tasks, picked, n) && i < |picked|
    ensures i <= picked[i]
    decreases i
  {
    if i > 0 { PlaceIsNoEarlier(tasks, picked, n, i - 1); }
  }

  lemma {:induction false} PlacesOfTwo(t: Task, u: Task, picked: seq<nat>)
    requires Places([t, u], picked, 2) && 0 in picked && 1 in picked
    ensures picked == [0, 1]
  {
    var i :| 0 <= i < |picked| && picked[i] == 1;
    PlaceIsNoEarlier([t, u], picked, 2, |picked| - 1);
    assert picked[0] == 0 && |picked| <= 2;
  }

  /** Of two candidates the second is held up exactly by a file of the first, looked up trimmed, if the first has an ID. */
  lemma SecondClashesExactly(fold: Folding, t: Task, u: Task, picked: seq<nat>)
    requires Places([t, u], picked, 2) && 0 in picked
    ensures ClashesBefore(fold, [t, u], picked, 1) <==> t.id != "" && Clash(fold, u, t)
  {
    var tasks := [t, u];
    assert tasks[0] == t && tasks[1] == u;
    var z :| 0 <= z < |picked| && picked[z] == 0;
    assert forall i :: 0 <= i < |picked| && picked[i] < 1 ==> i == z;
    forall key ensures HoldsFor(fold, tasks, picked, 1, z, key) <==> t.id != "" && Claims(fold, t, key) {}
    forall i: nat, key: string | HoldsFor(fold, tasks, picked, 1, i, key) ensures i == z {}
  }

  /** Both tasks name the file. */
  predicate Share(t: Task, u: Task, file: string) {
    file in t.likelyFilesAffected && file in u.likelyFilesAffected
  }

  /** The name is blank, or trimming changes how it folds. */
  predicate Escapes(fold: Folding, file: string) {
    Key(fold, file) == "" || Key(fold, file) != fold.lower(file)
  }

  /**
    * Two eligible tasks are both taken if and only if no file of the second, looked up without the blanks around it,
    * is a file of the first, remembered with them under the first one's ID. So a file that both name has escaped the
    * check, and a single file that can escape it does.
    */
  lemma SharedNameIsCaughtExactly(fold: Folding, lookup: map<string, Task>, t: Task, u: Task, limit: nat, picked: seq<nat>)
    requires Eligible(fold, lookup, t) && Eligible(fold, lookup, u) && 2 <= limit
    requires Greedy(fold, lookup, [t, u], limit, picked, 2)
    ensures picked == [0, 1] <==> t.id == "" || !Clash(fold, u, t)
    ensures picked == [0, 1] && t.id != "" ==> forall file :: Share(t, u, file) ==> Escapes(fold, file)
    ensures t.id != "" ==> forall file :: t.likelyFilesAffected == [file] == u.likelyFilesAffected ==>
              (picked == [0, 1] <==> Escapes(fold, file))
  {
    assert [t, u][0] == t && [t, u][1] == u;
    assert 0 in picked;
    SecondClashesExactly(fold, t, u, picked);
    if limit <= |picked| { PlaceIsNoEarlier([t, u], picked, 2, limit - 1); }
    assert 1 in picked <==> t.id == "" || !Clash(fold, u, t);
    if 1 in picked { PlacesOfTwo(t, u, picked); }
    assert picked == [0, 1] ==> picked[1] in picked;
    CommonFileClashes(fold, t, u);
  }

  lemma CommonFileClashes(fold: Folding, t: Task, u: Task)
    ensures forall file :: Share(t, u, file) && !Escapes(fold, file) ==> Clash(fold, u, t)
    ensures forall file :: t.likelyFilesAffected == [file] == u.likelyFilesAffected ==> (Clash(fold, u, t) <==> !Escapes(fold, file))
  {
    forall file | Share(t, u, file) && !Escapes(fold, file)
      ensures Clash(fold, u, t)
    {
      var i :| 0 <= i < |u.likelyFilesAffected| && u.likelyFilesAffected[i] == file;
      var j :| 0 <= j < |t.likelyFilesAffected| && t.likelyFilesAffected[j] == file;
      assert Claims(fold, t, Key(fold, file));
    }
    forall file | t.likelyFilesAffected == [file] == u.likelyFilesAffected
      ensures Clash(fold, u, t) <==> !Escapes(fold, file)
    {
      assert t.likelyFilesAffected[0] == file == u.likelyFilesAffected[0];
    }
  }

  /** The last of the selected tasks from number `i` on, before candidate `j`, that claims `key`. */
  lemma LastClaimant(fold: Folding, tasks: seq<Task>, picked: seq<nat>, j: nat, i: nat, key: string) returns (last: nat)
    requires Places(tasks, picked, |tasks|) && i < |picked| && picked[i] < j && Claims(fold, tasks[picked[i]], key)
    ensures last < |picked| && picked[last] < j && Claims(fold, tasks[picked[last]], key)
    ensures forall k :: last < k < |picked| && picked[k] < j ==> !Claims(fold, tasks[picked[k]], key)
    decreases |picked| - i
  {
    if k :| i < k < |picked| && picked[k] < j && Claims(fold, tasks[picked[k]], key) {
      last := LastClaimant(fold, tasks, picked, j, k, key);
    } else {
      last := i;
    }
  }

  /** When the selected tasks have IDs, it does not matter which of them claimed a file last. */
  lemma ClashesWithAny(fold: Folding, tasks: seq<Task>, picked: seq<nat>, j: nat)
    requires Places(tasks, picked, |tasks|) && j < |tasks| && forall i :: 0 <= i < |picked| ==> tasks[picked[i]].id != ""
    ensures ClashesBefore(fold, tasks, picked, j) <==>
              exists i :: 0 <= i < |picked| && picked[i] < j && Clash(fold, tasks[j], tasks[picked[i]])
  {
    if i :| 0 <= i < |picked| && picked[i] < j && Clash(fold, tasks[j], tasks[picked[i]]) {
      var files := tasks[j].likelyFilesAffected;
      var f :| 0 <= f < |files| && Key(fold, files[f]) != "" && Claims(fold, tasks[picked[i]], Key(fold, files[f]));
      var last := LastClaimant(fold, tasks, picked, j, i, Key(fold, files[f]));
      assert HoldsFor(fold, tasks, picked, j, last, Key(fold, files[f]));
    }
    if ClashesBefore(fold, tasks, picked, j) {
      var i: nat, f :| 0 <= f < |tasks[j].likelyFilesAffected| && Key(fold, tasks[j].likelyFilesAffected[f]) != ""
                       && HoldsFor(fold, tasks, picked, j, i, Key(fold, tasks[j].likelyFilesAffected[f]));
      assert Clash(fold, tasks[j], tasks[picked[i]]);
    }
  }

  /**
    * In any list of tasks with IDs: an eligible candidate that there is room for is taken if and only if none of its
    * files, looked up without the blanks around it, is a file of a task selected before, remembered with them. A file
    * that it has in common with one of those has escaped the check.
    */
  lemma NameIsCaughtExactly(fold: Folding, lookup: map<string, Task>, tasks: seq<Task>, limit: nat, picked: seq<nat>, j: nat)
    requires Greedy(fold, lookup, tasks, limit, picked, |tasks|) && forall i :: 0 <= i < |picked| ==> tasks[picked[i]].id != ""
    requires j < |tasks| && Eligible(fold, lookup, tasks[j]) && !FullBefore(picked, limit, j)
    ensures j in picked <==> forall i :: 0 <= i < |picked| && picked[i] < j ==> !Clash(fold, tasks[j], tasks[picked[i]])
    ensures j in picked ==>
              forall i, file :: 0 <= i < |picked| && picked[i] < j && Share(tasks[picked[i]], tasks[j], file) ==> Escapes(fold, file)
  {
    ClashesWithAny(fold, tasks, picked, j);
    forall i | 0 <= i < |picked| && picked[i] < j && !Clash(fold, tasks[j], tasks[picked[i]])
      ensures forall file :: Share(tasks[picked[i]], tasks[j], file) ==> Escapes(fold, file)
    {
      CommonFileClashes(fold, tasks[picked[i]], tasks[j]);
    }
  }

  // --------------------------------------------------------------------- uniqueness

  predicate Increasing(p: seq<nat>) {
    forall i, j :: 0 <= i < j < |p| ==> p[i] < p[j]
  }

  function Elements(p: seq<nat>): set<nat> {
    set i | 0 <= i < |p| :: p[i]
  }

  lemma {:induction false} AsManyElements(p: seq<nat>)
    requires Increasing(p)
    ensures |Elements(p)| == |p|
    decreases |p|
  {
    if p != [] {
      var n := |p| - 1;
      AsManyElements(p[..n]);
      assert Elements(p) == Elements(p[..n]) + {p[n]};
    }
  }

  lemma SmallerOrSame(a: set<nat>, b: set<nat>)
    requires a <= b && |a| >= |b|
    ensures a == b
  {
    assert b == a + (b - a);
  }

  /** Two selections agree on the candidates before `n`. */
  ghost predicate Agree(p: seq<nat>, q: seq<nat>, n: nat) {
    forall j :: 0 <= j < n ==> (j in p <==> j in q)
  }

  lemma AgreeOnFull(p: seq<nat>, q: seq<nat>, limit: nat, n: nat)
    requires Increasing(p) && Increasing(q) && |p| <= limit && |q| <= limit && Agree(p, q, n) && FullBefore(p, limit, n)
    ensures FullBefore(q, limit, n)
  {
    AsManyElements(p);
    AsManyElements(q);
    forall x | x in Elements(p) ensures x in Elements(q) && x < n {
      var i :| 0 <= i < |p| && p[i] == x;
      assert p[i] <= p[limit - 1];
      assert x in p && x in q;
    }
    SmallerOrSame(Elements(p), Elements(q));
    assert q[limit - 1] in Elements(q);
  }

  lemma AgreeOnHolder(fold: Folding, tasks: seq<Task>, p: seq<nat>, q: seq<nat>, n: nat, i: nat, key: string) returns (j: nat)
    requires Places(tasks, p, |tasks|) && Places(tasks, q, |tasks|) && Agree(p, q, n) && HoldsFor(fold, tasks, p, n, i, key)
    ensures HoldsFor(fold, tasks, q, n, j, key)
  {
    assert p[i] in q;
    j :| 0 <= j < |q| && q[j] == p[i];
    forall k | j < k < |q| && q[k] < n ensures !Claims(fold, tasks[q[k]], key) {
      assert q[k] in p;
      var m :| 0 <= m < |p| && p[m] == q[k];
      assert i < m;
    }
  }

  lemma AgreeOnClash(fold: Folding, tasks: seq<Task>, p: seq<nat>, q: seq<nat>, n: nat)
    requires Places(tasks, p, |tasks|) && Places(tasks, q, |tasks|) && n < |tasks| && Agree(p, q, n)
    requires ClashesBefore(fold, tasks, p, n)
    ensures ClashesBefore(fold, tasks, q, n)
  {
    var i: nat, f :| 0 <= f < |tasks[n].likelyFilesAffected| && Key(fold, tasks[n].likelyFilesAffected[f]) != ""
                && HoldsFor(fold, tasks, p, n, i, Key(fold, tasks[n].likelyFilesAffected[f]));
    var j := AgreeOnHolder(fold, tasks, p, q, n, i, Key(fold, tasks[n].likelyFilesAffected[f]));
  }

  lemma {:induction false} GreedyAgrees(fold: Folding, lookup: map<string, Task>, tasks: seq<Task>, limit: nat, p: seq<nat>, q: seq<nat>, n: nat)
    requires Greedy(fold, lookup, tasks, limit, p, |tasks|) && Greedy(fold, lookup, tasks, limit, q, |tasks|) && n <= |tasks|
    ensures Agree(p, q, n)
    decreases n
  {
    if n > 0 {
      var m := n - 1;
      GreedyAgrees(fold, lookup, tasks, limit, p, q, m);
      if FullBefore(p, limit, m) { AgreeOnFull(p, q, limit, m); }
      if FullBefore(q, limit, m) { AgreeOnFull(q, p, limit, m); }
      if ClashesBefore(fold, tasks, p, m) { AgreeOnClash(fold, tasks, p, q, m); }
      if ClashesBefore(fold, tasks, q, m) { AgreeOnClash(fold, tasks, q, p, m); }
      assert m in p <==> m in q;
    }
  }

  lemma {:induction false} SameElements(p: seq<nat>, q: seq<nat>)
    requires Increasing(p) && Increasing(q) && Elements(p) == Elements(q)
    ensures p == q
    decreases |p|
  {
    AsManyElements(p);
    AsManyElements(q);
    if p != [] {
      var n := |p| - 1;
      assert p[n] in Elements(q) && q[n] in Elements(p);
      assert p[n] == q[n];
      WithoutGreatest(p);
      WithoutGreatest(q);
      SameElements(p[..n], q[..n]);
      assert p == p[..n] + [p[n]] && q == q[..n] + [q[n]];
    }
  }

  lemma WithoutGreatest(p: seq<nat>)
    requires Increasing(p) && p != []
    ensures Elements(p[..|p| - 1]) == Elements(p) - {p[|p| - 1]}
  {
    var all, shorter := Elements(p), Elements(p[..|p| - 1]);
    forall x | x in all && x != p[|p| - 1] ensures x in shorter {
      var i :| 0 <= i < |p| && p[i] == x;
      assert p[..|p| - 1][i] == x;
    }
  }

  /** There is only one such batch: the contract of ComputeParallelBatch fixes its answer. */
  lemma BatchIsUnique(fold: Folding, lookup: map<string, Task>, tasks: seq<Task>, limit: nat, a: Option<seq<Task>>, b: Option<seq<Task>>)
    requires IsBatch(fold, lookup, tasks, limit, a) && IsBatch(fold, lookup, tasks, limit, b)
    ensures a == b
  {
    var p :| Greedy(fold, lookup, tasks, limit, p, |tasks|) && a == if p == [] then None else Some(TasksAt(tasks, p));
    var q :| Greedy(fold, lookup, tasks, limit, q, |tasks|) && b == if q == [] then None else Some(TasksAt(tasks, q));
    GreedyAgrees(fold, lookup, tasks, limit, p, q, |tasks|);
    forall x ensures x in Elements(p) <==> x in Elements(q) {
      assert x in Elements(p) ==> x in p && x < |tasks|;
      assert x in Elements(q) ==> x in q && x < |tasks|;
    }
    SameElements(p, q);
  }
}
