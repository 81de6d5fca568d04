/** The recorder: a bounded ring of recent events, merged with what a store has kept, and replayed by cursor. */
module ActivityRecorder {
  import opened Wrappers
  import opened ActivityLog

  const DEFAULT_CAPACITY := 500
  const MAX_REPLAY_BATCH := 500

  function Reversed<T>(s: seq<T>): (r: seq<T>)
    ensures |r| == |s|
  {
    if s == [] then [] else [s[|s| - 1]] + Reversed(s[..|s| - 1])
  }

  lemma ReversedAppend<T>(s: seq<T>, x: T)
    ensures Reversed(s + [x]) == [x] + Reversed(s)
  {
    assert (s + [x])[..|s|] == s;
  }

  lemma {:induction false} ReversedAt<T>(s: seq<T>, k: nat)
    requires k < |s|
    ensures Reversed(s)[k] == s[|s| - 1 - k]
    decreases |s|
  {
    if k > 0 {
      ReversedAt(s[..|s| - 1], k - 1);
    } else if |s| > 1 {
      ReversedAt(s[..|s| - 1], 0);
    }
  }

  /** What a store holds for a project. */
  function Restrict(m: map<int, Event>, projectID: string): map<int, Event> {
    map id | id in m && Matches(m[id], projectID) :: m[id]
  }

  /** A limit is cut down to the capacity; a negative one means all there is. */
  function Effective(limit: int, capacity: nat): nat {
    if limit < 0 || limit > capacity then capacity else limit
  }

  lemma IndexAppend(s: seq<Event>, e: Event)
    ensures Index(s + [e]) == Index(s)[e.id := e]
  {
    assert (s + [e])[..|s|] == s;
  }

  lemma {:induction false} AllOfProject(s: seq<Event>, projectID: string)
    requires forall i :: 0 <= i < |s| ==> Matches(s[i], projectID)
    ensures OfProject(s, projectID) == s
    decreases |s|
  {
    if s != [] {
      AllOfProject(s[..|s| - 1], projectID);
      assert s == s[..|s| - 1] + [s[|s| - 1]];
    }
  }

  lemma FileNext(events: seq<Event>, i: nat, projectID: string, byID: map<int, Event>)
    requires i < |events|
    ensures byID + Index(OfProject(events[..i + 1], projectID))
            == if Matches(events[i], projectID) then (byID + Index(OfProject(events[..i], projectID)))[events[i].id := events[i]]
               else byID + Index(OfProject(events[..i], projectID))
  {
    var s, t := events[..i + 1], OfProject(events[..i], projectID);
    assert s[..i] == events[..i];
    if Matches(events[i], projectID) {
      IndexAppend(t, events[i]);
      assert byID + Index(t)[events[i].id := events[i]] == (byID + Index(t))[events[i].id := events[i]];
    } else {
      assert OfProject(s, projectID) == t;
    }
  }

  /** The events of one list that match, filed by ID; a later one replaces an earlier one. */
  method FileByID(events: seq<Event>, projectID: string, byID: map<int, Event>) returns (filed: map<int, Event>)
    ensures filed == byID + Index(OfProject(events, projectID))
  {
    filed := byID;
    for i := 0 to |events|
      invariant filed == byID + Index(OfProject(events[..i], projectID))
    {
      var event := events[i];
      FileNext(events, i, projectID, byID);
      if projectID != "" && event.projectID != projectID {
        continue;
      }
      filed := filed[event.id := event];
    }
    assert events[..|events|] == events;
  }

  lemma {:induction false} Greatest(s: set<int>) returns (k: int)
    requires s != {}
    ensures k in s && forall j :: j in s ==> j <= k
    decreases |s|
  {
    k := SomeMember(s);
    var rest := s - {k};
    if rest != {} {
      var other := Greatest(rest);
      if other > k { k := other; }
    }
    forall j | j in s ensures j <= k { assert j in rest || s - rest == {j}; }
  }

  method PickGreatest(s: set<int>) returns (id: int)
    requires s != {}
    ensures id in s && forall j :: j in s ==> j <= id
  {
    ghost var greatest := Greatest(s);
    id :| id in s && forall j :: j in s ==> j <= id;
  }

  /** `s` lists the events of `m` in the order of their IDs. */
  ghost predicate Listed(m: map<int, Event>, s: seq<Event>) {
    Ascending(s) && Ids(s) == m.Keys && forall i :: 0 <= i < |s| ==> s[i].id in m && m[s[i].id] == s[i]
  }

  lemma ListNext(m: map<int, Event>, s: seq<Event>, id: int)
    requires Listed(m - {id}, s) && Keyed(m) && id in m && forall j :: j in m ==> j <= id
    ensures Listed(m, s + [m[id]])
  {
    var rest, t := m - {id}, s + [m[id]];
    assert t[|s|] == m[id];
    forall i | 0 <= i < |s| ensures t[i] == s[i] && t[i].id in m && m[t[i].id] == t[i] && t[i].id < id {
      assert s[i].id in rest;
    }
    forall x | x in m.Keys ensures x in Ids(t) {
      if x == id {
        assert t[|s|].id == x;
      } else {
        assert x in Ids(s);
        var i :| 0 <= i < |s| && s[i].id == x;
        assert t[i].id == x;
      }
    }
  }

  /** Stands for sort.Slice: the values of a map, by ID. */
  method SortByID(byID: map<int, Event>) returns (sorted: seq<Event>)
    requires Keyed(byID)
    ensures Listed(byID, sorted)
    decreases |byID|
  {
    if byID == map[] {
      return [];
    }
    var id := PickGreatest(byID.Keys);
    var rest := byID - {id};
    assert rest.Keys < byID.Keys && |rest.Keys| < |byID.Keys| by { assert byID.Keys == rest.Keys + {id}; }
    sorted := SortByID(rest);
    ListNext(byID, sorted, id);
    sorted := sorted + [byID[id]];
  }

  lemma ListedIndex(m: map<int, Event>, s: seq<Event>, k: nat)
    requires Listed(m, s)
    ensures Newest(m, k, LastOf(s, k))
  {
    IndexIs(s);
    forall id | id in m ensures Index(s)[id] == m[id] {
      var i :| 0 <= i < |s| && s[i].id == id;
    }
    assert Index(s) == m;
    LastAreNewest(s, k);
  }

  method MergeRecent(persisted: seq<Event>, memory: seq<Event>, projectID: string, limit: nat) returns (merged: seq<Event>)
    ensures Newest(Index(OfProject(persisted, projectID)) + Index(OfProject(memory, projectID)), limit, merged)
  {
    if limit == 0 {
      return [];
    }
    var byID := FileByID(persisted, projectID, map[]);
    assert byID == Index(OfProject(persisted, projectID));
    byID := FileByID(memory, projectID, byID);
    IndexIs(OfProject(persisted, projectID));
    IndexIs(OfProject(memory, projectID));
    merged := SortByID(byID);
    ListedIndex(byID, merged, limit);
    if |merged| > limit {
      merged := merged[|merged| - limit..];
    }
  }

  lemma LastMatch(events: seq<Event>, projectID: string, k: nat)
    ensures OfProject(LastOf(OfProject(events, projectID), k), projectID) == LastOf(OfProject(events, projectID), k)
  {
    var own := OfProject(events, projectID);
    OfProjectIs(events, projectID);
    var memory := LastOf(own, k);
    forall i | 0 <= i < |memory| ensures Matches(memory[i], projectID) { assert memory[i] in own; }
    AllOfProject(memory, projectID);
  }

  lemma MergedAnswer(store: map<int, Event>, events: seq<Event>, projectID: string, k: nat,
                     answer: seq<Event>, memory: seq<Event>, r: seq<Event>)
    requires Keyed(store) && Ascending(events)
    requires Newest(Restrict(store, projectID), k, answer) && memory == LastOf(OfProject(events, projectID), k)
    requires Newest(Index(OfProject(answer, projectID)) + Index(OfProject(memory, projectID)), k, r)
    ensures Newest(Restrict(store, projectID) + Index(OfProject(events, projectID)), k, r)
  {
    AllOfProject(answer, projectID);
    LastMatch(events, projectID, k);
    OfProjectIs(events, projectID);
    LastAreNewest(OfProject(events, projectID), k);
    IndexKeys(OfProject(events, projectID));
    NewestOfMerged(Restrict(store, projectID), Index(OfProject(events, projectID)), k, answer, memory, r);
  }

  lemma RestrictUpdate(m: map<int, Event>, e: Event, projectID: string)
    requires e.id !in m
    ensures Restrict(m[e.id := e], projectID)
            == if Matches(e, projectID) then Restrict(m, projectID)[e.id := e] else Restrict(m, projectID)
  {
  }

  lemma {:induction false} RestrictIndex(log: seq<Event>, projectID: string)
    requires Ascending(log)
    ensures Restrict(Index(log), projectID) == Index(OfProject(log, projectID))
    decreases |log|
  {
    if log != [] {
      var n := |log| - 1;
      var rest, e := log[..n], log[n];
      RestrictIndex(rest, projectID);
      IndexIs(rest);
      RestrictUpdate(Index(rest), e, projectID);
      if Matches(e, projectID) {
        IndexAppend(OfProject(rest, projectID), e);
      } else {
        assert OfProject(log, projectID) == OfProject(rest, projectID);
      }
    }
  }

  /** When the store has kept everything, its answer merged with the ring is the end of the whole log. */
  lemma NothingLost(log: seq<Event>, capacity: nat, projectID: string, k: nat, r: seq<Event>)
    requires Ascending(log)
    requires Newest(Restrict(Index(log), projectID) + Index(OfProject(LastOf(log, capacity), projectID)), k, r)
    ensures Ids(r) == Ids(LastOf(OfProject(log, projectID), k))
  {
    var ring, own := LastOf(log, capacity), OfProject(log, projectID);
    var older := log[..|log| - |ring|];
    assert log == older + ring;
    OfProjectConcat(older, ring, projectID);
    IndexConcat(OfProject(older, projectID), OfProject(ring, projectID));
    RestrictIndex(log, projectID);
    assert Index(own) + Index(OfProject(ring, projectID)) == Index(own);
    OfProjectIs(log, projectID);
    IndexIs(own);
    LastAreNewest(own, k);
    NewestIsUnique(Index(own), k, r, LastOf(own, k));
  }

  /** What Since answers with: the first events after the cursor; with a cursor store, the newest of its answer and those. */
  ghost predicate SinceAnswer(events: seq<Event>, projectID: string, afterID: int, k: nat, answer: Option<seq<Event>>, r: seq<Event>) {
    var memory := FirstOf(After(OfProject(events, projectID), afterID), k);
    if answer.None? then r == memory
    else Newest(Index(OfProject(answer.value, projectID)) + Index(OfProject(memory, projectID)), k, r)
  }

  method ReverseInPlace(s: seq<Event>) returns (selected: seq<Event>)
    ensures selected == Reversed(s)
  {
    selected := s;
    var left, right := 0, |s| - 1;
    while left < right
      invariant |selected| == |s| && 0 <= left <= |s| && right == |s| - 1 - left
      invariant left <= right + 1
      invariant forall i :: left <= i <= right ==> selected[i] == s[i]
      invariant forall i :: 0 <= i < left ==> selected[i] == s[|s| - 1 - i]
      invariant forall i :: right < i < |s| ==> selected[i] == s[|s| - 1 - i]
    {
      var l, r := selected[left], selected[right];
      selected := selected[left := r][right := l];
      left, right := left + 1, right - 1;
    }
    forall k | 0 <= k < |s| ensures selected[k] == Reversed(s)[k] { ReversedAt(s, k); }
  }

  lemma SelectNext(events: seq<Event>, i: nat, projectID: string, afterID: int)
    requires i < |events|
    ensures After(OfProject(events[..i + 1], projectID), afterID)
            == After(OfProject(events[..i], projectID), afterID)
               + if Matches(events[i], projectID) && events[i].id > afterID then [events[i]] else []
  {
    var s, t, e := events[..i + 1], OfProject(events[..i], projectID), events[i];
    assert s[..i] == events[..i] && s[i] == e;
    if Matches(e, projectID) {
      assert OfProject(s, projectID) == t + [e];
      assert (t + [e])[..|t|] == t && (t + [e])[|t|] == e;
    } else {
      assert OfProject(s, projectID) == t;
    }
  }

  lemma SplitAt<T>(s: seq<T>, i: nat)
    requires i <= |s|
    ensures s == s[..i] + s[i..]
  {
  }

  lemma SelectPrevious(events: seq<Event>, i: nat, projectID: string)
    requires i < |events|
    ensures OfProject(events[i..], projectID)
            == (if Matches(events[i], projectID) then [events[i]] else []) + OfProject(events[i + 1..], projectID)
  {
    var e := events[i];
    assert events[i..] == [e] + events[i + 1..];
    OfProjectConcat([e], events[i + 1..], projectID);
    assert OfProject([e], projectID) == (if Matches(e, projectID) then [e] else []) by { assert [e][..0] == []; }
  }

  lemma CollectNext(events: seq<Event>, i: nat, selected: seq<Event>, projectID: string)
    requires i < |events| && Reversed(selected) == OfProject(events[i + 1..], projectID)
    ensures Reversed(if Matches(events[i], projectID) then selected + [events[i]] else selected) == OfProject(events[i..], projectID)
  {
    SelectPrevious(events, i, projectID);
    ReversedAppend(selected, events[i]);
  }

  lemma SelectedIsSuffix(events: seq<Event>, j: nat, projectID: string)
    requires j <= |events|
    ensures var part := OfProject(events[j..], projectID);
            && part == LastOf(OfProject(events, projectID), |part|)
            && (j == 0 ==> part == OfProject(events, projectID))
  {
    SplitAt(events, j);
    OfProjectConcat(events[..j], events[j..], projectID);
  }

  lemma SelectedIsPrefix(events: seq<Event>, j: nat, projectID: string, afterID: int)
    requires j <= |events|
    ensures var part := After(OfProject(events[..j], projectID), afterID);
            part == FirstOf(After(OfProject(events, projectID), afterID), |part|)
  {
    SplitAt(events, j);
    OfProjectConcat(events[..j], events[j..], projectID);
    AfterConcat(OfProject(events[..j], projectID), OfProject(events[j..], projectID), afterID);
  }

  /** A batch is ascending, lies after the cursor, and is followed by what comes after its last event. */
  lemma BatchIs(wanted: seq<Event>, from: int, k: nat, batch: seq<Event>)
    requires Ascending(wanted) && batch == FirstOf(After(wanted, from), k)
    ensures |batch| == if |After(wanted, from)| <= k then |After(wanted, from)| else k
    ensures |After(wanted, from)| <= |wanted|
    ensures Ascending(batch) && forall i :: 0 <= i < |batch| ==> batch[i].id > from
    ensures batch != [] ==> After(wanted, from) == batch + After(wanted, batch[|batch| - 1].id)
  {
    var j := AfterIsSuffix(wanted, from);
    assert forall i :: 0 <= i < |batch| ==> batch[i] == wanted[j + i];
    if batch != [] {
      AfterBatch(wanted, from, |batch|, batch[|batch| - 1].id);
    }
  }

  /** Writes the events of one batch and moves the cursor along. */
  method WriteBatch(batch: seq<Event>, written: seq<Event>, from: int) returns (emitted: seq<Event>, lastSentID: int)
    requires Ascending(batch) && forall i :: 0 <= i < |batch| ==> batch[i].id > from
    ensures emitted == written + batch
    ensures lastSentID == if batch == [] then from else batch[|batch| - 1].id
  {
    emitted, lastSentID := written, from;
    for i := 0 to |batch|
      invariant emitted == written + batch[..i]
      invariant lastSentID == if i == 0 then from else batch[i - 1].id
    {
      var event := batch[i];
      emitted := emitted + [event];
      if event.id > lastSentID {
        lastSentID := event.id;
      }
    }
    assert batch[..|batch|] == batch;
  }

  /** What has been written, and what is still to come, make up what was asked for. */
  ghost predicate Replaying(wanted: seq<Event>, afterID: int, emitted: seq<Event>, lastSentID: int) {
    && lastSentID == (if emitted == [] then afterID else emitted[|emitted| - 1].id)
    && emitted + After(wanted, lastSentID) == After(wanted, afterID)
  }

  lemma TurnReplays(wanted: seq<Event>, afterID: int, emitted: seq<Event>, from: int, k: nat, batch: seq<Event>)
    requires Ascending(wanted) && batch == FirstOf(After(wanted, from), k) && batch != []
    requires Replaying(wanted, afterID, emitted, from)
    ensures Ascending(batch) && forall i :: 0 <= i < |batch| ==> batch[i].id > from
    ensures Replaying(wanted, afterID, emitted + batch, batch[|batch| - 1].id)
    ensures |After(wanted, batch[|batch| - 1].id)| == |After(wanted, from)| - |batch|
  {
    BatchIs(wanted, from, k, batch);
    Assoc(emitted, batch, After(wanted, batch[|batch| - 1].id));
    assert (emitted + batch)[|emitted + batch| - 1] == batch[|batch| - 1];
  }

  lemma Assoc<T>(a: seq<T>, b: seq<T>, c: seq<T>)
    ensures a + b + c == a + (b + c)
  {
  }

  /** A batch cut short by the replay limit is a full one: anything less is all there is. */
  lemma ShortBatchIsLast(wanted: seq<Event>, from: int, capacity: nat, batch: seq<Event>)
    requires Ascending(wanted) && |wanted| <= capacity && 0 < capacity
    requires batch == FirstOf(After(wanted, from), Effective(MAX_REPLAY_BATCH, capacity)) && |batch| < MAX_REPLAY_BATCH
    ensures batch == After(wanted, from)
  {
    BatchIs(wanted, from, Effective(MAX_REPLAY_BATCH, capacity), batch);
  }

  class Recorder {
    const capacity: nat
    var nextID: int
    var events: seq<Event>
    /** What the attached store has kept; the source's events lose some fields on the way there. */
    var store: map<int, Event>
    ghost const base: int
    /** Every event recorded so far. */
    ghost var log: seq<Event>

    ghost predicate Valid()
      reads this
    {
      && 0 < capacity && Keyed(store)
      && events == LastOf(log, capacity)
      && nextID == base + |log|
      && forall i :: 0 <= i < |log| ==> log[i].id == base + 1 + i
    }

    constructor (capacity: int, store: map<int, Event>, maxID: Option<int>)
      requires Keyed(store)
      ensures Valid() && log == [] && this.store == store
      ensures this.capacity == (if capacity <= 0 then DEFAULT_CAPACITY else capacity)
      ensures nextID == if maxID.Some? then maxID.value else 0
    {
      this.capacity := if capacity <= 0 then DEFAULT_CAPACITY else capacity;
      this.store := store;
      events, log := [], [];
      nextID := if maxID.Some? then maxID.value else 0;
      base := if maxID.Some? then maxID.value else 0;
    }

    /** `kept` is what the store keeps of the event, if it keeps it at all. */
    method Record(event: Event, kept: Option<Event>) returns (recorded: Event)
      requires Valid() && (kept.Some? ==> kept.value.id == nextID + 1)
      modifies this
      ensures Valid() && nextID == old(nextID) + 1
      ensures recorded == event.(id := nextID) && log == old(log) + [recorded]
      ensures store == if kept.Some? then old(store)[nextID := kept.value] else old(store)
    {
      nextID := nextID + 1;
      recorded := event.(id := nextID);
      events := events + [recorded];
      log := log + [recorded];
      if |events| > capacity {
        events := events[|events| - capacity..];
      }
      if kept.Some? {
        store := store[nextID := kept.value];
      }
    }

    /** The ring holds the newest events recorded, as many as fit, with consecutive IDs up to the last one given. */
    lemma RingIsContiguous()
      requires Valid()
      ensures |events| == if |log| < capacity then |log| else capacity
      ensures forall i :: 0 <= i < |events| ==> events[i].id == nextID - |events| + 1 + i && events[i] == log[|log| - |events| + i]
      ensures Ascending(events)
    {
      var d := |log| - |events|;
      assert forall i :: 0 <= i < |events| ==> events[i] == log[d + i];
    }

    /** Walks the ring backwards from its end, until enough events are found. */
    method CollectBackwards(projectID: string, limit: nat) returns (selected: seq<Event>, ghost from: nat)
      ensures from <= |events| && Reversed(selected) == OfProject(events[from..], projectID)
      ensures |selected| <= limit && (|selected| < limit ==> from == 0)
    {
      selected := [];
      var index := |events|;
      while index > 0 && |selected| < limit
        invariant 0 <= index <= |events| && |selected| <= limit
        invariant Reversed(selected) == OfProject(events[index..], projectID)
      {
        index := index - 1;
        CollectNext(events, index, selected, projectID);
        if Matches(events[index], projectID) {
          selected := selected + [events[index]];
        }
      }
      from := index;
    }

    method RecentFromMemory(projectID: string, limit: nat) returns (selected: seq<Event>)
      ensures selected == LastOf(OfProject(events, projectID), limit)
    {
      ghost var from;
      selected, from := CollectBackwards(projectID, limit);
      SelectedIsSuffix(events, from, projectID);
      selected := ReverseInPlace(selected);
    }

    method SinceFromMemory(projectID: string, afterID: int, limit: nat) returns (selected: seq<Event>)
      requires 0 < limit
      ensures selected == FirstOf(After(OfProject(events, projectID), afterID), limit)
    {
      selected := [];
      for i := 0 to |events|
        invariant selected == After(OfProject(events[..i], projectID), afterID) && |selected| < limit
      {
        var event := events[i];
        SelectNext(events, i, projectID, afterID);
        if event.id > afterID && (projectID == "" || event.projectID == projectID) {
          selected := selected + [event];
        }
        assert selected == After(OfProject(events[..i + 1], projectID), afterID);
        if |selected| == limit {
          SelectedIsPrefix(events, i + 1, projectID, afterID);
          return;
        }
      }
      assert events[..|events|] == events;
    }

    /** `answer` is what the store answers, None when there is no store or it fails. */
    method Recent(projectID: string, limit: int, answer: Option<seq<Event>>) returns (r: seq<Event>)
      requires Valid()
      requires answer.Some? ==> Newest(Restrict(store, projectID), Effective(limit, capacity), answer.value)
      ensures limit == 0 ==> r == []
      ensures answer.None? ==> r == LastOf(OfProject(events, projectID), Effective(limit, capacity))
      ensures answer.Some? ==>
                Newest(Restrict(store, projectID) + Index(OfProject(events, projectID)), Effective(limit, capacity), r)
    {
      if limit == 0 {
        return [];
      }
      var k := limit;
      if k < 0 || k > capacity {
        k := capacity;
      }
      var memoryEvents := RecentFromMemory(projectID, k);
      if answer.Some? {
        r := MergeRecent(answer.value, memoryEvents, projectID, k);
        RingIsContiguous();
        MergedAnswer(store, events, projectID, k, answer.value, memoryEvents, r);
        return;
      }
      return memoryEvents;
    }

    method Since(projectID: string, afterID: int, limit: int, answer: Option<seq<Event>>) returns (r: seq<Event>)
      requires Valid()
      ensures afterID < 0 || limit == 0 ==> r == []
      ensures afterID >= 0 && limit != 0 ==> SinceAnswer(events, projectID, afterID, Effective(limit, capacity), answer, r)
    {
      if afterID < 0 {
        return [];
      }
      if limit == 0 {
        return [];
      }
      var k := limit;
      if k < 0 || k > capacity {
        k := capacity;
      }
      var memoryEvents := SinceFromMemory(projectID, afterID, k);
      if answer.Some? {
        r := MergeRecent(answer.value, memoryEvents, projectID, k);
        return;
      }
      return memoryEvents;
    }

    /** One turn of the replay loop; `done` when nothing is left to send. */
    method SendBatch(projectID: string, afterID: int, written: seq<Event>, cursor: int)
      returns (emitted: seq<Event>, lastSentID: int, done: bool)
      requires Valid() && Replaying(OfProject(events, projectID), afterID, written, cursor)
      requires Ascending(OfProject(events, projectID)) && |OfProject(events, projectID)| <= capacity
      ensures cursor < 0 ==> done && emitted == written && lastSentID == cursor
      ensures Replaying(OfProject(events, projectID), afterID, emitted, lastSentID) && cursor <= lastSentID
      ensures 0 <= cursor && done ==> After(OfProject(events, projectID), lastSentID) == []
      ensures !done ==> |After(OfProject(events, projectID), lastSentID)| < |After(OfProject(events, projectID), cursor)|
    {
      emitted, lastSentID, done := written, cursor, true;
      var batch := Since(projectID, cursor, MAX_REPLAY_BATCH, None);
      ghost var wanted := OfProject(events, projectID);
      if 0 <= cursor && |batch| < MAX_REPLAY_BATCH {
        ShortBatchIsLast(wanted, cursor, capacity, batch);
      }
      if |batch| == 0 {
        return;
      }
      TurnReplays(wanted, afterID, written, cursor, Effective(MAX_REPLAY_BATCH, capacity), batch);
      emitted, lastSentID := WriteBatch(batch, written, cursor);
      done := |batch| < MAX_REPLAY_BATCH;
    }

    /** The replay loop of a recorder without a cursor store; `emitted` is what has been written out. */
    method FlushSince(projectID: string, afterID: int) returns (emitted: seq<Event>, lastSentID: int)
      requires Valid()
      ensures afterID < 0 ==> emitted == []
      ensures 0 <= afterID ==> emitted == After(OfProject(events, projectID), afterID)
      ensures lastSentID == if emitted == [] then afterID else emitted[|emitted| - 1].id
    {
      emitted, lastSentID := [], afterID;
      assert Ascending(OfProject(events, projectID)) && |OfProject(events, projectID)| <= capacity by {
        RingIsContiguous();
        OfProjectIs(events, projectID);
      }
      assert [] + After(OfProject(events, projectID), afterID) == After(OfProject(events, projectID), afterID);
      var done := false;
      while !done
        invariant Replaying(OfProject(events, projectID), afterID, emitted, lastSentID)
        invariant if afterID < 0 then emitted == [] else 0 <= lastSentID
        invariant done && 0 <= afterID ==> After(OfProject(events, projectID), lastSentID) == []
        decreases if done then 0 else 1 + |After(OfProject(events, projectID), lastSentID)|
      {
        emitted, lastSentID, done := SendBatch(projectID, afterID, emitted, lastSentID);
      }
    }
  }
}
