/** What a replay from a recorder with a cursor store leaves out for good. */
module ActivityReplay {
  import opened Wrappers
  import opened ActivityLog
  import opened ActivityRecorder

  // ---------------------------------------------------------------- sets of event IDs

  /** `a` holds the `k` smallest of `w`; all of them, if there are no more. */
  ghost predicate FirstIds(w: set<int>, k: nat, a: set<int>) {
    a <= w && |a| <= k && (a != w ==> |a| == k) && forall x, y :: x in w && x !in a && y in a ==> y < x
  }

  ghost predicate LastIds(w: set<int>, k: nat, b: set<int>) {
    b <= w && |b| <= k && (b != w ==> |b| == k) && forall x, y :: x in w && x !in b && y in b ==> x < y
  }

  /** Some wanted ID is not among the ones sent, and a later one is: the cursor has passed it. */
  ghost predicate Skips(wanted: set<int>, sent: set<int>) {
    exists x, y :: x in wanted && x !in sent && y in sent && x < y
  }

  lemma LeftOutOfFirst(w: set<int>, k: nat, a: set<int>)
    requires FirstIds(w, k, a) && |w| > k
    ensures |a| == k && exists x :: x in w && x !in a
  {
    SubsetIsSmaller(a, w);
    var x := StrictlyLarger(a, w);
  }

  /** The newest of the oldest: something is passed over exactly when they are too many for one batch. */
  lemma TooManySkip(stored: set<int>, ring: set<int>, k: nat, a: set<int>, m: set<int>, sent: set<int>)
    requires 0 < k && FirstIds(stored, k, a) && FirstIds(ring, k, m) && LastIds(a + m, k, sent)
    ensures Skips(stored + ring, sent) <==> |a + m| > k
  {
    if |a + m| > k {
      SubsetIsSmaller(sent, a + m);
      var x := StrictlyLarger(sent, a + m);
      var y := SomeMember(sent);
      assert x in stored + ring && x < y;
    } else {
      SubsetIsSmaller(sent, a + m);
      SubsetIsSmaller(a, a + m);
      SubsetIsSmaller(m, a + m);
      forall x, y | x in stored + ring && x !in sent && y in sent ensures y < x {
        if x in stored { assert a == a + m; } else { assert m == a + m; }
      }
    }
  }

  lemma NewestAreTooMany(stored: set<int>, ring: set<int>, k: nat, a: set<int>, m: set<int>)
    requires 0 < k && FirstIds(stored, k, a) && FirstIds(ring, k, m)
    requires ring <= stored && forall x, y :: x in ring && y in stored && x < y ==> y in ring
    requires |stored| > k && ring != {} && ring != stored
    ensures !(m <= a)
  {
    LeftOutOfFirst(stored, k, a);
    var x :| x in stored && x !in a;
    assert stored <= ring ==> stored == ring;
    var lost := OnlyInFirst(stored, ring);
    var r := SomeMember(ring);
    if m == ring {
      // `x` is newer than all of `a`; were the ring within `a`, it would hold `x` as well.
      assert ring <= a ==> x in ring;
    } else {
      // The ring alone fills a batch; were that batch `a`, all that is not in it, like `lost`, would be newer.
      assert |m| == k;
      var y := SomeMember(m);
      assert lost < y && lost !in m;
      if m <= a { SubsetIsSmaller(m, a); }
    }
  }

  /**
    * When the store has all that the ring has, and nothing newer: too many exactly when more than `k` events are
    * wanted, and the ring has lost some of them but not all.
    */
  lemma TooManyExactly(stored: set<int>, ring: set<int>, k: nat, a: set<int>, m: set<int>)
    requires 0 < k && FirstIds(stored, k, a) && FirstIds(ring, k, m)
    requires ring <= stored && forall x, y :: x in ring && y in stored && x < y ==> y in ring
    ensures |a + m| > k <==> |stored| > k && ring != {} && ring != stored
  {
    if |stored| <= k {
      SubsetIsSmaller(a, stored);
      assert a + m == stored;
    } else if ring == {} {
      assert a + m == a;
    } else if ring == stored {
      SameFirst(stored, k, a, m);
      assert a + m == a;
    } else {
      NewestAreTooMany(stored, ring, k, a, m);
      LeftOutOfFirst(stored, k, a);
      SubsetIsSmaller(a, a + m);
    }
  }

  lemma SameFirst(w: set<int>, k: nat, a: set<int>, b: set<int>)
    requires FirstIds(w, k, a) && FirstIds(w, k, b)
    ensures a == b
  {
    SubsetIsSmaller(a, w);
    SubsetIsSmaller(b, w);
    if !(a <= b) {
      var x := OnlyInFirst(a, b);
      forall y | y in b ensures y in a {}
      SubsetIsSmaller(b, a);
    } else {
      SubsetIsSmaller(a, b);
    }
  }

  // ------------------------------------------------------------------- what Since answers

  /** The IDs after the cursor that a store, or the ring, has for the project. */
  ghost function StoredAfter(store: map<int, Event>, projectID: string, afterID: int): set<int> {
    set id | id in store && Matches(store[id], projectID) && id > afterID
  }

  ghost function RetainedAfter(events: seq<Event>, projectID: string, afterID: int): set<int> {
    Ids(After(OfProject(events, projectID), afterID))
  }

  /** The cursor store's answer: the `k` oldest matching events after the cursor. */
  ghost predicate OldestStored(store: map<int, Event>, projectID: string, afterID: int, k: nat, answer: seq<Event>) {
    && Ascending(answer)
    && (forall i :: 0 <= i < |answer| ==> Matches(answer[i], projectID))
    && FirstIds(StoredAfter(store, projectID, afterID), k, Ids(answer))
  }

  lemma FirstOfIds(s: seq<Event>, k: nat)
    requires Ascending(s)
    ensures FirstIds(Ids(s), k, Ids(FirstOf(s, k)))
  {
    var r := FirstOf(s, k);
    assert forall i :: 0 <= i < |r| ==> r[i] == s[i] && r[i].id in Ids(r);
    AsManyIds(r);
    forall x, y | x in Ids(s) && x !in Ids(r) && y in Ids(r) ensures y < x {
      var i :| 0 <= i < |s| && s[i].id == x;
      var j :| 0 <= j < |r| && r[j].id == y;
      assert s[j].id < s[i].id;
    }
    forall x | x in Ids(r) ensures x in Ids(s) {
      var j :| 0 <= j < |r| && r[j].id == x;
      assert s[j].id == x;
    }
  }

  lemma NewestIds(m: map<int, Event>, k: nat, r: seq<Event>)
    requires Keyed(m) && Newest(m, k, r)
    ensures LastIds(m.Keys, k, Ids(r))
  {
    AsManyIds(r);
    forall x | x in Ids(r) ensures x in m.Keys {
      var i :| 0 <= i < |r| && r[i].id == x;
    }
    forall x | x in m.Keys && x !in Ids(r) ensures |r| == k && forall y :: y in Ids(r) ==> x < y {
      LeftOut(m, k, r, x);
    }
  }

  lemma AfterOfProject(events: seq<Event>, projectID: string, afterID: int, k: nat)
    requires Ascending(events)
    ensures var own := After(OfProject(events, projectID), afterID);
            Ascending(own) && OfProject(FirstOf(own, k), projectID) == FirstOf(own, k)
  {
    OfProjectIs(events, projectID);
    var own := OfProject(events, projectID);
    var j := AfterIsSuffix(own, afterID);
    var memory := FirstOf(After(own, afterID), k);
    forall i | 0 <= i < |memory| ensures Matches(memory[i], projectID) {
      assert memory[i] == own[j + i] && own[j + i] in own;
    }
    AllOfProject(memory, projectID);
  }

  /** Since's contract, as a statement about IDs. */
  lemma SentIds(store: map<int, Event>, events: seq<Event>, projectID: string, afterID: int, k: nat, answer: seq<Event>, r: seq<Event>)
    returns (memory: set<int>)
    requires Keyed(store) && Ascending(events) && OldestStored(store, projectID, afterID, k, answer)
    requires SinceAnswer(events, projectID, afterID, k, Some(answer), r)
    ensures FirstIds(RetainedAfter(events, projectID, afterID), k, memory) && LastIds(Ids(answer) + memory, k, Ids(r))
  {
    var own := After(OfProject(events, projectID), afterID);
    AfterOfProject(events, projectID, afterID, k);
    AllOfProject(answer, projectID);
    FirstOfIds(own, k);
    memory := Ids(FirstOf(own, k));
    IndexKeys(answer);
    IndexKeys(FirstOf(own, k));
    NewestIds(Index(answer) + Index(FirstOf(own, k)), k, r);
    assert (Index(answer) + Index(FirstOf(own, k))).Keys == Ids(answer) + memory;
  }

  /** Whatever the store has kept: a batch passes over an event exactly when its two halves do not fit in one batch. */
  lemma ReplayWithStoreSkips(store: map<int, Event>, events: seq<Event>, projectID: string, afterID: int, k: nat,
                             answer: seq<Event>, r: seq<Event>)
    requires 0 < k && Keyed(store) && Ascending(events) && OldestStored(store, projectID, afterID, k, answer)
    requires SinceAnswer(events, projectID, afterID, k, Some(answer), r)
    ensures Skips(StoredAfter(store, projectID, afterID) + RetainedAfter(events, projectID, afterID), Ids(r))
            <==> |Ids(answer) + Ids(FirstOf(After(OfProject(events, projectID), afterID), k))| > k
  {
    var memory := SentIds(store, events, projectID, afterID, k, answer, r);
    var own := After(OfProject(events, projectID), afterID);
    AfterOfProject(events, projectID, afterID, k);
    FirstOfIds(own, k);
    SameFirst(Ids(own), k, memory, Ids(FirstOf(own, k)));
    TooManySkip(StoredAfter(store, projectID, afterID), Ids(own), k, Ids(answer), memory, Ids(r));
  }

  /** The store has all of the log, of which the ring holds the end; it may hold older events as well. */
  ghost predicate Complete(store: map<int, Event>, log: seq<Event>, base: int) {
    && Keyed(store) && (forall id :: id in store ==> id <= base + |log|)
    && forall i :: 0 <= i < |log| ==>
         log[i].id == base + 1 + i && log[i].id in store && store[log[i].id].projectID == log[i].projectID
  }

  lemma RetainedIs(events: seq<Event>, projectID: string, afterID: int, id: int)
    requires Ascending(events)
    ensures id in RetainedAfter(events, projectID, afterID) <==>
              id > afterID && exists i :: 0 <= i < |events| && events[i].id == id && Matches(events[i], projectID)
  {
    var own := OfProject(events, projectID);
    OfProjectIs(events, projectID);
    var j := AfterIsSuffix(own, afterID);
    if i :| 0 <= i < |events| && events[i].id == id && Matches(events[i], projectID) {
      var n := IndexOf(own, events[i]);
      if id > afterID { assert own[j..][n - j].id == id; }
    }
    if id in RetainedAfter(events, projectID, afterID) {
      var n :| 0 <= n < |own[j..]| && own[j..][n].id == id;
      assert own[j + n] in own;
      var i := IndexOf(events, own[j + n]);
    }
  }

  lemma RingIsUpperPart(store: map<int, Event>, log: seq<Event>, base: int, capacity: nat, projectID: string, afterID: int)
    requires Complete(store, log, base)
    ensures Ascending(LastOf(log, capacity))
    ensures var stored, ring := StoredAfter(store, projectID, afterID), RetainedAfter(LastOf(log, capacity), projectID, afterID);
            ring <= stored && forall id :: id in ring <==> id in stored && id > base + |log| - |LastOf(log, capacity)|
  {
    var events := LastOf(log, capacity);
    var d := |log| - |events|;
    assert forall i :: 0 <= i < |events| ==> events[i] == log[d + i];
    forall id ensures id in RetainedAfter(events, projectID, afterID)
                      <==> id in StoredAfter(store, projectID, afterID) && id > base + d
    {
      RetainedIs(events, projectID, afterID, id);
      if id in store && id > base + d { assert log[id - base - 1].id == id && events[id - base - 1 - d].id == id; }
    }
  }

  lemma SkipsOfComplete(stored: set<int>, ring: set<int>, k: nat, a: set<int>, m: set<int>, sent: set<int>)
    requires 0 < k && FirstIds(stored, k, a) && FirstIds(ring, k, m) && LastIds(a + m, k, sent)
    requires ring <= stored && forall x, y :: x in ring && y in stored && x < y ==> y in ring
    ensures Skips(stored, sent) <==> |stored| > k && ring != {} && ring != stored
  {
    TooManySkip(stored, ring, k, a, m, sent);
    TooManyExactly(stored, ring, k, a, m);
    assert stored + ring == stored;
  }

  lemma RetainedOrNot(log: seq<Event>, base: int, capacity: nat, wanted: set<int>, ring: set<int>)
    requires forall i :: 0 <= i < |log| ==> log[i].id == base + 1 + i
    requires forall id :: id in wanted ==> id <= base + |log|
    requires ring <= wanted && forall id :: id in ring <==> id in wanted && id > base + |log| - |LastOf(log, capacity)|
    ensures ring != {} <==> exists id :: id in wanted && id in Ids(LastOf(log, capacity))
    ensures ring != wanted <==> exists id :: id in wanted && id !in Ids(LastOf(log, capacity))
  {
    var events := LastOf(log, capacity);
    var d := |log| - |events|;
    assert forall i :: 0 <= i < |events| ==> events[i] == log[d + i];
    forall id | id in wanted ensures id in ring <==> id in Ids(events) {
      if id > base + d { assert events[id - base - 1 - d].id == id; }
    }
    if ring != wanted {
      assert wanted <= ring ==> wanted == ring;
      var id := OnlyInFirst(wanted, ring);
    }
    if ring != {} { var id := SomeMember(ring); }
  }

  /**
    * With a store that has kept the whole log, a replay batch passes over an event for good if and only if more events
    * are wanted than fit in the batch, and the ring has already lost some of them but still holds others.
    */
  lemma ReplaySkipsExactly(store: map<int, Event>, log: seq<Event>, base: int, capacity: nat, projectID: string, afterID: int, k: nat,
                           answer: seq<Event>, r: seq<Event>)
    requires 0 < k && Complete(store, log, base) && OldestStored(store, projectID, afterID, k, answer)
    requires SinceAnswer(LastOf(log, capacity), projectID, afterID, k, Some(answer), r)
    ensures var wanted := StoredAfter(store, projectID, afterID);
            Skips(wanted, Ids(r)) <==>
              && |wanted| > k
              && (exists id :: id in wanted && id in Ids(LastOf(log, capacity)))
              && (exists id :: id in wanted && id !in Ids(LastOf(log, capacity)))
  {
    var wanted, ring := StoredAfter(store, projectID, afterID), RetainedAfter(LastOf(log, capacity), projectID, afterID);
    RingIsUpperPart(store, log, base, capacity, projectID, afterID);
    var memory := SentIds(store, LastOf(log, capacity), projectID, afterID, k, answer, r);
    SkipsOfComplete(wanted, ring, k, Ids(answer), memory, Ids(r));
    RetainedOrNot(log, base, capacity, wanted, ring);
  }

  lemma JustOne(e: Event)
    ensures OfProject([e], "") == [e] && Index([e]) == map[e.id := e]
    ensures 0 < e.id ==> FirstOf(After([e], 0), 1) == [e]
  {
    AllOfProject([e], "");
    assert [e][..0] == [] && Index([]) == map[];
    if 0 < e.id { AfterAll([e], 0); }
  }

  lemma SecondIsNewest(both: map<int, Event>, one: Event, two: Event, r: seq<Event>)
    requires one.id == 1 && two.id == 2 && both.Keys == {1, 2} && both[1] == one && both[2] == two && Newest(both, 1, r)
    ensures r == [two]
  {
    NewestIds(both, 1, r);
    AsManyIds(r);
    assert |both.Keys| == 2;
    assert r[0].id in Ids(r);
  }

  lemma OnlyTheSecond(one: Event, two: Event, r: seq<Event>)
    requires one.id == 1 && two.id == 2 && SinceAnswer([two], "", 0, 1, Some([one]), r)
    ensures r == [two] && Skips(StoredAfter(map[1 := one, 2 := two], "", 0), Ids(r))
  {
    JustOne(one);
    JustOne(two);
    SecondIsNewest(map[1 := one] + map[2 := two], one, two, r);
    assert r[0].id in Ids(r) && 1 in StoredAfter(map[1 := one, 2 := two], "", 0);
  }

  lemma OldestOfTwo(one: Event, two: Event)
    requires one.id == 1 && two.id == 2
    ensures OldestStored(map[1 := one, 2 := two], "", 0, 1, [one])
  {
    assert StoredAfter(map[1 := one, 2 := two], "", 0) == {1, 2};
    assert [one][0].id in Ids([one]) && Ids([one]) == {1} && |{1}| == 1;
  }

  lemma CompleteOfTwo(one: Event, two: Event)
    requires one.id == 1 && two.id == 2
    ensures Complete(map[1 := one, 2 := two], [one, two], 0)
  {
    var store, log := map[1 := one, 2 := two], [one, two];
    assert |log| == 2 && log[0] == one && log[1] == two && store[1] == one && store[2] == two && store.Keys == {1, 2};
  }

  /** What a reader who has seen nothing is sent, when only the second of two events is still in the ring. */
  method SinceOfTwo(recorder: Recorder, one: Event, two: Event) returns (r: seq<Event>)
    requires recorder.Valid() && recorder.capacity == 1 && recorder.events == [two] && one.id == 1 && two.id == 2
    ensures r == [two] && Skips(StoredAfter(map[1 := one, 2 := two], "", 0), Ids(r))
  {
    r := recorder.Since("", 0, 1, Some([one]));
    OnlyTheSecond(one, two, r);
  }

  method RecordTwo(first: Event, second: Event) returns (recorder: Recorder)
    ensures fresh(recorder) && recorder.Valid() && recorder.capacity == 1
    ensures recorder.log == [first.(id := 1), second.(id := 2)] && recorder.events == [second.(id := 2)]
    ensures recorder.store == map[1 := first.(id := 1), 2 := second.(id := 2)]
  {
    recorder := new Recorder(1, map[], None);
    var one := recorder.Record(first, Some(first.(id := 1)));
    var two := recorder.Record(second, Some(second.(id := 2)));
    assert recorder.log == [one, two];
  }

  /** It happens: two events, a ring for one, a store that has both, and a reader who has seen neither gets the second only. */
  method ReplayThatSkips(first: Event, second: Event) returns (recorder: Recorder, r: seq<Event>)
    ensures fresh(recorder) && recorder.Valid() && recorder.log == [first.(id := 1), second.(id := 2)]
    ensures Complete(recorder.store, recorder.log, 0) && OldestStored(recorder.store, "", 0, 1, [first.(id := 1)])
    ensures r == [second.(id := 2)] && Skips(StoredAfter(recorder.store, "", 0), Ids(r))
  {
    recorder := RecordTwo(first, second);
    OldestOfTwo(first.(id := 1), second.(id := 2));
    CompleteOfTwo(first.(id := 1), second.(id := 2));
    r := SinceOfTwo(recorder, first.(id := 1), second.(id := 2));
  }
}
