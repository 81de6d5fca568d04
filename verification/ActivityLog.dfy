/** Logs of activity events: what is selected from them, and what the newest of two of them are. */
module ActivityLog {
  /** An event, reduced to the fields its selection depends on; `body` stands for the others. */
  datatype Event = Event(id: int, projectID: string, body: string)

  predicate Matches(e: Event, projectID: string) {
    projectID == "" || e.projectID == projectID
  }

  predicate Ascending(s: seq<Event>) {
    forall i, j :: 0 <= i < j < |s| ==> s[i].id < s[j].id
  }

  function OfProject(s: seq<Event>, projectID: string): seq<Event> {
    if s == [] then [] else OfProject(s[..|s| - 1], projectID) + if Matches(s[|s| - 1], projectID) then [s[|s| - 1]] else []
  }

  function After(s: seq<Event>, id: int): seq<Event> {
    if s == [] then [] else After(s[..|s| - 1], id) + if s[|s| - 1].id > id then [s[|s| - 1]] else []
  }

  function FirstOf<T>(s: seq<T>, n: nat): seq<T> {
    if |s| <= n then s else s[..n]
  }

  function LastOf<T>(s: seq<T>, n: nat): seq<T> {
    if |s| <= n then s else s[|s| - n..]
  }

  lemma {:induction false} OfProjectConcat(a: seq<Event>, b: seq<Event>, projectID: string)
    ensures OfProject(a + b, projectID) == OfProject(a, projectID) + OfProject(b, projectID)
    decreases |b|
  {
    if b == [] {
      assert a + b == a;
    } else {
      var n := |b| - 1;
      OfProjectConcat(a, b[..n], projectID);
      assert (a + b)[..|a + b| - 1] == a + b[..n];
    }
  }

  lemma AscendingAppend(s: seq<Event>, t: seq<Event>, e: Event)
    requires Ascending(s + [e]) && Ascending(t) && forall x :: x in t ==> x in s
    ensures Ascending(t + [e])
  {
    forall x | x in s ensures x.id < e.id {
      var i :| 0 <= i < |s| && s[i] == x;
      assert (s + [e])[i] == x && (s + [e])[|s|] == e;
    }
  }

  /** The events selected are those that match, in the order of the log. */
  lemma {:induction false} OfProjectIs(s: seq<Event>, projectID: string)
    ensures forall e :: e in OfProject(s, projectID) <==> e in s && Matches(e, projectID)
    ensures |OfProject(s, projectID)| <= |s|
    ensures Ascending(s) ==> Ascending(OfProject(s, projectID))
    decreases |s|
  {
    if s != [] {
      var n := |s| - 1;
      OfProjectIs(s[..n], projectID);
      assert s == s[..n] + [s[n]];
      if Ascending(s) { AscendingAppend(s[..n], OfProject(s[..n], projectID), s[n]); }
    }
  }

  lemma {:induction false} AfterNone(s: seq<Event>, id: int)
    requires forall i :: 0 <= i < |s| ==> s[i].id <= id
    ensures After(s, id) == []
    decreases |s|
  {
    if s != [] { AfterNone(s[..|s| - 1], id); }
  }

  lemma {:induction false} AfterAll(s: seq<Event>, id: int)
    requires forall i :: 0 <= i < |s| ==> s[i].id > id
    ensures After(s, id) == s
    decreases |s|
  {
    if s != [] { AfterAll(s[..|s| - 1], id); }
  }

  lemma {:induction false} AfterConcat(a: seq<Event>, b: seq<Event>, id: int)
    ensures After(a + b, id) == After(a, id) + After(b, id)
    decreases |b|
  {
    if b == [] {
      assert a + b == a;
    } else {
      AfterConcat(a, b[..|b| - 1], id);
      assert (a + b)[..|a + b| - 1] == a + b[..|b| - 1];
    }
  }

  lemma AfterSplit(a: seq<Event>, b: seq<Event>, id: int)
    requires forall i :: 0 <= i < |a| ==> a[i].id <= id
    requires forall i :: 0 <= i < |b| ==> b[i].id > id
    ensures After(a + b, id) == b
  {
    AfterNone(a, id);
    AfterAll(b, id);
    AfterConcat(a, b, id);
  }

  /** In an ascending log, what comes after a cursor is a suffix. */
  lemma AfterIsSuffix(s: seq<Event>, id: int) returns (j: nat)
    requires Ascending(s)
    ensures j <= |s| && After(s, id) == s[j..]
    ensures forall i :: 0 <= i < |s| ==> (s[i].id > id <==> j <= i)
  {
    j := 0;
    while j < |s| && s[j].id <= id
      invariant j <= |s| && forall i :: 0 <= i < j ==> s[i].id <= id
    {
      j := j + 1;
    }
    var a, b := s[..j], s[j..];
    assert s == a + b;
    AfterSplit(a, b, id);
  }

  /** Moving the cursor to the end of a batch takes away exactly the batch. */
  lemma AfterBatch(s: seq<Event>, id: int, k: nat, last: int)
    requires Ascending(s) && 0 < k <= |After(s, id)| && last == After(s, id)[k - 1].id
    ensures After(s, last) == After(s, id)[k..]
  {
    var j := AfterIsSuffix(s, id);
    var i := AfterIsSuffix(s, last);
    assert After(s, id)[k - 1] == s[j + k - 1];
    assert !(s[j + k - 1].id > last);
    if j + k < |s| { assert s[j + k].id > s[j + k - 1].id; }
    assert s[j..][k..] == s[j + k..];
  }

  lemma IndexOf(s: seq<Event>, e: Event) returns (j: nat)
    requires e in s
    ensures j < |s| && s[j] == e
  {
    j :| 0 <= j < |s| && s[j] == e;
  }

  // ------------------------------------------------------------- the newest events

  /** Every event is filed under its own ID. */
  ghost predicate Keyed(m: map<int, Event>) {
    forall id :: id in m ==> m[id].id == id
  }

  /** `r` holds the `k` newest events of `m`, oldest first; all of them, if there are no more than `k`. */
  ghost predicate Newest(m: map<int, Event>, k: nat, r: seq<Event>) {
    && Ascending(r) && |r| <= k
    && (forall i :: 0 <= i < |r| ==> r[i].id in m && m[r[i].id] == r[i])
    && (forall id :: id in m && m[id] !in r ==> |r| == k && forall i :: 0 <= i < |r| ==> id < r[i].id)
  }

  ghost function Ids(s: seq<Event>): set<int> {
    set i | 0 <= i < |s| :: s[i].id
  }

  lemma {:induction false} AsManyIds(s: seq<Event>)
    requires Ascending(s)
    ensures |Ids(s)| == |s|
    decreases |s|
  {
    if s != [] {
      var n := |s| - 1;
      AsManyIds(s[..n]);
      assert Ids(s) == Ids(s[..n]) + {s[n].id};
    }
  }

  lemma Fits(s: seq<Event>, t: seq<Event>)
    requires Ascending(s) && Ascending(t) && Ids(s) <= Ids(t)
    ensures |s| <= |t| && (|s| == |t| ==> Ids(s) == Ids(t))
  {
    AsManyIds(s);
    AsManyIds(t);
    SubsetIsSmaller(Ids(s), Ids(t));
  }

  lemma SubsetIsSmaller<T>(a: set<T>, b: set<T>)
    requires a <= b
    ensures |a| <= |b| && (|a| == |b| ==> a == b)
  {
    assert b == a + (b - a);
  }

  lemma OnlyInFirst<T>(a: set<T>, b: set<T>) returns (x: T)
    requires !(a <= b)
    ensures x in a && x !in b
  {
    x :| x in a && x !in b;
  }

  lemma StrictlyLarger<T>(a: set<T>, b: set<T>) returns (x: T)
    requires a <= b && |a| < |b|
    ensures x in b && x !in a
  {
    assert b == a + (b - a);
    x := SomeMember(b - a);
  }

  function Index(s: seq<Event>): map<int, Event> {
    if s == [] then map[] else Index(s[..|s| - 1])[s[|s| - 1].id := s[|s| - 1]]
  }

  lemma IdsAppend(s: seq<Event>, e: Event)
    ensures Ids(s + [e]) == Ids(s) + {e.id}
  {
    var t := s + [e];
    forall x | x in Ids(s) ensures x in Ids(t) {
      var i :| 0 <= i < |s| && s[i].id == x;
      assert t[i] == s[i];
    }
    assert t[|s|].id == e.id;
  }

  lemma {:induction false} IndexKeys(s: seq<Event>)
    ensures Keyed(Index(s)) && Index(s).Keys == Ids(s)
    decreases |s|
  {
    if s != [] {
      IndexKeys(s[..|s| - 1]);
      assert s == s[..|s| - 1] + [s[|s| - 1]];
      IdsAppend(s[..|s| - 1], s[|s| - 1]);
    }
  }

  lemma {:induction false} IndexMembers(s: seq<Event>)
    ensures forall id :: id in Index(s) ==> Index(s)[id] in s
    decreases |s|
  {
    if s != [] { IndexMembers(s[..|s| - 1]); }
  }

  lemma {:induction false} IndexFinds(s: seq<Event>, i: nat)
    requires Ascending(s) && i < |s|
    ensures s[i].id in Index(s) && Index(s)[s[i].id] == s[i]
    decreases |s|
  {
    var n := |s| - 1;
    if i < n { IndexFinds(s[..n], i); }
  }

  lemma IndexIs(s: seq<Event>)
    ensures Keyed(Index(s)) && Index(s).Keys == Ids(s)
    ensures Ascending(s) ==> forall i :: 0 <= i < |s| ==> s[i].id in Index(s) && Index(s)[s[i].id] == s[i]
    ensures forall id :: id in Index(s) ==> Index(s)[id] in s
  {
    IndexKeys(s);
    IndexMembers(s);
    if Ascending(s) {
      forall i | 0 <= i < |s| ensures s[i].id in Index(s) && Index(s)[s[i].id] == s[i] { IndexFinds(s, i); }
    }
  }

  lemma {:induction false} IndexConcat(a: seq<Event>, b: seq<Event>)
    ensures Index(a + b) == Index(a) + Index(b)
    decreases |b|
  {
    if b == [] {
      assert a + b == a;
    } else {
      IndexConcat(a, b[..|b| - 1]);
      assert (a + b)[..|a + b| - 1] == a + b[..|b| - 1];
    }
  }

  /** An event that `m`'s newest leave out is older than all of them. */
  lemma LeftOut(m: map<int, Event>, k: nat, r: seq<Event>, id: int)
    requires Newest(m, k, r) && Keyed(m) && id in m && id !in Ids(r)
    ensures |r| == k && forall i :: 0 <= i < |r| ==> id < r[i].id
  {
    forall i | 0 <= i < |r| ensures r[i] != m[id] { assert r[i].id in Ids(r); }
  }

  /** If `k` events of `m` are newer than `id`, so are all of the newest `k`. */
  lemma EnoughNewer(m: map<int, Event>, k: nat, r: seq<Event>, newer: seq<Event>, id: int)
    requires Newest(m, k, r) && Keyed(m) && Ascending(newer) && |newer| == k && Ids(newer) <= m.Keys
    requires forall i :: 0 <= i < |newer| ==> id < newer[i].id
    ensures |r| == k && forall i :: 0 <= i < |r| ==> id < r[i].id
  {
    if Ids(newer) <= Ids(r) {
      Fits(newer, r);
      forall j | 0 <= j < |r| ensures id < r[j].id {
        assert r[j].id in Ids(newer);
      }
    } else {
      var x := OnlyInFirst(Ids(newer), Ids(r));
      LeftOut(m, k, r, x);
    }
  }

  lemma SomeMember<T>(s: set<T>) returns (x: T)
    requires s != {}
    ensures x in s
  {
    assert |s| > 0;
    x :| x in s;
  }

  /** Filing the newest events by ID gives back a part of the log. */
  lemma IndexOfNewest(m: map<int, Event>, k: nat, r: seq<Event>)
    requires Newest(m, k, r)
    ensures Keyed(Index(r)) && Index(r).Keys == Ids(r) <= m.Keys
    ensures forall id :: id in Index(r) ==> Index(r)[id] == m[id]
  {
    IndexKeys(r);
    IndexMembers(r);
    forall id | id in Index(r) ensures id in m && Index(r)[id] == m[id] {
      var i := IndexOf(r, Index(r)[id]);
    }
  }

  /** An event of the union that is not among the merged ones is older than `k` of those. */
  lemma LeftOutOfMerged(a: map<int, Event>, b: map<int, Event>, k: nat, ra: seq<Event>, rb: seq<Event>, r: seq<Event>, id: int)
    requires Keyed(a) && Keyed(b) && id in a + b
    requires Newest(a, k, ra) && Newest(b, k, rb) && Newest(Index(ra) + Index(rb), k, r)
    requires if id in b then id !in Ids(rb) else id !in Ids(ra)
    ensures |r| == k && forall i :: 0 <= i < |r| ==> id < r[i].id
  {
    IndexOfNewest(a, k, ra);
    IndexOfNewest(b, k, rb);
    if id in b {
      LeftOut(b, k, rb, id);
      EnoughNewer(Index(ra) + Index(rb), k, r, rb, id);
    } else {
      LeftOut(a, k, ra, id);
      EnoughNewer(Index(ra) + Index(rb), k, r, ra, id);
    }
  }

  /** What is among the merged ones is the union's own event. */
  lemma MergedIsOwn(a: map<int, Event>, b: map<int, Event>, k: nat, ra: seq<Event>, rb: seq<Event>, r: seq<Event>, i: nat)
    requires Keyed(a) && Keyed(b) && i < |r|
    requires Newest(a, k, ra) && Newest(b, k, rb) && Newest(Index(ra) + Index(rb), k, r)
    ensures r[i].id in a + b && (a + b)[r[i].id] == r[i]
  {
    var id := r[i].id;
    IndexOfNewest(a, k, ra);
    IndexOfNewest(b, k, rb);
    assert (Index(ra) + Index(rb))[id] == r[i];
    if id in b && id !in Ids(rb) { LeftOutOfMerged(a, b, k, ra, rb, r, id); }
  }

  lemma MissingIsOlder(a: map<int, Event>, b: map<int, Event>, k: nat, ra: seq<Event>, rb: seq<Event>, r: seq<Event>, id: int)
    requires Keyed(a) && Keyed(b) && id in a + b && (a + b)[id] !in r
    requires Newest(a, k, ra) && Newest(b, k, rb) && Newest(Index(ra) + Index(rb), k, r)
    ensures |r| == k && forall i :: 0 <= i < |r| ==> id < r[i].id
  {
    if (if id in b then id !in Ids(rb) else id !in Ids(ra)) {
      LeftOutOfMerged(a, b, k, ra, rb, r, id);
    } else {
      IndexOfNewest(a, k, ra);
      IndexOfNewest(b, k, rb);
      var m := Index(ra) + Index(rb);
      assert id in m && m[id] == (a + b)[id];
    }
  }

  /**
    * Merging the newest of two logs gives the newest of both, where `b` takes precedence; the two need
    * not agree on the events they share.
    */
  lemma NewestOfMerged(a: map<int, Event>, b: map<int, Event>, k: nat, ra: seq<Event>, rb: seq<Event>, r: seq<Event>)
    requires Keyed(a) && Keyed(b)
    requires Newest(a, k, ra) && Newest(b, k, rb) && Newest(Index(ra) + Index(rb), k, r)
    ensures Newest(a + b, k, r)
  {
    forall i | 0 <= i < |r| ensures r[i].id in a + b && (a + b)[r[i].id] == r[i] {
      MergedIsOwn(a, b, k, ra, rb, r, i);
    }
    forall id | id in a + b && (a + b)[id] !in r ensures |r| == k && forall i :: 0 <= i < |r| ==> id < r[i].id {
      MissingIsOlder(a, b, k, ra, rb, r, id);
    }
  }

  lemma NewestIsUnique(m: map<int, Event>, k: nat, r: seq<Event>, t: seq<Event>)
    requires Keyed(m) && Newest(m, k, r) && Newest(m, k, t)
    ensures Ids(r) == Ids(t)
  {
    forall x | x in Ids(r) ensures x in Ids(t) {
      if x !in Ids(t) { LeftOut(m, k, t, x); EnoughNewer(m, k, r, t, x); }
    }
    forall x | x in Ids(t) ensures x in Ids(r) {
      if x !in Ids(r) { LeftOut(m, k, r, x); EnoughNewer(m, k, t, r, x); }
    }
  }

  lemma SuffixIsNewest(a: seq<Event>, r: seq<Event>, k: nat)
    requires Ascending(a + r) && |r| <= k && (a != [] ==> |r| == k)
    ensures Newest(Index(a + r), k, r)
  {
    var s := a + r;
    IndexIs(s);
    forall i | 0 <= i < |r| ensures r[i] == s[|a| + i] {
    }
    forall id | id in Index(s) && Index(s)[id] !in r ensures |r| == k && forall i :: 0 <= i < |r| ==> id < r[i].id {
      var e := Index(s)[id];
      assert e in a;
      var j :| 0 <= j < |a| && a[j] == e;
      assert s[j] == e;
    }
  }

  /** The end of an ascending log is the newest of it. */
  lemma LastAreNewest(s: seq<Event>, k: nat)
    requires Ascending(s)
    ensures Newest(Index(s), k, LastOf(s, k))
  {
    var r := LastOf(s, k);
    var a := s[..|s| - |r|];
    assert s == a + r;
    SuffixIsNewest(a, r, k);
  }
}
