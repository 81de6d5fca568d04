/** The whole replay loop over a cursor store that has kept the log: what it writes, and what it passes over for good. */
module ActivityFlush {
  import opened Wrappers
  import opened ActivityLog
  import opened ActivityRecorder
  import opened ActivityReplay

  // ------------------------------------------------------------------- one batch, as sets of IDs

  ghost function Above(w: set<int>, c: int): set<int> {
    set x | x in w && x > c
  }

  /** No batch passes over anything: all fits in one, or the ring has lost all that is wanted, or none of it. */
  ghost predicate Whole(w: set<int>, r: set<int>, k: nat) {
    |w| <= k || r == {} || r == w
  }

  lemma AllAreFirst(w: set<int>, k: nat, a: set<int>)
    requires FirstIds(w, k, a) && |w| <= k
    ensures a == w
  {
    SubsetIsSmaller(a, w);
  }

  lemma AllAreLast(w: set<int>, k: nat, b: set<int>)
    requires LastIds(w, k, b) && |w| <= k
    ensures b == w
  {
    SubsetIsSmaller(b, w);
  }

  /** Then the batch is the first of what is wanted. */
  lemma WholeTurn(w: set<int>, r: set<int>, k: nat, a: set<int>, m: set<int>, sent: set<int>)
    requires 0 < k && FirstIds(w, k, a) && FirstIds(r, k, m) && LastIds(a + m, k, sent) && r <= w && Whole(w, r, k)
    ensures FirstIds(w, k, sent)
  {
    if |w| <= k {
      AllAreFirst(w, k, a);
      assert a + m == a;
    } else if r == {} {
      assert a + m == a;
    } else {
      SameFirst(w, k, a, m);
      assert a + m == a;
    }
    AllAreLast(a, k, sent);
  }

  lemma SameLast(w: set<int>, k: nat, a: set<int>, b: set<int>)
    requires LastIds(w, k, a) && LastIds(w, k, b)
    ensures a == b
  {
    SubsetIsSmaller(a, w);
    SubsetIsSmaller(b, w);
    if !(a <= b) {
      var x := OnlyInFirst(a, b);
      forall y | y in b ensures y in a {}
      SubsetIsSmaller(b, a);
    } else {
      SubsetIsSmaller(a, b);
    }
  }

  /** A batch's worth of retained events is all that the first of the retained ones are. */
  lemma FullRingTurn(w: set<int>, bound: int, k: nat, a: set<int>, m: set<int>, sent: set<int>)
    requires 0 < k && FirstIds(w, k, a) && FirstIds(Above(w, bound), k, m) && LastIds(a + m, k, sent)
    requires Above(w, bound) != w && |Above(w, bound)| >= k
    ensures sent == m
  {
    SubsetIsSmaller(m, Above(w, bound));
    assert |m| == k;
    forall x, y | x in a + m && x !in m && y in m ensures x < y {
      if x > bound { TooFewForBoth(w, bound, k, a, m, x); }
    }
    SameLast(a + m, k, sent, m);
  }

  /** The first `k` of all hold no retained event beyond the first `k` retained ones. */
  lemma TooFewForBoth(w: set<int>, bound: int, k: nat, a: set<int>, m: set<int>, x: int)
    requires FirstIds(w, k, a) && FirstIds(Above(w, bound), k, m) && |m| == k && x in Above(w, bound) && x !in m
    ensures x !in a
  {
    if x in a {
      assert m <= a - {x};
      SubsetIsSmaller(m, a - {x});
    }
  }

  /** What a batch adds to a ring that does not fill it: the newest of the oldest events that the ring has lost. */
  ghost predicate FromLost(w: set<int>, r: set<int>, k: nat, b: set<int>) {
    exists a :: FirstIds(w - r, k, a) && LastIds(a, if |r| < k then k - |r| else 0, b)
  }

  lemma LostFirst(w: set<int>, bound: int, k: nat, a: set<int>)
    requires FirstIds(w, k, a)
    ensures FirstIds(w - Above(w, bound), k, a - Above(w, bound))
  {
    var r := Above(w, bound);
    SubsetIsSmaller(a - r, a);
    if a - r != w - r {
      assert w - r <= a - r ==> a - r == w - r;
      var z := OnlyInFirst(w - r, a - r);
      forall x | x in a ensures x in a - r { assert z in w && z !in a && x < z; }
      assert a - r == a;
    }
  }

  /** A ring that does not fill a batch is sent whole, after the newest of what the store adds. */
  lemma ShortRingTurn(w: set<int>, bound: int, k: nat, a: set<int>, sent: set<int>)
    requires FirstIds(w, k, a) && LastIds(a + Above(w, bound), k, sent) && |Above(w, bound)| < k && |sent| == k
    ensures Above(w, bound) <= sent && FromLost(w, Above(w, bound), k, sent - Above(w, bound))
  {
    var r := Above(w, bound);
    assert sent <= r ==> |sent| <= |r| by { if sent <= r { SubsetIsSmaller(sent, r); } }
    var y := OnlyInFirst(sent, r);
    forall x | x in r ensures x in sent { assert y < x; }
    LostFirst(w, bound, k, a);
    var lost, b := a - r, sent - r;
    assert sent == b + r && b !! r && |b| == k - |r|;
    assert LastIds(lost, k - |r|, b) by {
      forall u, v | u in lost && u !in b && v in b ensures u < v {}
    }
  }

  /** The one batch that passes over something sends the retained events, as many as fit, and then the others lie ahead. */
  lemma SkippingTurn(w: set<int>, bound: int, k: nat, a: set<int>, m: set<int>, sent: set<int>)
    requires 0 < k && FirstIds(w, k, a) && FirstIds(Above(w, bound), k, m) && LastIds(a + m, k, sent)
    requires !Whole(w, Above(w, bound), k)
    ensures |sent| == k
    ensures |Above(w, bound)| >= k ==> sent == m
    ensures |Above(w, bound)| < k ==> Above(w, bound) <= sent && FromLost(w, Above(w, bound), k, sent - Above(w, bound))
  {
    var r := Above(w, bound);
    TooManyExactly(w, r, k, a, m);
    if |r| >= k {
      FullRingTurn(w, bound, k, a, m, sent);
      SubsetIsSmaller(m, r);
    } else {
      AllAreFirst(r, k, m);
      ShortRingTurn(w, bound, k, a, sent);
    }
  }

  // ---------------------------------------------------------------- the loop, as sets of IDs

  ghost predicate IsGreatest(s: set<int>, c: int) {
    c in s && forall x :: x in s ==> x <= c
  }

  /** Nothing has been passed over, and nothing will be. */
  ghost predicate InFull(all: set<int>, bound: int, k: nat, done: set<int>, w: set<int>) {
    Whole(all, Above(all, bound), k) && Whole(w, Above(w, bound), k) && w <= all && done == all - w
  }

  /** Something has been passed over, for `b`; all that is ahead has been retained. */
  ghost predicate InRing(all: set<int>, bound: int, k: nat, done: set<int>, w: set<int>, b: set<int>) {
    var ring := Above(all, bound);
    !Whole(all, ring, k) && FromLost(all, ring, k, b) && Above(w, bound) == w <= ring && done == (ring - w) + b
  }

  /** Of `all` the loop has written `done`, with `w` still ahead of the cursor. */
  ghost predicate Flushing(all: set<int>, bound: int, k: nat, done: set<int>, w: set<int>) {
    || InFull(all, bound, k, done, w)
    || (!Whole(all, Above(all, bound), k) && done == {} && w == all)
    || exists b :: InRing(all, bound, k, done, w, b)
  }

  lemma WholeMoves(w: set<int>, bound: int, k: nat, sent: set<int>, c: int)
    requires FirstIds(w, k, sent) && IsGreatest(sent, c)
    ensures Above(w, c) == w - sent
    ensures Whole(w, Above(w, bound), k) ==> Whole(w - sent, Above(w - sent, bound), k)
  {
    SubsetIsSmaller(w - sent, w);
  }

  lemma NoneFromLost(w: set<int>, bound: int, k: nat, a: set<int>)
    requires FirstIds(w, k, a) && |Above(w, bound)| >= k
    ensures FromLost(w, Above(w, bound), k, {})
  {
    LostFirst(w, bound, k, a);
    assert LastIds(a - Above(w, bound), 0, {});
  }

  lemma FullRingMoves(w: set<int>, bound: int, k: nat, m: set<int>, c: int)
    requires FirstIds(Above(w, bound), k, m) && IsGreatest(m, c)
    ensures var next := Above(w, c); Above(next, bound) == next && m == Above(w, bound) - next
  {
    assert c > bound;
  }

  lemma ShortRingMoves(w: set<int>, bound: int, sent: set<int>, c: int)
    requires Above(w, bound) != {} && Above(w, bound) <= sent && IsGreatest(sent, c)
    ensures Above(w, c) == {}
  {
    var y := SomeMember(Above(w, bound));
    forall x | x in w ensures x <= c {
      if x > bound { assert x in Above(w, bound); } else { assert x < y <= c; }
    }
  }

  lemma SkippingFull(all: set<int>, bound: int, k: nat, a: set<int>, m: set<int>, c: int)
    requires FirstIds(all, k, a) && FirstIds(Above(all, bound), k, m) && IsGreatest(m, c)
    requires !Whole(all, Above(all, bound), k) && |Above(all, bound)| >= k
    ensures InRing(all, bound, k, m, Above(all, c), {})
  {
    FullRingMoves(all, bound, k, m, c);
    NoneFromLost(all, bound, k, a);
    assert m == (Above(all, bound) - Above(all, c)) + {};
  }

  lemma SkippingShort(all: set<int>, bound: int, k: nat, sent: set<int>, c: int)
    requires Above(all, bound) <= sent && FromLost(all, Above(all, bound), k, sent - Above(all, bound)) && IsGreatest(sent, c)
    requires !Whole(all, Above(all, bound), k)
    ensures InRing(all, bound, k, sent, Above(all, c), sent - Above(all, bound))
  {
    ShortRingMoves(all, bound, sent, c);
    assert sent == (Above(all, bound) - {}) + (sent - Above(all, bound));
  }

  /** The batch that passes over something; afterwards only retained events are ahead. */
  lemma SkippingMoves(all: set<int>, bound: int, k: nat, a: set<int>, m: set<int>, sent: set<int>, c: int) returns (b: set<int>)
    requires 0 < k && FirstIds(all, k, a) && FirstIds(Above(all, bound), k, m) && LastIds(a + m, k, sent) && IsGreatest(sent, c)
    requires !Whole(all, Above(all, bound), k)
    ensures InRing(all, bound, k, sent, Above(all, c), b)
  {
    SkippingTurn(all, bound, k, a, m, sent);
    if |Above(all, bound)| >= k {
      SkippingFull(all, bound, k, a, m, c);
      b := {};
    } else {
      SkippingShort(all, bound, k, sent, c);
      b := sent - Above(all, bound);
    }
  }

  lemma FullMoves(all: set<int>, bound: int, k: nat, done: set<int>, w: set<int>, sent: set<int>, c: int)
    requires InFull(all, bound, k, done, w) && FirstIds(w, k, sent) && IsGreatest(sent, c)
    ensures InFull(all, bound, k, done + sent, Above(w, c))
  {
    WholeMoves(w, bound, k, sent, c);
    assert done + sent == all - (w - sent);
  }

  lemma RingMoves(all: set<int>, bound: int, k: nat, done: set<int>, w: set<int>, b: set<int>, sent: set<int>, c: int)
    requires InRing(all, bound, k, done, w, b) && FirstIds(w, k, sent) && IsGreatest(sent, c)
    ensures InRing(all, bound, k, done + sent, Above(w, c), b)
  {
    WholeMoves(w, bound, k, sent, c);
    MoreWritten(Above(all, bound), w, b, sent);
    StillAbove(w, bound, sent);
  }

  lemma MoreWritten(ring: set<int>, w: set<int>, b: set<int>, sent: set<int>)
    requires sent <= w <= ring
    ensures (ring - w) + b + sent == (ring - (w - sent)) + b
  {
  }

  lemma StillAbove(w: set<int>, bound: int, sent: set<int>)
    requires Above(w, bound) == w
    ensures Above(w - sent, bound) == w - sent
  {
    forall x | x in w - sent ensures x > bound { assert x in Above(w, bound); }
  }

  lemma FlushTurn(all: set<int>, bound: int, k: nat, done: set<int>, w: set<int>, a: set<int>, m: set<int>, sent: set<int>, c: int)
    requires Flushing(all, bound, k, done, w)
    requires 0 < k && FirstIds(w, k, a) && FirstIds(Above(w, bound), k, m) && LastIds(a + m, k, sent) && IsGreatest(sent, c)
    ensures Flushing(all, bound, k, done + sent, Above(w, c))
  {
    if InFull(all, bound, k, done, w) {
      WholeTurn(w, Above(w, bound), k, a, m, sent);
      FullMoves(all, bound, k, done, w, sent, c);
    } else if b :| InRing(all, bound, k, done, w, b) {
      WholeTurn(w, Above(w, bound), k, a, m, sent);
      RingMoves(all, bound, k, done, w, b, sent, c);
    } else {
      var b := SkippingMoves(all, bound, k, a, m, sent, c);
      assert done + sent == sent;
    }
  }

  /** A batch that is not full is the last. */
  lemma ShortTurnEnds(w: set<int>, bound: int, k: nat, a: set<int>, m: set<int>, sent: set<int>)
    requires 0 < k && FirstIds(w, k, a) && FirstIds(Above(w, bound), k, m) && LastIds(a + m, k, sent) && |sent| < k
    ensures sent == w
  {
    if Whole(w, Above(w, bound), k) {
      WholeTurn(w, Above(w, bound), k, a, m, sent);
    } else {
      SkippingTurn(w, bound, k, a, m, sent);
    }
  }

  /** What the loop has written in the end. A ring smaller than the replay limit ends it after one batch. */
  ghost predicate Flushed(all: set<int>, ring: set<int>, capacity: nat, done: set<int>) {
    var k := Effective(MAX_REPLAY_BATCH, capacity);
    if !Whole(all, ring, k) then exists b :: FromLost(all, ring, k, b) && done == ring + b
    else if capacity >= MAX_REPLAY_BATCH then done == all
    else FirstIds(all, k, done)
  }

  lemma FlushedInFull(all: set<int>, bound: int, capacity: nat, done: set<int>)
    requires capacity >= MAX_REPLAY_BATCH && Flushing(all, bound, MAX_REPLAY_BATCH, done, {})
    ensures Flushed(all, Above(all, bound), capacity, done)
  {
    var ring := Above(all, bound);
    if b :| InRing(all, bound, MAX_REPLAY_BATCH, done, {}, b) {
      assert ring - {} == ring;
    } else {
      assert |all| > MAX_REPLAY_BATCH ==> all != {};
    }
  }

  lemma FlushedInOne(all: set<int>, bound: int, capacity: nat, a: set<int>, m: set<int>, sent: set<int>)
    requires 0 < capacity < MAX_REPLAY_BATCH && |Above(all, bound)| <= capacity
    requires FirstIds(all, capacity, a) && FirstIds(Above(all, bound), capacity, m) && LastIds(a + m, capacity, sent)
    ensures Flushed(all, Above(all, bound), capacity, sent)
  {
    var ring := Above(all, bound);
    if Whole(all, ring, capacity) {
      WholeTurn(all, ring, capacity, a, m, sent);
    } else {
      SkippingTurn(all, bound, capacity, a, m, sent);
      if |ring| == capacity {
        AllAreFirst(ring, capacity, m);
        NoneFromLost(all, bound, capacity, a);
        assert sent == ring + {};
      } else {
        assert sent == ring + (sent - ring);
      }
    }
  }

  /** Nothing wanted stays unwritten exactly when nothing is passed over, and a small ring's one batch has room for all. */
  lemma MissesNothingExactly(all: set<int>, ring: set<int>, capacity: nat, done: set<int>)
    requires ring <= all && Flushed(all, ring, capacity, done)
    ensures done == all <==> if capacity >= MAX_REPLAY_BATCH then Whole(all, ring, MAX_REPLAY_BATCH) else |all| <= capacity
  {
    var k := Effective(MAX_REPLAY_BATCH, capacity);
    if Whole(all, ring, k) {
      if capacity < MAX_REPLAY_BATCH && |all| <= k { AllAreFirst(all, k, done); }
    } else {
      var b :| FromLost(all, ring, k, b) && done == ring + b;
      if |ring| < k { assert |ring + b| <= |ring| + |b| by { SumIsLarger(ring, b); } }
    }
  }

  lemma SumIsLarger<T>(a: set<T>, b: set<T>)
    ensures |a + b| <= |a| + |b|
  {
    assert a + b == a + (b - a);
    SubsetIsSmaller(b - a, b);
  }

  /** What is passed over lies behind the retained events that are written, so it is never asked for again. */
  lemma MissedIsPassed(all: set<int>, bound: int, capacity: nat, done: set<int>, x: int, c: int)
    requires Flushed(all, Above(all, bound), capacity, done) && x in all && x !in done && IsGreatest(done, c)
    requires !Whole(all, Above(all, bound), Effective(MAX_REPLAY_BATCH, capacity))
    ensures x < c
  {
    var y := SomeMember(Above(all, bound));
    assert y in done && x <= bound < y;
  }

  // ------------------------------------------------------------------------------ the loop

  /** The cursor store's query: matching events above the cursor, by ID, as many as asked for. */
  method QueryStore(store: map<int, Event>, projectID: string, afterID: int, limit: nat) returns (answer: seq<Event>)
    requires Keyed(store)
    ensures OldestStored(store, projectID, afterID, limit, answer)
  {
    var wanted := map id | id in store && Matches(store[id], projectID) && id > afterID :: store[id];
    var all := SortByID(wanted);
    assert Ids(all) == StoredAfter(store, projectID, afterID);
    FirstOfIds(all, limit);
    answer := if |all| <= limit then all else all[..limit];
    forall i | 0 <= i < |answer| ensures Matches(answer[i], projectID) { assert answer[i] == all[i]; }
  }

  /** The greatest ID that the ring no longer holds. */
  ghost function LostUpTo(log: seq<Event>, base: int, capacity: nat): int {
    base + |log| - |LastOf(log, capacity)|
  }

  lemma RingAbove(store: map<int, Event>, log: seq<Event>, base: int, capacity: nat, projectID: string, afterID: int)
    requires Complete(store, log, base)
    ensures RetainedAfter(LastOf(log, capacity), projectID, afterID)
            == Above(StoredAfter(store, projectID, afterID), LostUpTo(log, base, capacity))
  {
    RingIsUpperPart(store, log, base, capacity, projectID, afterID);
  }

  lemma RingFits(log: seq<Event>, capacity: nat, projectID: string, afterID: int)
    requires Ascending(LastOf(log, capacity))
    ensures |RetainedAfter(LastOf(log, capacity), projectID, afterID)| <= capacity
  {
    var own := OfProject(LastOf(log, capacity), projectID);
    OfProjectIs(LastOf(log, capacity), projectID);
    var j := AfterIsSuffix(own, afterID);
    AsManyIds(own[j..]);
  }

  lemma AboveCursor(store: map<int, Event>, projectID: string, c: int, d: int)
    requires c <= d
    ensures Above(StoredAfter(store, projectID, c), d) == StoredAfter(store, projectID, d)
  {
  }

  /** What one turn contributes: the first of what lies ahead in the store, and in the ring, and the newest of both. */
  ghost predicate Turn(w: set<int>, bound: int, k: nat, a: set<int>, m: set<int>, sent: set<int>) {
    0 < k && FirstIds(w, k, a) && FirstIds(Above(w, bound), k, m) && LastIds(a + m, k, sent)
  }

  /** One answer of Since with the store behind it. */
  method SinceStored(recorder: Recorder, projectID: string, cursor: int) returns (batch: seq<Event>, ghost a: set<int>, ghost m: set<int>)
    requires recorder.Valid() && Complete(recorder.store, recorder.log, recorder.base) && 0 <= cursor
    ensures Ascending(batch)
    ensures Turn(StoredAfter(recorder.store, projectID, cursor), LostUpTo(recorder.log, recorder.base, recorder.capacity),
                 Effective(MAX_REPLAY_BATCH, recorder.capacity), a, m, Ids(batch))
  {
    var limit := if MAX_REPLAY_BATCH > recorder.capacity then recorder.capacity else MAX_REPLAY_BATCH;
    var answer := QueryStore(recorder.store, projectID, cursor, limit);
    batch := recorder.Since(projectID, cursor, MAX_REPLAY_BATCH, Some(answer));
    recorder.RingIsContiguous();
    RingAbove(recorder.store, recorder.log, recorder.base, recorder.capacity, projectID, cursor);
    a := Ids(answer);
    m := SentIds(recorder.store, recorder.events, projectID, cursor, limit, answer, batch);
  }

  lemma BatchIsAhead(w: set<int>, cursor: int, bound: int, k: nat, a: set<int>, m: set<int>, batch: seq<Event>)
    requires Ascending(batch) && Turn(w, bound, k, a, m, Ids(batch)) && forall x :: x in w ==> x > cursor
    ensures Ids(batch) <= w && |Ids(batch)| == |batch|
    ensures forall i :: 0 <= i < |batch| ==> batch[i].id > cursor
    ensures batch != [] ==> IsGreatest(Ids(batch), batch[|batch| - 1].id)
  {
    AsManyIds(batch);
    forall i | 0 <= i < |batch| ensures batch[i].id > cursor { assert batch[i].id in Ids(batch); }
    if batch != [] { assert batch[|batch| - 1].id in Ids(batch); }
  }

  lemma WrittenIds(written: seq<Event>, batch: seq<Event>, cursor: int)
    requires Ascending(written) && Ascending(batch)
    requires forall i :: 0 <= i < |written| ==> written[i].id <= cursor
    requires forall i :: 0 <= i < |batch| ==> batch[i].id > cursor
    ensures Ascending(written + batch) && Ids(written + batch) == Ids(written) + Ids(batch)
  {
    var all := written + batch;
    forall x | x in Ids(written) + Ids(batch) ensures x in Ids(all) {
      if x in Ids(written) {
        var i :| 0 <= i < |written| && written[i].id == x;
        assert all[i].id == x;
      } else {
        var i :| 0 <= i < |batch| && batch[i].id == x;
        assert all[|written| + i].id == x;
      }
    }
  }

  /** What is written is in order and ends at the cursor. */
  ghost predicate UpTo(written: seq<Event>, afterID: int, cursor: int) {
    && Ascending(written) && afterID <= cursor && (forall i :: 0 <= i < |written| ==> written[i].id <= cursor)
    && cursor == if written == [] then afterID else written[|written| - 1].id
  }

  lemma MoreUpTo(written: seq<Event>, afterID: int, cursor: int, batch: seq<Event>)
    requires UpTo(written, afterID, cursor) && Ascending(batch) && batch != []
    requires forall i :: 0 <= i < |batch| ==> batch[i].id > cursor
    ensures UpTo(written + batch, afterID, batch[|batch| - 1].id)
  {
    WrittenIds(written, batch, cursor);
    var all, last := written + batch, batch[|batch| - 1].id;
    assert all[|all| - 1].id == last;
  }

  lemma LessAhead(all: set<int>, cursor: int, last: int)
    requires last in Above(all, cursor)
    ensures Above(Above(all, cursor), last) == Above(all, last) && |Above(all, last)| < |Above(all, cursor)|
  {
    SubsetIsSmaller(Above(all, last), Above(all, cursor) - {last});
  }

  lemma SentIsAhead(w: set<int>, bound: int, k: nat, a: set<int>, m: set<int>, sent: set<int>)
    requires Turn(w, bound, k, a, m, sent)
    ensures sent <= w
  {
  }

  /** After a full batch the loop goes on with less ahead of it. */
  lemma TurnGoesOn(all: set<int>, bound: int, k: nat, done: set<int>, cursor: int, a: set<int>, m: set<int>, sent: set<int>, last: int)
    requires Flushing(all, bound, k, done, Above(all, cursor)) && Turn(Above(all, cursor), bound, k, a, m, sent) && IsGreatest(sent, last)
    ensures Flushing(all, bound, k, done + sent, Above(all, last))
    ensures |Above(all, last)| < |Above(all, cursor)|
  {
    var w := Above(all, cursor);
    SentIsAhead(w, bound, k, a, m, sent);
    LessAhead(all, cursor, last);
    FlushTurn(all, bound, k, done, w, a, m, sent, last);
  }

  /** After a batch that is not full, all that is ahead has been written. */
  lemma TurnEnds(all: set<int>, bound: int, capacity: nat, done: set<int>, cursor: int, a: set<int>, m: set<int>, sent: set<int>)
    requires capacity >= MAX_REPLAY_BATCH && Flushing(all, bound, MAX_REPLAY_BATCH, done, Above(all, cursor))
    requires Turn(Above(all, cursor), bound, MAX_REPLAY_BATCH, a, m, sent) && |sent| < MAX_REPLAY_BATCH
    requires sent == {} || exists last :: IsGreatest(sent, last)
    ensures Flushed(all, Above(all, bound), capacity, done + sent)
  {
    var w := Above(all, cursor);
    ShortTurnEnds(w, bound, MAX_REPLAY_BATCH, a, m, sent);
    if sent == {} {
      assert done + sent == done;
    } else {
      var last :| IsGreatest(sent, last);
      FlushTurn(all, bound, MAX_REPLAY_BATCH, done, w, a, m, sent, last);
      assert Above(w, last) == {};
    }
    FlushedInFull(all, bound, capacity, done + sent);
  }

  /** What the loop keeps true while it goes on; a small ring never lets it go on. */
  ghost predicate Writing(all: set<int>, bound: int, capacity: nat, afterID: int, written: seq<Event>, cursor: int) {
    && UpTo(written, afterID, cursor)
    && Flushing(all, bound, Effective(MAX_REPLAY_BATCH, capacity), Ids(written), Above(all, cursor))
    && (capacity < MAX_REPLAY_BATCH ==> written == [] && Above(all, cursor) == all)
  }

  lemma BatchWrites(all: set<int>, bound: int, capacity: nat, afterID: int, written: seq<Event>, cursor: int,
                    a: set<int>, m: set<int>, batch: seq<Event>)
    requires 0 < capacity && Writing(all, bound, capacity, afterID, written, cursor) && |Above(all, bound)| <= capacity
    requires Turn(Above(all, cursor), bound, Effective(MAX_REPLAY_BATCH, capacity), a, m, Ids(batch)) && Ascending(batch)
    ensures forall i :: 0 <= i < |batch| ==> batch[i].id > cursor
    ensures var last := if batch == [] then cursor else batch[|batch| - 1].id;
            && UpTo(written + batch, afterID, last)
            && if |batch| < MAX_REPLAY_BATCH then Flushed(all, Above(all, bound), capacity, Ids(written + batch))
               else Writing(all, bound, capacity, afterID, written + batch, last) && |Above(all, last)| < |Above(all, cursor)|
  {
    BatchIsAhead(Above(all, cursor), cursor, bound, Effective(MAX_REPLAY_BATCH, capacity), a, m, batch);
    WrittenIds(written, batch, cursor);
    if batch == [] {
      assert written + batch == written;
    } else {
      MoreUpTo(written, afterID, cursor, batch);
    }
    if capacity < MAX_REPLAY_BATCH {
      FlushedInOne(all, bound, capacity, a, m, Ids(batch));
      assert written + batch == batch;
    } else if |batch| < MAX_REPLAY_BATCH {
      TurnEnds(all, bound, capacity, Ids(written), cursor, a, m, Ids(batch));
    } else {
      TurnGoesOn(all, bound, MAX_REPLAY_BATCH, Ids(written), cursor, a, m, Ids(batch), batch[|batch| - 1].id);
    }
  }

  /** One turn of the loop; `done` when nothing is left to send. */
  method SendStored(recorder: Recorder, projectID: string, ghost all: set<int>, ghost bound: int, ghost afterID: int,
                    written: seq<Event>, cursor: int) returns (emitted: seq<Event>, lastSentID: int, done: bool)
    requires recorder.Valid() && Complete(recorder.store, recorder.log, recorder.base) && 0 <= cursor
    requires bound == LostUpTo(recorder.log, recorder.base, recorder.capacity) && |Above(all, bound)| <= recorder.capacity
    requires StoredAfter(recorder.store, projectID, cursor) == Above(all, cursor)
    requires Writing(all, bound, recorder.capacity, afterID, written, cursor)
    ensures UpTo(emitted, afterID, lastSentID) && cursor <= lastSentID
    ensures if done then Flushed(all, Above(all, bound), recorder.capacity, Ids(emitted))
            else Writing(all, bound, recorder.capacity, afterID, emitted, lastSentID)
                 && |Above(all, lastSentID)| < |Above(all, cursor)|
  {
    var batch;
    ghost var a, m;
    batch, a, m := SinceStored(recorder, projectID, cursor);
    BatchWrites(all, bound, recorder.capacity, afterID, written, cursor, a, m, batch);
    if |batch| == 0 {
      assert written + batch == written;
      return written, cursor, true;
    }
    emitted, lastSentID := WriteBatch(batch, written, cursor);
    done := |batch| < MAX_REPLAY_BATCH;
  }

  lemma NothingWritten(all: set<int>, bound: int, capacity: nat, afterID: int)
    requires Above(all, afterID) == all
    ensures Writing(all, bound, capacity, afterID, [], afterID)
  {
    assert Ids([]) == {} && all - all == {};
  }

  /**
    * The replay loop of a recorder with a cursor store that has kept the log: what it writes, in order, and up to
    * where. Flushed says which of the wanted events these are.
    */
  method FlushStored(recorder: Recorder, projectID: string, afterID: int) returns (emitted: seq<Event>, lastSentID: int)
    requires recorder.Valid() && Complete(recorder.store, recorder.log, recorder.base)
    ensures afterID < 0 ==> emitted == [] && lastSentID == afterID
    ensures 0 <= afterID ==> UpTo(emitted, afterID, lastSentID)
    ensures 0 <= afterID ==> Flushed(StoredAfter(recorder.store, projectID, afterID),
                                     RetainedAfter(recorder.events, projectID, afterID), recorder.capacity, Ids(emitted))
  {
    emitted, lastSentID := [], afterID;
    if afterID < 0 {
      var batch := recorder.Since(projectID, afterID, MAX_REPLAY_BATCH, None);
      assert batch == [];
      return;
    }
    ghost var all, bound := StoredAfter(recorder.store, projectID, afterID), LostUpTo(recorder.log, recorder.base, recorder.capacity);
    recorder.RingIsContiguous();
    RingAbove(recorder.store, recorder.log, recorder.base, recorder.capacity, projectID, afterID);
    RingFits(recorder.log, recorder.capacity, projectID, afterID);
    assert Above(all, afterID) == all;
    NothingWritten(all, bound, recorder.capacity, afterID);
    var done := false;
    while !done
      invariant UpTo(emitted, afterID, lastSentID)
      invariant if done then Flushed(all, Above(all, bound), recorder.capacity, Ids(emitted))
                else Writing(all, bound, recorder.capacity, afterID, emitted, lastSentID)
      decreases if done then 0 else 1 + |Above(all, lastSentID)|
    {
      AboveCursor(recorder.store, projectID, afterID, lastSentID);
      emitted, lastSentID, done := SendStored(recorder, projectID, all, bound, afterID, emitted, lastSentID);
    }
  }
}
