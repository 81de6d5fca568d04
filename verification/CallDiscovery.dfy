/** The symbols that a call graph is made of: how far from the root they lie, and in which order they are discovered. */
module CallDiscovery {

  type SymbolID = string

  datatype Symbol = Symbol(name: string, fileID: string)

  /** One SYMBOL_CALLS_SYMBOL relationship. */
  datatype Call = Call(id: string, from: SymbolID, to: SymbolID)

  datatype Direction = Callees | Callers | Both

  /** The graph store: the symbols it knows, and the project's calls in the order the search sorts them. */
  datatype Store = Store(symbols: map<SymbolID, Symbol>, calls: seq<Call>)

  // ------------------------------------------------------------- what it should find

  predicate Follows(dir: Direction, c: Call, v: SymbolID, w: SymbolID) {
    || (dir != Callers && c.from == v && c.to == w)
    || (dir != Callees && c.to == v && c.from == w)
  }

  ghost predicate Adjacent(store: Store, dir: Direction, v: SymbolID, w: SymbolID) {
    exists i :: 0 <= i < |store.calls| && Follows(dir, store.calls[i], v, w)
  }

  /** Every symbol that begins or ends a call. */
  ghost function Ends(calls: seq<Call>): (r: set<SymbolID>)
    ensures forall c :: c in calls ==> c.from in r && c.to in r
  {
    if calls == [] then {} else {calls[0].from, calls[0].to} + Ends(calls[1..])
  }

  /** The symbols at distance at most `n` from `root`. */
  ghost function Within(store: Store, dir: Direction, root: SymbolID, n: nat): set<SymbolID> {
    if n == 0 then {root} else
    var near := Within(store, dir, root, n - 1);
    near + set w | w in Ends(store.calls) && exists v :: v in near && Adjacent(store, dir, v, w)
  }

  lemma WithinStep(store: Store, dir: Direction, root: SymbolID, n: nat, v: SymbolID, w: SymbolID)
    requires v in Within(store, dir, root, n) && Adjacent(store, dir, v, w)
    ensures w in Within(store, dir, root, n + 1)
  {
    var i :| 0 <= i < |store.calls| && Follows(dir, store.calls[i], v, w);
    assert w in Ends(store.calls);
  }

  lemma WithinNests(store: Store, dir: Direction, root: SymbolID, n: nat)
    ensures Within(store, dir, root, n) <= Within(store, dir, root, n + 1)
  {
  }

  ghost function Near(store: Store, dir: Direction, root: SymbolID): nat -> set<SymbolID> {
    (n: nat) => Within(store, dir, root, n)
  }

  lemma {:induction false} SetsGrow(f: nat -> set<SymbolID>, m: nat, n: nat)
    requires m <= n && forall k: nat :: f(k) <= f(k + 1)
    ensures f(m) <= f(n)
    decreases n - m
  {
    if m < n { SetsGrow(f, m, n - 1); }
  }

  lemma WithinGrows(store: Store, dir: Direction, root: SymbolID, m: nat, n: nat)
    requires m <= n
    ensures Within(store, dir, root, m) <= Within(store, dir, root, n)
  {
    var f := Near(store, dir, root);
    forall k: nat ensures f(k) <= f(k + 1) { WithinNests(store, dir, root, k); }
    SetsGrow(f, m, n);
    assert f(m) <= f(n);
  }

  /** A walk along calls in the chosen direction, from `p[0]` to the last symbol of `p`. */
  ghost predicate Walk(store: Store, dir: Direction, p: seq<SymbolID>) {
    p != [] && forall i :: 0 < i < |p| ==> Adjacent(store, dir, p[i - 1], p[i])
  }

  ghost predicate WalkTo(store: Store, dir: Direction, root: SymbolID, v: SymbolID, n: nat, p: seq<SymbolID>) {
    Walk(store, dir, p) && p[0] == root && p[|p| - 1] == v && |p| <= n + 1
  }

  lemma WalkExtends(store: Store, dir: Direction, p: seq<SymbolID>, v: SymbolID)
    requires Walk(store, dir, p) && Adjacent(store, dir, p[|p| - 1], v)
    ensures Walk(store, dir, p + [v])
  {
    forall i | 0 < i < |p + [v]| ensures Adjacent(store, dir, (p + [v])[i - 1], (p + [v])[i]) {
      if i == |p| { assert (p + [v])[i - 1] == p[|p| - 1]; }
    }
  }

  ghost predicate Reached(store: Store, dir: Direction, near: set<SymbolID>, w: SymbolID) {
    exists v :: v in near && Adjacent(store, dir, v, w)
  }

  /** Whatever lies in `far` lies in `near`, or one call further. */
  ghost predicate OneFurther(store: Store, dir: Direction, near: set<SymbolID>, far: set<SymbolID>) {
    forall w :: w in far ==> w in near || Reached(store, dir, near, w)
  }

  /** `levels[n]` holds what lies within `n` calls. */
  ghost predicate Layers(store: Store, dir: Direction, root: SymbolID, levels: seq<set<SymbolID>>) {
    && levels != [] && (forall w :: w in levels[0] ==> w == root)
    && forall m, n :: 0 <= m < |levels| && 0 <= n < |levels| && n == m + 1 ==> OneFurther(store, dir, levels[m], levels[n])
  }

  lemma WithinGoesOneFurther(store: Store, dir: Direction, root: SymbolID, n: nat)
    ensures OneFurther(store, dir, Within(store, dir, root, n), Within(store, dir, root, n + 1))
  {
  }

  lemma WithinIsLayered(store: Store, dir: Direction, root: SymbolID, n: nat) returns (levels: seq<set<SymbolID>>)
    ensures Layers(store, dir, root, levels) && |levels| == n + 1 && levels[n] == Within(store, dir, root, n)
  {
    levels := seq(n + 1, i requires 0 <= i => Within(store, dir, root, i));
    forall j, k | 0 <= j < |levels| && 0 <= k < |levels| && k == j + 1 ensures OneFurther(store, dir, levels[j], levels[k]) {
      WithinGoesOneFurther(store, dir, root, j);
    }
  }

  lemma WalkToExtends(store: Store, dir: Direction, root: SymbolID, u: SymbolID, v: SymbolID, n: nat, q: seq<SymbolID>)
    requires WalkTo(store, dir, root, u, n, q) && Adjacent(store, dir, u, v)
    ensures WalkTo(store, dir, root, v, n + 1, q + [v])
  {
    WalkExtends(store, dir, q, v);
  }

  lemma {:induction false} LayersHaveWalks(store: Store, dir: Direction, root: SymbolID, v: SymbolID, levels: seq<set<SymbolID>>, n: nat)
    returns (p: seq<SymbolID>)
    requires Layers(store, dir, root, levels) && n < |levels| && v in levels[n]
    ensures WalkTo(store, dir, root, v, n, p)
    decreases n
  {
    if n == 0 {
      p := [root];
    } else if v in levels[n - 1] {
      p := LayersHaveWalks(store, dir, root, v, levels, n - 1);
    } else {
      assert OneFurther(store, dir, levels[n - 1], levels[n]);
      var u :| u in levels[n - 1] && Adjacent(store, dir, u, v);
      var q := LayersHaveWalks(store, dir, root, u, levels, n - 1);
      WalkToExtends(store, dir, root, u, v, n - 1, q);
      p := q + [v];
    }
  }

  lemma WithinHasWalk(store: Store, dir: Direction, root: SymbolID, v: SymbolID, n: nat) returns (p: seq<SymbolID>)
    requires v in Within(store, dir, root, n)
    ensures WalkTo(store, dir, root, v, n, p)
  {
    var levels := WithinIsLayered(store, dir, root, n);
    p := LayersHaveWalks(store, dir, root, v, levels, n);
  }

  lemma {:induction false} WalkStaysWithin(store: Store, dir: Direction, p: seq<SymbolID>)
    requires Walk(store, dir, p)
    ensures p[|p| - 1] in Within(store, dir, p[0], |p| - 1)
  {
    if |p| > 1 {
      var q := p[..|p| - 1];
      assert Walk(store, dir, q);
      WalkStaysWithin(store, dir, q);
      WithinStep(store, dir, p[0], |p| - 2, q[|q| - 1], p[|p| - 1]);
    }
  }

  /** `Within` means what it should: a walk of at most `n` calls leads there. */
  lemma WithinIsWalk(store: Store, dir: Direction, root: SymbolID, v: SymbolID, n: nat)
    ensures v in Within(store, dir, root, n) <==> exists p :: WalkTo(store, dir, root, v, n, p)
  {
    if v in Within(store, dir, root, n) {
      var p := WithinHasWalk(store, dir, root, v, n);
    }
    if p :| WalkTo(store, dir, root, v, n, p) {
      WalkStaysWithin(store, dir, p);
      WithinGrows(store, dir, root, |p| - 1, n);
    }
  }

  // ------------------------------------------------------------ the calls of one symbol

  function Source(c: Call, callers: bool): SymbolID {
    if callers then c.to else c.from
  }

  function Target(c: Call, callers: bool): SymbolID {
    if callers then c.from else c.to
  }

  /** The calls that `v` makes or, for `callers`, those made to it. */
  function CallsOf(calls: seq<Call>, v: SymbolID, callers: bool): (r: seq<Call>)
    ensures forall c :: c in r <==> c in calls && Source(c, callers) == v
  {
    if calls == [] then [] else
    (if Source(calls[0], callers) == v then [calls[0]] else []) + CallsOf(calls[1..], v, callers)
  }

  function Outgoing(calls: seq<Call>, v: SymbolID): (r: seq<Call>)
    ensures forall c :: c in r <==> c in calls && c.from == v
  {
    CallsOf(calls, v, false)
  }

  function Incoming(calls: seq<Call>, v: SymbolID): (r: seq<Call>)
    ensures forall c :: c in r <==> c in calls && c.to == v
  {
    CallsOf(calls, v, true)
  }

  ghost predicate Ascending(at: seq<nat>) {
    forall i, j :: 0 <= i < j < |at| ==> at[i] < at[j]
  }

  /** `part` holds the elements of `calls` at the places `at`, in order. */
  ghost predicate TakenAt(calls: seq<Call>, part: seq<Call>, at: seq<nat>) {
    |at| == |part| && Ascending(at) && forall i :: 0 <= i < |at| ==> at[i] < |calls| && part[i] == calls[at[i]]
  }

  function Shifted(at: seq<nat>, d: nat): (r: seq<nat>)
    ensures |r| == |at| && forall i :: 0 <= i < |r| ==> r[i] == at[i] + d
  {
    seq(|at|, i requires 0 <= i < |at| => at[i] + d)
  }

  lemma InShifted(at: seq<nat>, d: nat, j: nat)
    requires j in at
    ensures j + d in Shifted(at, d)
  {
    var i :| 0 <= i < |at| && at[i] == j;
    assert Shifted(at, d)[i] == j + d;
  }

  lemma TakenLater(calls: seq<Call>, part: seq<Call>, at: seq<nat>)
    requires calls != [] && TakenAt(calls[1..], part, at)
    ensures TakenAt(calls, part, Shifted(at, 1))
  {
  }

  lemma TakenFirst(calls: seq<Call>, part: seq<Call>, at: seq<nat>)
    requires calls != [] && TakenAt(calls[1..], part, at)
    ensures TakenAt(calls, [calls[0]] + part, [0] + Shifted(at, 1))
  {
  }

  /** Both lists keep the order of the project's calls, and leave none out. */
  lemma {:induction false} CallsKeepOrder(calls: seq<Call>, v: SymbolID, callers: bool) returns (at: seq<nat>)
    ensures TakenAt(calls, CallsOf(calls, v, callers), at)
    ensures forall j :: 0 <= j < |calls| && Source(calls[j], callers) == v ==> j in at
    decreases |calls|
  {
    if calls == [] {
      at := [];
    } else {
      var rest := CallsOf(calls[1..], v, callers);
      var later := CallsKeepOrder(calls[1..], v, callers);
      if Source(calls[0], callers) == v {
        TakenFirst(calls, rest, later);
        at := [0] + Shifted(later, 1);
      } else {
        TakenLater(calls, rest, later);
        assert [] + rest == rest;
        at := Shifted(later, 1);
      }
      forall j | 0 <= j < |calls| && Source(calls[j], callers) == v ensures j in at {
        if j > 0 {
          assert calls[1..][j - 1] == calls[j];
          InShifted(later, 1, j - 1);
        }
      }
    }
  }

  function Targets(calls: seq<Call>, callers: bool): (r: seq<SymbolID>)
    ensures |r| == |calls| && forall i :: 0 <= i < |r| ==> r[i] == Target(calls[i], callers)
  {
    seq(|calls|, i requires 0 <= i < |calls| => Target(calls[i], callers))
  }

  /** Step number `e` from `v` leads to `w`: the calls that `v` makes come first, then those made to it. */
  predicate Leads(store: Store, dir: Direction, v: SymbolID, e: nat, w: SymbolID) {
    var n := |store.calls|;
    if e < n then dir != Callers && store.calls[e].from == v && store.calls[e].to == w
    else e < n + n && dir != Callees && store.calls[e - n].to == v && store.calls[e - n].from == w
  }

  lemma LeadsIsAdjacent(store: Store, dir: Direction, v: SymbolID, w: SymbolID)
    ensures Adjacent(store, dir, v, w) <==> exists e: nat :: Leads(store, dir, v, e, w)
  {
    if i :| 0 <= i < |store.calls| && Follows(dir, store.calls[i], v, w) {
      var e := if dir != Callers && store.calls[i].from == v && store.calls[i].to == w then i else i + |store.calls|;
      assert Leads(store, dir, v, e, w);
    }
    if e: nat :| Leads(store, dir, v, e, w) {
      var i := if e < |store.calls| then e else e - |store.calls|;
      assert Follows(dir, store.calls[i], v, w);
    }
  }

  function Neighbours(store: Store, dir: Direction, v: SymbolID): seq<SymbolID> {
    (if dir != Callers then Targets(Outgoing(store.calls, v), false) else [])
    + if dir != Callees then Targets(Incoming(store.calls, v), true) else []
  }

  /** `at` gives the steps from `v`, in order, that lead to the symbols of `list`. */
  ghost predicate StepsTo(store: Store, dir: Direction, v: SymbolID, list: seq<SymbolID>, at: seq<nat>) {
    |at| == |list| && Ascending(at) && forall i :: 0 <= i < |at| ==> Leads(store, dir, v, at[i], list[i])
  }

  lemma StepsOut(store: Store, dir: Direction, v: SymbolID) returns (at: seq<nat>)
    requires dir != Callers
    ensures StepsTo(store, dir, v, Targets(Outgoing(store.calls, v), false), at)
    ensures (forall i :: 0 <= i < |at| ==> at[i] < |store.calls|)
    ensures forall e: nat, w :: e < |store.calls| && Leads(store, dir, v, e, w) ==> e in at
  {
    at := CallsKeepOrder(store.calls, v, false);
    assert forall i :: 0 <= i < |at| ==> Outgoing(store.calls, v)[i] in Outgoing(store.calls, v);
  }

  ghost predicate AllFrom(n: nat, at: seq<nat>) {
    forall i :: 0 <= i < |at| ==> n <= at[i]
  }

  lemma BackIsSteps(store: Store, dir: Direction, v: SymbolID, back: seq<nat>)
    requires dir != Callees && TakenAt(store.calls, Incoming(store.calls, v), back)
    ensures StepsTo(store, dir, v, Targets(Incoming(store.calls, v), true), Shifted(back, |store.calls|))
    ensures AllFrom(|store.calls|, Shifted(back, |store.calls|))
  {
    assert forall i :: 0 <= i < |back| ==> Incoming(store.calls, v)[i] in Incoming(store.calls, v);
  }

  lemma BackIsThere(store: Store, dir: Direction, v: SymbolID, back: seq<nat>, e: nat, w: SymbolID)
    requires |store.calls| <= e && Leads(store, dir, v, e, w)
    requires forall j :: 0 <= j < |store.calls| && Source(store.calls[j], true) == v ==> j in back
    ensures e in Shifted(back, |store.calls|)
  {
    var j: nat := e - |store.calls|;
    assert Source(store.calls[j], true) == v;
    InShifted(back, |store.calls|, j);
  }

  lemma BackIsAll(store: Store, dir: Direction, v: SymbolID, back: seq<nat>)
    requires forall j :: 0 <= j < |store.calls| && Source(store.calls[j], true) == v ==> j in back
    ensures forall e: nat, w :: |store.calls| <= e && Leads(store, dir, v, e, w) ==> e in Shifted(back, |store.calls|)
  {
    forall e: nat, w | |store.calls| <= e && Leads(store, dir, v, e, w) ensures e in Shifted(back, |store.calls|) {
      BackIsThere(store, dir, v, back, e, w);
    }
  }

  lemma StepsBack(store: Store, dir: Direction, v: SymbolID) returns (at: seq<nat>)
    requires dir != Callees
    ensures StepsTo(store, dir, v, Targets(Incoming(store.calls, v), true), at)
    ensures AllFrom(|store.calls|, at)
    ensures forall e: nat, w :: |store.calls| <= e && Leads(store, dir, v, e, w) ==> e in at
  {
    var back := CallsKeepOrder(store.calls, v, true);
    at := Shifted(back, |store.calls|);
    BackIsSteps(store, dir, v, back);
    BackIsAll(store, dir, v, back);
  }

  lemma StepsConcat(store: Store, dir: Direction, v: SymbolID, a: seq<SymbolID>, p: seq<nat>, b: seq<SymbolID>, q: seq<nat>)
    requires StepsTo(store, dir, v, a, p) && StepsTo(store, dir, v, b, q)
    requires (forall i :: 0 <= i < |p| ==> p[i] < |store.calls|) && AllFrom(|store.calls|, q)
    ensures StepsTo(store, dir, v, a + b, p + q)
  {
  }

  /** The neighbours of a symbol in the order of the steps that lead to them. */
  lemma NeighboursInOrder(store: Store, dir: Direction, v: SymbolID) returns (at: seq<nat>)
    ensures StepsTo(store, dir, v, Neighbours(store, dir, v), at)
    ensures forall e: nat, w :: Leads(store, dir, v, e, w) ==> e in at
  {
    var out, back := [], [];
    if dir != Callers { out := StepsOut(store, dir, v); }
    if dir != Callees { back := StepsBack(store, dir, v); }
    StepsConcat(store, dir, v, if dir != Callers then Targets(Outgoing(store.calls, v), false) else [], out,
                if dir != Callees then Targets(Incoming(store.calls, v), true) else [], back);
    at := out + back;
  }

  // ------------------------------------------------------------- the order of discovery

  ghost predicate Distinct(q: seq<SymbolID>) {
    forall i, j :: 0 <= i < j < |q| ==> q[i] != q[j]
  }

  /** `found`, and behind it the symbols of `list` that are new, each once. */
  function Met(found: seq<SymbolID>, list: seq<SymbolID>): seq<SymbolID> {
    if list == [] then found else
    var before := Met(found, list[..|list| - 1]);
    if list[|list| - 1] in before then before else before + [list[|list| - 1]]
  }

  /** The root, and what is met when the symbols of `parents` are asked, one after the other, for their neighbours. */
  function Asked(store: Store, dir: Direction, root: SymbolID, parents: seq<SymbolID>): seq<SymbolID> {
    if parents == [] then [root] else
    var n := |parents| - 1;
    Met(Asked(store, dir, root, parents[..n]), Neighbours(store, dir, parents[n]))
  }

  /** The symbols within `n` calls in the order of discovery: level by level, each level in the order of the one before. */
  function Discovery(store: Store, dir: Direction, root: SymbolID, n: nat): seq<SymbolID> {
    if n == 0 then [root] else Asked(store, dir, root, Discovery(store, dir, root, n - 1))
  }

  lemma {:induction false} MetIs(found: seq<SymbolID>, list: seq<SymbolID>)
    ensures found <= Met(found, list)
    ensures forall x :: x in Met(found, list) <==> x in found || x in list
    ensures Distinct(found) ==> Distinct(Met(found, list))
    decreases |list|
  {
    if list != [] {
      var n := |list| - 1;
      MetIs(found, list[..n]);
      assert list == list[..n] + [list[n]];
    }
  }

  lemma {:induction false} MetConcat(found: seq<SymbolID>, a: seq<SymbolID>, b: seq<SymbolID>)
    ensures Met(found, a + b) == Met(Met(found, a), b)
    decreases |b|
  {
    if b == [] {
      assert a + b == a;
    } else {
      var n := |b| - 1;
      MetConcat(found, a, b[..n]);
      assert (a + b)[..|a + b| - 1] == a + b[..n];
    }
  }

  lemma NeighbourIs(store: Store, dir: Direction, v: SymbolID, list: seq<SymbolID>, at: seq<nat>, w: SymbolID)
    requires StepsTo(store, dir, v, list, at) && forall e: nat, w :: Leads(store, dir, v, e, w) ==> e in at
    ensures w in list <==> Adjacent(store, dir, v, w)
  {
    LeadsIsAdjacent(store, dir, v, w);
    if e: nat :| Leads(store, dir, v, e, w) {
      var i :| 0 <= i < |at| && at[i] == e;
      assert Leads(store, dir, v, at[i], list[i]) && list[i] == w;
    }
    if w in list {
      var i :| 0 <= i < |list| && list[i] == w;
      assert Leads(store, dir, v, at[i], w);
    }
  }

  lemma NeighboursAre(store: Store, dir: Direction, v: SymbolID)
    ensures forall w :: w in Neighbours(store, dir, v) <==> Adjacent(store, dir, v, w)
  {
    var at := NeighboursInOrder(store, dir, v);
    forall w ensures w in Neighbours(store, dir, v) <==> Adjacent(store, dir, v, w) {
      NeighbourIs(store, dir, v, Neighbours(store, dir, v), at, w);
    }
  }

  /** `found` holds the root and the neighbours of `parents`, each once. */
  ghost predicate Reaches(store: Store, dir: Direction, root: SymbolID, parents: seq<SymbolID>, found: seq<SymbolID>) {
    && root in found && Distinct(found)
    && forall w :: w in found <==> w == root || exists v :: v in parents && Adjacent(store, dir, v, w)
  }

  lemma OneMoreReaches(store: Store, dir: Direction, root: SymbolID, parents: seq<SymbolID>, v: SymbolID, found: seq<SymbolID>)
    requires Reaches(store, dir, root, parents, found)
    ensures Reaches(store, dir, root, parents + [v], Met(found, Neighbours(store, dir, v)))
  {
    var after := Met(found, Neighbours(store, dir, v));
    MetIs(found, Neighbours(store, dir, v));
    NeighboursAre(store, dir, v);
    forall w ensures w in after <==> w == root || exists u :: u in parents + [v] && Adjacent(store, dir, u, w) {
      if u :| u in parents + [v] && Adjacent(store, dir, u, w) {
        if u != v { assert u in parents; }
      }
      if w in found && w != root {
        var u :| u in parents && Adjacent(store, dir, u, w);
        assert u in parents + [v];
      } else if w in after && w != root {
        assert v in parents + [v];
      }
    }
  }

  lemma AskedOnce(store: Store, dir: Direction, root: SymbolID, parents: seq<SymbolID>, v: SymbolID)
    ensures Asked(store, dir, root, parents + [v]) == Met(Asked(store, dir, root, parents), Neighbours(store, dir, v))
  {
    assert (parents + [v])[..|parents + [v]| - 1] == parents;
  }

  lemma AskedNone(store: Store, dir: Direction, root: SymbolID)
    ensures Asked(store, dir, root, []) == [root] && Reaches(store, dir, root, [], [root])
  {
  }

  lemma AskedReaches(store: Store, dir: Direction, root: SymbolID, parents: seq<SymbolID>, v: SymbolID)
    requires Reaches(store, dir, root, parents, Asked(store, dir, root, parents))
    ensures Reaches(store, dir, root, parents + [v], Asked(store, dir, root, parents + [v]))
  {
    OneMoreReaches(store, dir, root, parents, v, Asked(store, dir, root, parents));
    AskedOnce(store, dir, root, parents, v);
  }

  lemma LastApart<T>(s: seq<T>) returns (rest: seq<T>, x: T)
    requires s != []
    ensures s == rest + [x]
  {
    rest, x := s[..|s| - 1], s[|s| - 1];
  }

  lemma {:induction false} AskedIs(store: Store, dir: Direction, root: SymbolID, parents: seq<SymbolID>)
    ensures Reaches(store, dir, root, parents, Asked(store, dir, root, parents))
    decreases |parents|
  {
    if parents == [] {
      AskedNone(store, dir, root);
    } else {
      var rest, v := LastApart(parents);
      AskedIs(store, dir, root, rest);
      AskedReaches(store, dir, root, rest, v);
    }
  }

  lemma {:induction false} ChainGrows<T>(f: nat -> seq<T>, m: nat, n: nat)
    requires m <= n && forall k: nat :: f(k) <= f(k + 1)
    ensures f(m) <= f(n)
    decreases n - m
  {
    if m < n { ChainGrows(f, m, n - 1); }
  }

  function FirstOf<T>(s: seq<T>, n: nat): seq<T> {
    if |s| <= n then s else s[..n]
  }

  lemma OneMoreOf<T>(s: seq<T>, k: nat)
    ensures FirstOf(s, k + 1) == if k < |s| then FirstOf(s, k) + [s[k]] else FirstOf(s, k)
  {
  }

  ghost function AskedFirst(store: Store, dir: Direction, root: SymbolID, parents: seq<SymbolID>): nat -> seq<SymbolID> {
    (k: nat) => Asked(store, dir, root, FirstOf(parents, k))
  }

  lemma AskedGrowsOnce(store: Store, dir: Direction, root: SymbolID, parents: seq<SymbolID>, k: nat)
    ensures AskedFirst(store, dir, root, parents)(k) <= AskedFirst(store, dir, root, parents)(k + 1)
  {
    OneMoreOf(parents, k);
    if k < |parents| {
      AskedOnce(store, dir, root, FirstOf(parents, k), parents[k]);
      MetIs(Asked(store, dir, root, FirstOf(parents, k)), Neighbours(store, dir, parents[k]));
    }
  }

  lemma AskedGrows(store: Store, dir: Direction, root: SymbolID, a: seq<SymbolID>, b: seq<SymbolID>)
    requires a <= b
    ensures Asked(store, dir, root, a) <= Asked(store, dir, root, b)
  {
    forall k: nat ensures AskedFirst(store, dir, root, b)(k) <= AskedFirst(store, dir, root, b)(k + 1) {
      AskedGrowsOnce(store, dir, root, b, k);
    }
    ChainGrows(AskedFirst(store, dir, root, b), |a|, |b|);
    assert FirstOf(b, |a|) == a && FirstOf(b, |b|) == b;
    assert AskedFirst(store, dir, root, b)(|a|) == Asked(store, dir, root, a);
    assert AskedFirst(store, dir, root, b)(|b|) == Asked(store, dir, root, b);
  }

  lemma {:induction false} DiscoveryGrowsOnce(store: Store, dir: Direction, root: SymbolID, n: nat)
    ensures Discovery(store, dir, root, n) <= Discovery(store, dir, root, n + 1)
  {
    if n == 0 {
      AskedGrows(store, dir, root, [], Discovery(store, dir, root, 0));
    } else {
      DiscoveryGrowsOnce(store, dir, root, n - 1);
      AskedGrows(store, dir, root, Discovery(store, dir, root, n - 1), Discovery(store, dir, root, n));
    }
  }

  ghost function Discovered(store: Store, dir: Direction, root: SymbolID): nat -> seq<SymbolID> {
    (n: nat) => Discovery(store, dir, root, n)
  }

  lemma DiscoveredGrows(store: Store, dir: Direction, root: SymbolID)
    ensures forall k: nat :: Discovered(store, dir, root)(k) <= Discovered(store, dir, root)(k + 1)
  {
    forall k: nat ensures Discovered(store, dir, root)(k) <= Discovered(store, dir, root)(k + 1) {
      DiscoveryGrowsOnce(store, dir, root, k);
    }
  }

  /** Every level is discovered behind the ones before. */
  lemma DiscoveryGrows(store: Store, dir: Direction, root: SymbolID, m: nat, n: nat)
    requires m <= n
    ensures Discovery(store, dir, root, m) <= Discovery(store, dir, root, n)
  {
    DiscoveredGrows(store, dir, root);
    ChainGrows(Discovered(store, dir, root), m, n);
    assert Discovered(store, dir, root)(m) == Discovery(store, dir, root, m);
    assert Discovered(store, dir, root)(n) == Discovery(store, dir, root, n);
  }

  lemma Prefix<T>(a: seq<T>, b: seq<T>, x: T)
    requires a <= b && x in a
    ensures x in b
  {
    var i :| 0 <= i < |a| && a[i] == x;
    assert b[i] == x;
  }

  ghost predicate Lists(list: seq<SymbolID>, elements: set<SymbolID>) {
    forall v :: v in list <==> v in elements
  }

  lemma NextLevel(store: Store, dir: Direction, root: SymbolID, near: set<SymbolID>, far: set<SymbolID>,
                  before: seq<SymbolID>, after: seq<SymbolID>)
    requires before <= after && Lists(before, near) && near <= far && root in far && OneFurther(store, dir, near, far)
    requires forall v, w :: v in near && Adjacent(store, dir, v, w) ==> w in far
    requires Reaches(store, dir, root, before, after)
    ensures Lists(after, far)
  {
    forall w ensures w in after <==> w in far {
      if w in before {
        Prefix(before, after, w);
      } else if w in far {
        var v :| v in near && Adjacent(store, dir, v, w);
        assert v in before;
      }
    }
  }

  lemma NextIsWithin(store: Store, dir: Direction, root: SymbolID, n: nat, before: seq<SymbolID>, after: seq<SymbolID>)
    requires before <= after && Reaches(store, dir, root, before, after)
    requires Lists(before, Within(store, dir, root, n))
    ensures Lists(after, Within(store, dir, root, n + 1))
  {
    var near, far := Within(store, dir, root, n), Within(store, dir, root, n + 1);
    WithinGrows(store, dir, root, 0, n + 1);
    WithinGoesOneFurther(store, dir, root, n);
    forall v, w | v in near && Adjacent(store, dir, v, w) ensures w in far { WithinStep(store, dir, root, n, v, w); }
    NextLevel(store, dir, root, near, far, before, after);
  }

  /** `list` holds what lies within `n` calls, each symbol once. */
  ghost predicate ListsWithin(store: Store, dir: Direction, root: SymbolID, n: nat, list: seq<SymbolID>) {
    Lists(list, Within(store, dir, root, n)) && Distinct(list)
  }

  lemma FirstLevel(store: Store, dir: Direction, root: SymbolID)
    ensures ListsWithin(store, dir, root, 0, Discovery(store, dir, root, 0))
  {
    assert [root][0] == root;
  }

  lemma OneMoreLevel(store: Store, dir: Direction, root: SymbolID, n: nat)
    requires ListsWithin(store, dir, root, n, Discovery(store, dir, root, n))
    ensures ListsWithin(store, dir, root, n + 1, Discovery(store, dir, root, n + 1))
  {
    DiscoveryGrowsOnce(store, dir, root, n);
    AskedIs(store, dir, root, Discovery(store, dir, root, n));
    NextIsWithin(store, dir, root, n, Discovery(store, dir, root, n), Discovery(store, dir, root, n + 1));
  }

  ghost function ListedAt(store: Store, dir: Direction, root: SymbolID): nat -> bool {
    (n: nat) => ListsWithin(store, dir, root, n, Discovery(store, dir, root, n))
  }

  lemma {:induction false} EveryLevel(p: nat -> bool, n: nat)
    requires p(0) && forall k: nat :: p(k) ==> p(k + 1)
    ensures p(n)
  {
    if n > 0 { EveryLevel(p, n - 1); }
  }

  /** What is discovered within `n` levels is what lies within `n` calls, each symbol once. */
  lemma DiscoveryIsWithin(store: Store, dir: Direction, root: SymbolID, n: nat)
    ensures ListsWithin(store, dir, root, n, Discovery(store, dir, root, n))
  {
    var p := ListedAt(store, dir, root);
    FirstLevel(store, dir, root);
    forall k: nat | p(k) ensures p(k + 1) { OneMoreLevel(store, dir, root, k); }
    EveryLevel(p, n);
    assert p(n);
  }

  // ------------------------------------------------------- the order, by what leads there

  /** How a symbol is come upon: by which step from which of the symbols asked. */
  datatype Arrival = Arrival(parent: nat, step: nat)

  predicate Earlier(a: Arrival, b: Arrival) {
    a.parent < b.parent || (a.parent == b.parent && a.step < b.step)
  }

  /** `via` tells how the symbols after the root are come upon. */
  ghost predicate ComeUpon(store: Store, dir: Direction, parents: seq<SymbolID>, order: seq<SymbolID>, via: seq<Arrival>) {
    |via| == |order| && forall k :: 0 < k < |order| ==>
      via[k].parent < |parents| && Leads(store, dir, parents[via[k].parent], via[k].step, order[k])
  }

  /** Nothing leads to a symbol any earlier. */
  ghost predicate AtFirst(store: Store, dir: Direction, parents: seq<SymbolID>, order: seq<SymbolID>, via: seq<Arrival>)
    requires |via| == |order|
  {
    forall k, i, e: nat :: 0 < k < |order| && 0 <= i < |parents| && Leads(store, dir, parents[i], e, order[k]) ==>
      !Earlier(Arrival(i, e), via[k])
  }

  ghost predicate OneByOne(via: seq<Arrival>) {
    forall j, k :: 0 < j < k < |via| ==> Earlier(via[j], via[k])
  }

  /** At which places of `list` the new symbols stand for the first time. */
  ghost predicate Meetings(found: seq<SymbolID>, list: seq<SymbolID>, places: seq<nat>) {
    var met := Met(found, list);
    && |met| == |found| + |places| && Ascending(places)
    && (forall i :: 0 <= i < |places| ==> places[i] < |list| && list[places[i]] == met[|found| + i])
    && (forall i, q :: 0 <= i < |places| && 0 <= q < places[i] ==> list[q] != met[|found| + i])
  }

  lemma {:induction false} FirstMeetings(found: seq<SymbolID>, list: seq<SymbolID>) returns (places: seq<nat>)
    ensures Meetings(found, list, places)
    decreases |list|
  {
    if list == [] {
      places := [];
    } else {
      var n := |list| - 1;
      var before := Met(found, list[..n]);
      places := FirstMeetings(found, list[..n]);
      MetIs(found, list[..n]);
      if list[n] !in before {
        NewMeeting(found, list, places);
        places := places + [n];
      }
    }
  }

  lemma NewMeeting(found: seq<SymbolID>, list: seq<SymbolID>, places: seq<nat>)
    requires list != [] && Meetings(found, list[..|list| - 1], places) && list[|list| - 1] !in Met(found, list[..|list| - 1])
    ensures Meetings(found, list, places + [|list| - 1])
  {
    var n := |list| - 1;
    var before := Met(found, list[..n]);
    MetIs(found, list[..n]);
    forall q | 0 <= q < n ensures list[q] != list[n] {
      assert list[..n][q] == list[q] && list[q] in list[..n];
    }
  }

  function ArriveBy(n: nat, at: seq<nat>, places: seq<nat>): (r: seq<Arrival>)
    requires forall i :: 0 <= i < |places| ==> places[i] < |at|
    ensures |r| == |places| && forall i :: 0 <= i < |r| ==> r[i] == Arrival(n, at[places[i]])
  {
    seq(|places|, i requires 0 <= i < |places| => Arrival(n, at[places[i]]))
  }

  /** One more symbol, `v`, is asked, after all of `parents`. */
  lemma OneMoreComeUpon(store: Store, dir: Direction, parents: seq<SymbolID>, v: SymbolID, found: seq<SymbolID>, via: seq<Arrival>,
                        list: seq<SymbolID>, at: seq<nat>, places: seq<nat>)
    requires found != [] && ComeUpon(store, dir, parents, found, via) && StepsTo(store, dir, v, list, at)
    requires Meetings(found, list, places) && found <= Met(found, list)
    ensures ComeUpon(store, dir, parents + [v], Met(found, list), via + ArriveBy(|parents|, at, places))
  {
    var met, all := Met(found, list), via + ArriveBy(|parents|, at, places);
    forall k | 0 < k < |met|
      ensures all[k].parent <= |parents| && Leads(store, dir, (parents + [v])[all[k].parent], all[k].step, met[k])
    {
      if k < |found| {
        assert all[k] == via[k] && met[k] == found[k];
      } else {
        var m := places[k - |found|];
        assert all[k] == Arrival(|parents|, at[m]) && Leads(store, dir, v, at[m], list[m]);
      }
    }
  }

  lemma StillOneByOne(parents: nat, via: seq<Arrival>, at: seq<nat>, places: seq<nat>)
    requires OneByOne(via) && Ascending(at) && Ascending(places) && forall i :: 0 <= i < |places| ==> places[i] < |at|
    requires via != [] && forall k :: 0 < k < |via| ==> via[k].parent < parents
    ensures OneByOne(via + ArriveBy(parents, at, places))
  {
  }

  lemma FirstStep(store: Store, dir: Direction, v: SymbolID, list: seq<SymbolID>, at: seq<nat>, m: nat, e: nat)
    requires StepsTo(store, dir, v, list, at) && m < |list| && e in at && Leads(store, dir, v, e, list[m])
    requires forall q :: 0 <= q < m ==> list[q] != list[m]
    ensures at[m] <= e
  {
    var q :| 0 <= q < |at| && at[q] == e;
    assert Leads(store, dir, v, at[q], list[q]) && list[q] == list[m];
  }

  lemma NewIsNotFound(found: seq<SymbolID>, met: seq<SymbolID>, k: nat)
    requires found <= met && Distinct(met) && |found| <= k < |met|
    ensures met[k] !in found
  {
    forall j | 0 <= j < |found| ensures found[j] != met[k] { assert met[j] == found[j]; }
  }

  lemma StillAtFirst(store: Store, dir: Direction, parents: seq<SymbolID>, v: SymbolID, found: seq<SymbolID>, via: seq<Arrival>,
                     list: seq<SymbolID>, at: seq<nat>, places: seq<nat>)
    requires found != [] && |via| == |found| && AtFirst(store, dir, parents, found, via)
    requires forall k :: 0 < k < |found| ==> via[k].parent < |parents|
    requires StepsTo(store, dir, v, list, at) && Meetings(found, list, places) && found <= Met(found, list)
    requires forall e: nat, w :: Leads(store, dir, v, e, w) ==> e in at
    requires forall i, e: nat, w :: 0 <= i < |parents| && Leads(store, dir, parents[i], e, w) ==> w in found
    requires Distinct(Met(found, list))
    ensures |via + ArriveBy(|parents|, at, places)| == |Met(found, list)|
    ensures AtFirst(store, dir, parents + [v], Met(found, list), via + ArriveBy(|parents|, at, places))
  {
    var met, all := Met(found, list), via + ArriveBy(|parents|, at, places);
    forall k, i, e: nat | 0 < k < |met| && 0 <= i <= |parents| && Leads(store, dir, (parents + [v])[i], e, met[k])
      ensures !Earlier(Arrival(i, e), all[k])
    {
      if k < |found| {
        assert all[k] == via[k] && met[k] == found[k];
      } else {
        NewIsNotFound(found, met, k);
        if i == |parents| { FirstStep(store, dir, v, list, at, places[k - |found|], e); }
      }
    }
  }

  ghost predicate Ordered(store: Store, dir: Direction, parents: seq<SymbolID>, order: seq<SymbolID>, via: seq<Arrival>) {
    order != [] && ComeUpon(store, dir, parents, order, via) && AtFirst(store, dir, parents, order, via) && OneByOne(via)
  }

  lemma LedToIsFound(store: Store, dir: Direction, root: SymbolID, parents: seq<SymbolID>, found: seq<SymbolID>)
    requires Reaches(store, dir, root, parents, found)
    ensures forall i, e: nat, w :: 0 <= i < |parents| && Leads(store, dir, parents[i], e, w) ==> w in found
  {
    forall i, e: nat, w | 0 <= i < |parents| && Leads(store, dir, parents[i], e, w) ensures w in found {
      LeadsIsAdjacent(store, dir, parents[i], w);
      assert parents[i] in parents;
    }
  }

  lemma OneMoreOrdered(store: Store, dir: Direction, root: SymbolID, parents: seq<SymbolID>, v: SymbolID, found: seq<SymbolID>,
                       via: seq<Arrival>) returns (more: seq<Arrival>)
    requires Reaches(store, dir, root, parents, found) && Ordered(store, dir, parents, found, via)
    ensures Ordered(store, dir, parents + [v], Met(found, Neighbours(store, dir, v)), more)
  {
    var list := Neighbours(store, dir, v);
    var at := NeighboursInOrder(store, dir, v);
    var places := FirstMeetings(found, list);
    MetIs(found, list);
    LedToIsFound(store, dir, root, parents, found);
    OneMoreComeUpon(store, dir, parents, v, found, via, list, at, places);
    StillAtFirst(store, dir, parents, v, found, via, list, at, places);
    StillOneByOne(|parents|, via, at, places);
    more := via + ArriveBy(|parents|, at, places);
  }

  lemma {:induction false} AskedInOrder(store: Store, dir: Direction, root: SymbolID, parents: seq<SymbolID>) returns (via: seq<Arrival>)
    ensures Ordered(store, dir, parents, Asked(store, dir, root, parents), via)
    decreases |parents|
  {
    if parents == [] {
      AskedNone(store, dir, root);
      via := [Arrival(0, 0)];
    } else {
      var rest, v := LastApart(parents);
      var before := AskedInOrder(store, dir, root, rest);
      AskedIs(store, dir, root, rest);
      via := OneMoreOrdered(store, dir, root, rest, v, Asked(store, dir, root, rest), before);
      AskedOnce(store, dir, root, rest, v);
    }
  }

  lemma LaterDoNotMatter(store: Store, dir: Direction, parents: seq<SymbolID>, order: seq<SymbolID>, via: seq<Arrival>)
    requires parents <= order && Ordered(store, dir, parents, order, via)
    ensures Ordered(store, dir, order, order, via)
  {
  }

  /** The symbols of `order` follow each other as they are come upon when all of them are asked in that order. */
  ghost predicate BreadthFirst(store: Store, dir: Direction, root: SymbolID, order: seq<SymbolID>, via: seq<Arrival>) {
    [root] <= order && Distinct(order) && Ordered(store, dir, order, order, via)
  }

  lemma NextBreadthFirst(store: Store, dir: Direction, root: SymbolID, parents: seq<SymbolID>, order: seq<SymbolID>) returns (via: seq<Arrival>)
    requires [root] <= order && parents <= order && order == Asked(store, dir, root, parents)
    ensures BreadthFirst(store, dir, root, order, via)
  {
    via := AskedInOrder(store, dir, root, parents);
    AskedIs(store, dir, root, parents);
    LaterDoNotMatter(store, dir, parents, order, via);
  }

  lemma RootIsBreadthFirst(store: Store, dir: Direction, root: SymbolID)
    ensures BreadthFirst(store, dir, root, [root], [Arrival(0, 0)])
  {
  }

  /**
    * The order of discovery, by the calls alone: each symbol is come upon from one that is discovered, nothing leads to
    * it earlier, and the symbols follow each other in the order of those arrivals. A symbol discovered earlier is asked
    * earlier, for the calls it makes before those made to it, and for both in the project's order.
    */
  lemma DiscoveryIsBreadthFirst(store: Store, dir: Direction, root: SymbolID, n: nat, order: seq<SymbolID>) returns (via: seq<Arrival>)
    requires order == Discovery(store, dir, root, n)
    ensures BreadthFirst(store, dir, root, order, via)
  {
    if n == 0 {
      RootIsBreadthFirst(store, dir, root);
      via := [Arrival(0, 0)];
    } else {
      var m := n - 1;
      DiscoveryGrows(store, dir, root, 0, n);
      DiscoveryGrowsOnce(store, dir, root, m);
      via := NextBreadthFirst(store, dir, root, Discovery(store, dir, root, m), order);
    }
  }
}
